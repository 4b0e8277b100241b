/** Optional values and results, the ways the Go code signals "nil" and "error". */
module Wrappers {

  /** A Go value (a reference or an interface) that may be nil. */
  datatype Option<+T> = None | Some(value: T)

  /** A value or an error, the `(T, error)` pair of a Go call. */
  datatype Result<+T, +E> = Success(value: T) | Failure(error: E)

  /** A run of steps that stops at the first failure: the values of all the steps when
      each one succeeded, the first failure otherwise. */
  function Collect<T, E>(steps: seq<Result<T, E>>): Result<seq<T>, E>
    decreases |steps|
  {
    if |steps| == 0 then Success([])
    else
      var prev := Collect(steps[..|steps| - 1]);
      if prev.Failure? then prev
      else if steps[|steps| - 1].Failure? then Failure(steps[|steps| - 1].error)
      else Success(prev.value + [steps[|steps| - 1].value])
  }

  /** The run succeeds exactly when every step does, and then keeps each step's value in
      order; a failed run fails with the first failing step. */
  lemma {:induction false} CollectShape<T, E>(steps: seq<Result<T, E>>)
    ensures var r := Collect(steps);
      (r.Success? <==> forall k :: 0 <= k < |steps| ==> steps[k].Success?) &&
      (r.Success? ==> |r.value| == |steps| && forall k :: 0 <= k < |steps| ==> r.value[k] == steps[k].value) &&
      (r.Failure? ==> exists k :: 0 <= k < |steps| && steps[k] == Failure(r.error) &&
                        forall j :: 0 <= j < k ==> steps[j].Success?)
    decreases |steps|
  {
    if |steps| > 0 {
      var init := steps[..|steps| - 1];
      CollectShape(init);
      assert forall k :: 0 <= k < |init| ==> init[k] == steps[k];
    }
  }

  /** Once a prefix of the run has failed, the later steps do not matter. */
  lemma {:induction false} CollectStaysFailed<T, E>(steps: seq<Result<T, E>>, m: nat)
    requires m <= |steps| && Collect(steps[..m]).Failure?
    ensures Collect(steps) == Collect(steps[..m])
    decreases |steps| - m
  {
    if m < |steps| {
      var init := steps[..|steps| - 1];
      assert init[..m] == steps[..m];
      CollectStaysFailed(init, m);
    } else {
      assert steps[..m] == steps;
    }
  }

  /** Extending a successful run by one step. */
  lemma CollectSnoc<T, E>(steps: seq<Result<T, E>>, i: nat)
    requires i < |steps|
    ensures Collect(steps[..i + 1]) ==
      (if Collect(steps[..i]).Failure? then Collect(steps[..i])
       else if steps[i].Failure? then Failure(steps[i].error)
       else Success(Collect(steps[..i]).value + [steps[i].value]))
  {
    assert steps[..i + 1][..i] == steps[..i];
  }

  /** Mapping with a partial function: the values of the elements it is defined on, in
      order, the others dropped (a loop that `continue`s past some elements). */
  function FilterMap<A, B>(xs: seq<A>, f: A -> Option<B>): seq<B>
    decreases |xs|
  {
    if |xs| == 0 then []
    else
      var y := f(xs[|xs| - 1]);
      FilterMap(xs[..|xs| - 1], f) + (if y.Some? then [y.value] else [])
  }

  /** Extending the mapped prefix by one element. */
  lemma FilterMapSnoc<A, B>(xs: seq<A>, f: A -> Option<B>, i: nat)
    requires i < |xs|
    ensures FilterMap(xs[..i + 1], f) ==
      FilterMap(xs[..i], f) + (if f(xs[i]).Some? then [f(xs[i]).value] else [])
  {
    assert xs[..i + 1][..i] == xs[..i];
  }

  /** Every mapped value comes from an element, and no more values than elements. */
  lemma {:induction false} FilterMapFrom<A, B>(xs: seq<A>, f: A -> Option<B>)
    ensures |FilterMap(xs, f)| <= |xs|
    ensures forall k :: 0 <= k < |FilterMap(xs, f)| ==>
      exists j :: 0 <= j < |xs| && f(xs[j]) == Some(FilterMap(xs, f)[k])
    decreases |xs|
  {
    if |xs| > 0 {
      var init := xs[..|xs| - 1];
      FilterMapFrom(init, f);
      assert forall j :: 0 <= j < |init| ==> init[j] == xs[j];
    }
  }

  /** Every element the function is defined on has its value in the result. */
  lemma {:induction false} FilterMapKeeps<A, B>(xs: seq<A>, f: A -> Option<B>)
    ensures forall j :: 0 <= j < |xs| && f(xs[j]).Some? ==> f(xs[j]).value in FilterMap(xs, f)
    decreases |xs|
  {
    if |xs| > 0 {
      var init := xs[..|xs| - 1];
      FilterMapKeeps(init, f);
      assert forall j :: 0 <= j < |init| ==> init[j] == xs[j];
    }
  }

  /** Where the function is defined on every element nothing is dropped, and the result
      is the plain map. */
  lemma {:induction false} FilterMapTotal<A, B>(xs: seq<A>, f: A -> Option<B>)
    requires forall j :: 0 <= j < |xs| ==> f(xs[j]).Some?
    ensures |FilterMap(xs, f)| == |xs|
    ensures forall k :: 0 <= k < |xs| ==> FilterMap(xs, f)[k] == f(xs[k]).value
    decreases |xs|
  {
    if |xs| > 0 {
      var init := xs[..|xs| - 1];
      assert forall j :: 0 <= j < |init| ==> init[j] == xs[j];
      FilterMapTotal(init, f);
    }
  }

  /** Two functions that agree on the elements map them alike. */
  lemma {:induction false} FilterMapSame<A, B>(xs: seq<A>, f: A -> Option<B>, g: A -> Option<B>)
    requires forall j :: 0 <= j < |xs| ==> f(xs[j]) == g(xs[j])
    ensures FilterMap(xs, f) == FilterMap(xs, g)
    decreases |xs|
  {
    if |xs| > 0 {
      var init := xs[..|xs| - 1];
      assert forall j :: 0 <= j < |init| ==> init[j] == xs[j];
      FilterMapSame(init, f, g);
    }
  }
}
