/**
 * Go's `context.Context` as the service uses it, with the combining context of
 * utils/context/combiner.go and the forwarding `stopperCtx` of utils/context/stopper.go
 * (its per-goroutine re-entrancy guard is not modelled).
 */
module Contexts {
  import opened Wrappers
  import Constants

  /** A context key: a value of the package's own `ctxKey` type, or of any other type. */
  datatype Key = CtxKey(name: string) | ForeignKey(name: string)

  /** The values stored in contexts: a `constants.Token`, a `uuid.UUID`, a `*fiber.Ctx`
      (named by a number) or a string. */
  datatype Val = TokenVal(token: Constants.Token) | RequestIdVal(uuid: seq<bv8>) | FiberCtxVal(fiber: nat) | OtherVal(text: string)

  /** The Go type name of a stored value, as a failed type assertion reports it. */
  function TypeName(v: Val): string {
    match v
    case TokenVal(_) => "constants.Token"
    case RequestIdVal(_) => "uuid.UUID"
    case FiberCtxVal(_) => "*fiber.Ctx"
    case OtherVal(_) => "string"
  }

  /** The runtime error of a type assertion to `*fiber.Ctx` on Go's nil. */
  const NilFiberCtxPanic := "interface conversion: interface {} is nil, not *fiber.Ctx"

  /** The single-value type assertion `v.(*fiber.Ctx)` on the answer of `Value`: the
      fiber context, or the text of the runtime error it panics with. */
  function AsFiberCtx(v: Option<Val>): (r: Result<nat, string>)
    ensures r.Success? <==> v.Some? && v.value.FiberCtxVal?
    ensures r.Success? ==> v == Some(FiberCtxVal(r.value))
    ensures v.None? ==> r == Failure(NilFiberCtxPanic)
  {
    match v
    case Some(FiberCtxVal(f)) => Success(f)
    case Some(other) => Failure("interface conversion: interface {} is " + TypeName(other) + ", not *fiber.Ctx")
    case None => Failure(NilFiberCtxPanic)
  }

  /** The result of `Deadline()`: `at` is `None` for Go's zero `time.Time`. */
  datatype Deadline = Deadline(at: Option<int>, ok: bool)

  datatype Context =
    | Background
      /** A context made elsewhere (the framework's request context, a cancellable one). */
    | Leaf(deadline: Deadline, done: Option<nat>, err: Option<string>, values: map<Key, Val>)
    | WithValue(parent: Context, key: Key, val: Val)
      /** `newCombinerCtx(parentCtx, childCtx)`. */
    | Combined(parentCtx: Context, childCtx: Context)
      /** `newStopperCtx(ctx)`. */
    | Stopper(inner: Context)

  /** `ctx.Value(key)`; `None` is Go's nil. A combined context asks the child first. */
  function Value(c: Context, k: Key): (r: Option<Val>)
    ensures c.Combined? ==> r == (if Value(c.childCtx, k).Some? then Value(c.childCtx, k) else Value(c.parentCtx, k))
  {
    match c
    case Background => None
    case Leaf(_, _, _, values) => if k in values then Some(values[k]) else None
    case WithValue(parent, key, val) => if key == k then Some(val) else Value(parent, k)
    case Combined(p, ch) => var v := Value(ch, k); if v.Some? then v else Value(p, k)
    case Stopper(inner) => Value(inner, k)
  }

  /** `ctx.Deadline()`. A combined context uses the child's unless its time is zero. */
  function DeadlineOf(c: Context): (r: Deadline)
    ensures c.Combined? ==> r == (if DeadlineOf(c.childCtx).at.Some? then DeadlineOf(c.childCtx) else DeadlineOf(c.parentCtx))
  {
    match c
    case Background => Deadline(None, false)
    case Leaf(d, _, _, _) => d
    case WithValue(parent, _, _) => DeadlineOf(parent)
    case Combined(p, ch) => var d := DeadlineOf(ch); if d.at.Some? then d else DeadlineOf(p)
    case Stopper(inner) => DeadlineOf(inner)
  }

  /** `ctx.Done()`: a channel (named by a number) or nil. */
  function Done(c: Context): (r: Option<nat>)
    ensures c.Combined? ==> r == (if Done(c.childCtx).Some? then Done(c.childCtx) else Done(c.parentCtx))
  {
    match c
    case Background => None
    case Leaf(_, done, _, _) => done
    case WithValue(parent, _, _) => Done(parent)
    case Combined(p, ch) => var d := Done(ch); if d.Some? then d else Done(p)
    case Stopper(inner) => Done(inner)
  }

  /** `ctx.Err()`: the text of the error, or nil. */
  function ErrOf(c: Context): (r: Option<string>)
    ensures c.Combined? ==> r == (if ErrOf(c.childCtx).Some? then ErrOf(c.childCtx) else ErrOf(c.parentCtx))
  {
    match c
    case Background => None
    case Leaf(_, _, err, _) => err
    case WithValue(parent, _, _) => ErrOf(parent)
    case Combined(p, ch) => var e := ErrOf(ch); if e.Some? then e else ErrOf(p)
    case Stopper(inner) => ErrOf(inner)
  }

  /** A combining context whose parent is (a stopper over) the background context
      answers every question exactly as its child does. */
  lemma CombinedOverBackground(ch: Context, k: Key)
    ensures Value(Combined(Stopper(Background), ch), k) == Value(ch, k)
    ensures DeadlineOf(Combined(Stopper(Background), ch)) == (if DeadlineOf(ch).at.Some? then DeadlineOf(ch) else Deadline(None, false))
    ensures Done(Combined(Stopper(Background), ch)) == Done(ch)
    ensures ErrOf(Combined(Stopper(Background), ch)) == ErrOf(ch)
  {
  }

  /** The child's answer wins whenever it has one; the parent is consulted only for
      keys the child does not hold. */
  lemma {:induction false} CombinedPrefersChild(p: Context, ch: Context, k: Key, v: Val)
    requires Value(ch, k) == Some(v)
    ensures Value(Combined(p, ch), k) == Some(v)
    ensures Value(Combined(ch, p), k) == (if Value(p, k).Some? then Value(p, k) else Some(v))
  {
  }
}
