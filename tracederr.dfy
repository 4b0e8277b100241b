/**
 * `getTracerrCallers` of utils/logger/utils.go: the stack frames of a traced error,
 * reduced to the caller names that belong to this module and are outside the
 * api-error package.
 */
module TracedErrors {
  import opened Wrappers
  import opened GoStrings
  import ApiError

  const PackageName := "github.com/devanadindraa/Evermos-Backend"
  const ApiErrorDir := "/utils/api-error"

  /** One stack frame: the qualified function name and the line. */
  datatype Frame = Frame(func: string, line: int)

  /** An error as the logger receives it: wrapped by tracerr with its stack, or not. */
  datatype LoggedErr = Traced(wrapped: ApiError.Err, stack: seq<Frame>) | Untraced(err: ApiError.Err)

  /** The caller text of one frame, or `None` when the frame is skipped. */
  function Caller(f: Frame): (r: Option<string>)
    ensures !Contains(f.func, PackageName) ==> r.None?
    ensures Contains(f.func, PackageName) ==>
              var rest := Split(f.func, PackageName)[1];
              (r.None? <==> Count(rest, ApiErrorDir) == 1) &&
              (!Contains(rest, ApiErrorDir) ==> r == Some(rest + ":" + IntToString(f.line)))
  {
    var funcSplit := Split(f.func, PackageName);
    SplitMany(f.func, PackageName);
    if |funcSplit| == 1 then None
    else
      var rest := funcSplit[1];
      var restSplit := Split(rest, ApiErrorDir);
      SplitCount(rest, ApiErrorDir);
      SplitMany(rest, ApiErrorDir);
      if |restSplit| == 2 then None
      else Some(restSplit[0] + ":" + IntToString(f.line))
  }

  /** The caller texts of the kept frames, in stack order. */
  function Callers(stack: seq<Frame>): seq<string>
    decreases |stack|
  {
    if |stack| == 0 then []
    else
      var init := Callers(stack[..|stack| - 1]);
      match Caller(stack[|stack| - 1])
      case None => init
      case Some(c) => init + [c]
  }

  /** `getTracerrCallers(err)`. */
  method GetTracerrCallers(err: LoggedErr) returns (originalErr: ApiError.Err, callers: seq<string>)
    ensures err.Untraced? ==> originalErr == err.err && callers == []
    ensures err.Traced? ==> originalErr == err.wrapped && callers == Callers(err.stack)
  {
    if err.Untraced? {
      return err.err, [];
    }
    callers := [];
    var i := 0;
    while i < |err.stack|
      invariant 0 <= i <= |err.stack|
      invariant callers == Callers(err.stack[..i])
    {
      var frame := err.stack[i];
      assert err.stack[..i + 1][..i] == err.stack[..i];
      var funcSplit := Split(frame.func, PackageName);
      if |funcSplit| == 1 {
        i := i + 1;
        continue;
      }
      funcSplit := Split(funcSplit[1], ApiErrorDir);
      if |funcSplit| == 2 {
        i := i + 1;
        continue;
      }
      callers := callers + [funcSplit[0] + ":" + IntToString(frame.line)];
      i := i + 1;
    }
    assert err.stack[..i] == err.stack;
    originalErr := err.wrapped;
  }

  /** The callers of a stack made of two parts are those of each part, in order. */
  lemma {:induction false} CallersAppend(a: seq<Frame>, b: seq<Frame>)
    ensures Callers(a + b) == Callers(a) + Callers(b)
    decreases |b|
  {
    if |b| == 0 {
      assert a + b == a;
    } else {
      var b' := b[..|b| - 1];
      assert (a + b)[..|a + b| - 1] == a + b';
      assert (a + b)[|a + b| - 1] == b[|b| - 1];
      CallersAppend(a, b');
    }
  }

  /** Filtering never adds callers, and every caller comes from a frame. */
  lemma {:induction false} CallersBound(stack: seq<Frame>)
    ensures |Callers(stack)| <= |stack|
    ensures forall c :: c in Callers(stack) ==> exists f :: f in stack && Caller(f) == Some(c)
    decreases |stack|
  {
    if |stack| > 0 {
      var init := stack[..|stack| - 1];
      CallersBound(init);
      assert forall f :: f in init ==> f in stack;
    }
  }

  /** A stack in which no frame names this module yields no callers. */
  lemma {:induction false} ForeignStackHasNoCallers(stack: seq<Frame>)
    requires forall i :: 0 <= i < |stack| ==> !Contains(stack[i].func, PackageName)
    ensures Callers(stack) == []
    decreases |stack|
  {
    if |stack| > 0 {
      ForeignStackHasNoCallers(stack[..|stack| - 1]);
    }
  }
}
