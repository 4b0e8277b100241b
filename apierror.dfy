/**
 * The error vocabulary of the service (utils/api-error/apiError.go): an `ApiErrors`
 * value carries an HTTP status code, a level and a list of messages; every other Go
 * `error` is either a validator result or a plain error with a text.
 */
module ApiError {
  import opened Wrappers
  import GoStrings

  const StatusOK := 200
  const StatusBadRequest := 400
  const StatusUnauthorized := 401
  const StatusForbidden := 403
  const StatusNotFound := 404
  const StatusTooManyRequests := 429
  const StatusInternalServerError := 500

  datatype Level = WarnLevel | ErrorLevel

  datatype ApiErrors = ApiErrors(code: int, level: Level, messages: seq<string>)

  /** The `reflect.Kind` of a validated field, as far as `msgForTag` looks at it. */
  datatype Kind = ArrayKind | SliceKind | OtherKind

  /** One entry of `validator.ValidationErrors`. */
  datatype FieldError = FieldError(namespace: string, field: string, kind: Kind, tag: string, param: string)

  /** A non-nil Go `error` value. `tracerr.Wrap` is transparent and not represented. */
  datatype Err =
    | Api(api: ApiErrors)
    | Validation(fields: seq<FieldError>)
    | Plain(text: string)

  /** The validator library's text for one field error. */
  function FieldErrorText(fe: FieldError): string {
    "Key: '" + fe.namespace + "' Error:Field validation for '" + fe.field + "' failed on the '" + fe.tag + "' tag"
  }

  function FieldErrorTexts(fs: seq<FieldError>): (r: seq<string>)
    ensures |r| == |fs| && forall i :: 0 <= i < |fs| ==> r[i] == FieldErrorText(fs[i])
  {
    seq(|fs|, i requires 0 <= i < |fs| => FieldErrorText(fs[i]))
  }

  /** `err.Error()` for every kind of error. */
  function Text(e: Err): string {
    match e
    case Api(a) => GoStrings.Join(a.messages, " - ")
    case Validation(fs) => GoStrings.Join(FieldErrorTexts(fs), "\n")
    case Plain(t) => t
  }

  /** `ApiErrors.Error()`: the messages joined with " - ", built up message by message. */
  method ErrorString(a: ApiErrors) returns (s: string)
    ensures s == GoStrings.Join(a.messages, " - ")
    ensures |a.messages| == 0 ==> s == ""
    ensures |a.messages| == 1 ==> s == a.messages[0]
  {
    s := "";
    var i := 0;
    while i < |a.messages|
      invariant 0 <= i <= |a.messages|
      invariant s == GoStrings.Join(a.messages[..i], " - ")
    {
      GoStrings.JoinPrefixStep(a.messages, i, " - ");
      if i != 0 {
        s := s + " - ";
      }
      s := s + a.messages[i];
      i := i + 1;
    }
    assert a.messages[..i] == a.messages;
  }

  /** `NewWarn(code, msgs...)`. */
  function NewWarn(code: int, msgs: seq<string>): (r: Err)
    ensures r.Api? && r.api.code == code && r.api.level == WarnLevel && r.api.messages == msgs
  {
    Api(ApiErrors(code, WarnLevel, msgs))
  }

  /** `NewError(code, msgs...)`. */
  function NewError(code: int, msgs: seq<string>): (r: Err)
    ensures r.Api? && r.api.code == code && r.api.level == ErrorLevel && r.api.messages == msgs
  {
    Api(ApiErrors(code, ErrorLevel, msgs))
  }

  /** `Warn(code, err)`: the text of `err` as the only message. */
  function Warn(code: int, err: Err): (r: Err)
    ensures r == NewWarn(code, [Text(err)])
  {
    NewWarn(code, [Text(err)])
  }

  /** `Error(code, err)`: the text of `err` as the only message. */
  function Error(code: int, err: Err): (r: Err)
    ensures r == NewError(code, [Text(err)])
  {
    NewError(code, [Text(err)])
  }

  /** `msgForTag`: the human-readable text for a failed validation tag. */
  function MsgForTag(kind: Kind, tag: string, param: string): (r: string)
    ensures tag == "required" ==> r == "This field is required"
    ensures tag == "number" ==> r == "This field must be number"
    ensures tag == "gt" && (kind == ArrayKind || kind == SliceKind) ==> r == "Array length must be greater than " + param
    ensures tag == "gt" && kind == OtherKind ==> r == "This field must be greater than " + param
    ensures tag !in {"required", "number", "gt"} ==> r == "Failed on " + tag + " tag"
  {
    match tag
    case "required" => "This field is required"
    case "number" => "This field must be number"
    case "gt" =>
      if kind == ArrayKind || kind == SliceKind then "Array length must be greater than " + param
      else "This field must be greater than " + param
    case _ => "Failed on " + tag + " tag"
  }

  /** The message `FromErr` makes of one field error. */
  function FieldMessage(fe: FieldError): string {
    fe.field + ": " + MsgForTag(fe.kind, fe.tag, fe.param)
  }

  /** The messages `FromErr` makes of a validation failure, one per field, in order. */
  function FieldMessages(fs: seq<FieldError>): (r: seq<string>)
    ensures |r| == |fs| && forall i :: 0 <= i < |fs| ==> r[i] == FieldMessage(fs[i])
  {
    seq(|fs|, i requires 0 <= i < |fs| => FieldMessage(fs[i]))
  }

  /** The loop of `FromErr` that appends one message per field error. */
  method CollectFieldMessages(fs: seq<FieldError>) returns (messages: seq<string>)
    ensures messages == FieldMessages(fs)
  {
    messages := [];
    var i := 0;
    while i < |fs|
      invariant 0 <= i <= |fs|
      invariant |messages| == i
      invariant forall k :: 0 <= k < i ==> messages[k] == FieldMessage(fs[k])
    {
      var m := FieldMessage(fs[i]);
      messages := messages + [m];
      i := i + 1;
    }
    assert forall k :: 0 <= k < |fs| ==> messages[k] == FieldMessages(fs)[k];
  }

  /** `c` is what `FromErr` makes of the error `e`: an `ApiErrors` is kept, a validation
      failure becomes a 400 warning with one message per field, anything else a 500
      error. */
  ghost predicate ClassifiedAs(e: Err, c: Err) {
    c.Api? &&
    (e.Api? ==> c == e) &&
    (e.Validation? ==> c == Api(ApiErrors(StatusBadRequest, WarnLevel, FieldMessages(e.fields)))) &&
    (e.Plain? ==> c == Api(ApiErrors(StatusInternalServerError, ErrorLevel, [e.text])))
  }

  /** `FromErr`: nil stays nil, and an error becomes its classification. */
  method FromErr(err: Option<Err>) returns (r: Option<Err>)
    ensures r.None? <==> err.None?
    ensures err.Some? ==> ClassifiedAs(err.value, r.value)
  {
    if err.None? {
      r := None;
    } else if err.value.Api? {
      r := err;
    } else if err.value.Validation? {
      var messages := CollectFieldMessages(err.value.fields);
      r := Some(NewWarn(StatusBadRequest, messages));
    } else {
      r := Some(Error(StatusInternalServerError, err.value));
    }
  }

  /** `RBError`: a failed rollback is always a 500 error whose last message is the
      rollback's text. */
  function RBError(rbErr: Err, err: Option<Err>): (r: ApiErrors)
    ensures r.code == StatusInternalServerError && r.level == ErrorLevel
    ensures err.None? ==> r.messages == [Text(rbErr)]
    ensures err.Some? && err.value.Api? ==> r.messages == err.value.api.messages + [Text(rbErr)]
    ensures err.Some? && !err.value.Api? ==> r.messages == [Text(err.value), Text(rbErr)]
  {
    match err
    case None => ApiErrors(StatusInternalServerError, ErrorLevel, [Text(rbErr)])
    case Some(Api(a)) => ApiErrors(StatusInternalServerError, ErrorLevel, a.messages + [Text(rbErr)])
    case Some(e) => ApiErrors(StatusInternalServerError, ErrorLevel, [Text(e), Text(rbErr)])
  }

  /** `GetApiErrors`: the `ApiErrors` to report for any error, nil included. */
  function GetApiErrors(err: Option<Err>): (r: ApiErrors)
    ensures err.None? ==> r == ApiErrors(StatusInternalServerError, ErrorLevel, ["empty error"])
    ensures err.Some? && err.value.Api? ==> r == err.value.api
    ensures err.Some? && !err.value.Api? ==> r == ApiErrors(StatusInternalServerError, ErrorLevel, [Text(err.value)])
  {
    match err
    case None => ApiErrors(StatusInternalServerError, ErrorLevel, ["empty error"])
    case Some(Api(a)) => a
    case Some(e) => ApiErrors(StatusInternalServerError, ErrorLevel, [Text(e)])
  }

  /** Only a validation failure is reported with a status other than the one it
      carries or 500: after `FromErr` it is a 400. */
  lemma GetApiErrorsCode(err: Err)
    ensures GetApiErrors(Some(err)).code == (if err.Api? then err.api.code else StatusInternalServerError)
    ensures GetApiErrors(Some(err)).code == StatusInternalServerError || err.Api?
  {
  }

  /** `ErrGroup`: messages collected one by one (the mutex is not modelled). */
  class ErrGroup {
    var errsStr: seq<string>

    constructor ()
      ensures errsStr == []
    {
      errsStr := [];
    }

    /** `Append`: one more message at the end. */
    method Append(errStr: string)
      modifies this
      ensures errsStr == old(errsStr) + [errStr]
    {
      errsStr := errsStr + [errStr];
    }

    /** `GetErr`: nil before anything was appended, otherwise a 500 error listing the
        messages in the order they were appended. */
    function GetErr(): (r: Option<Err>)
      reads this
      ensures r.None? <==> |errsStr| == 0
      ensures r.Some? ==> r.value == Api(ApiErrors(StatusInternalServerError, ErrorLevel, errsStr))
    {
      if |errsStr| == 0 then None else Some(Api(ApiErrors(StatusInternalServerError, ErrorLevel, errsStr)))
    }
  }

  /** Appending to a fresh group reports exactly what was appended, in order. */
  method ErrGroupCollects(msgs: seq<string>) returns (r: Option<Err>)
    ensures r.None? <==> |msgs| == 0
    ensures r.Some? ==> r.value == Api(ApiErrors(StatusInternalServerError, ErrorLevel, msgs))
  {
    var g := new ErrGroup();
    var i := 0;
    while i < |msgs|
      invariant 0 <= i <= |msgs|
      invariant g.errsStr == msgs[..i]
    {
      g.Append(msgs[i]);
      assert msgs[..i + 1] == msgs[..i] + [msgs[i]];
      i := i + 1;
    }
    assert msgs[..i] == msgs;
    r := g.GetErr();
  }
}
