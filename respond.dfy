/**
 * The response helpers of utils/respond/respond.go. What the Go code writes into the
 * fiber context (status, headers, body) is returned as a `Reply` record instead.
 */
module Respond {
  import opened Wrappers
  import ApiError

  /** The JSON envelope `ApiModel`: `errors` and `data` may be null. */
  datatype Envelope<D> = Envelope(status: bool, message: string, errors: Option<seq<string>>, data: Option<D>)

  datatype Body<D> = NoBody | Json(envelope: Envelope<D>) | Bytes(bytes: seq<bv8>)

  /** The status, the headers set by the call, and the body sent. */
  datatype Reply<D> = Reply(status: int, headers: map<string, string>, body: Body<D>)

  /** `DataParam`; `data` is `None` for a nil byte slice. */
  datatype DataParam = DataParam(code: int, filename: string, mimeType: string, data: Option<seq<bv8>>)

  /** `respond.Error(ctx, err)`: status and messages come from `GetApiErrors`, the
      `error` header carries the error's text. */
  function Error<D>(err: ApiError.Err): (r: Reply<D>)
    ensures r.status == ApiError.GetApiErrors(Some(err)).code
    ensures r.headers == map["error" := ApiError.Text(err)]
    ensures r.body == Json(Envelope(false, "Failed to process request",
                                   Some(ApiError.GetApiErrors(Some(err)).messages), None))
  {
    var api := ApiError.GetApiErrors(Some(err));
    Reply(api.code, map["error" := ApiError.Text(err)],
          Json(Envelope(false, "Failed to process request", Some(api.messages), None)))
  }

  /** `respond.Success(ctx, code, message, data)`. */
  function Success<D>(code: int, message: string, data: Option<D>): (r: Reply<D>)
    ensures r.status == code && r.headers == map["error" := ""]
    ensures r.body == Json(Envelope(true, message, None, data))
  {
    Reply(code, map["error" := ""], Json(Envelope(true, message, None, data)))
  }

  /** `respond.Data(ctx, param)`: nil data sends only the status; otherwise the bytes go
      out as an attachment with the given name and content type. */
  function Data<D>(param: DataParam): (r: Reply<D>)
    ensures r.status == param.code
    ensures param.data.None? ==> r.headers == map["error" := ""] && r.body == NoBody
    ensures param.data.Some? ==>
      r.headers == map["error" := "", "Content-Disposition" := "attachment; filename=" + param.filename,
                       "Content-Type" := param.mimeType]
      && r.body == Bytes(param.data.value)
  {
    if param.data.None? then Reply(param.code, map["error" := ""], NoBody)
    else
      Reply(param.code,
            map["error" := "", "Content-Disposition" := "attachment; filename=" + param.filename,
                "Content-Type" := param.mimeType],
            Bytes(param.data.value))
  }

  /** An `ApiErrors` value is answered with its own code and messages; every other
      error with 500 and its text as the only message. */
  lemma ErrorReply<D>(err: ApiError.Err)
    ensures var r: Reply<D> := Error(err);
      && r.status == (if err.Api? then err.api.code else ApiError.StatusInternalServerError)
      && r.body.envelope.errors == Some(if err.Api? then err.api.messages else [ApiError.Text(err)])
      && !r.body.envelope.status && r.body.envelope.data.None?
  {
  }
}
