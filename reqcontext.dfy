/** The request-context helpers of utils/context/context.go. */
module ReqContext {
  import opened Wrappers
  import opened Contexts
  import Constants
  import ApiError

  const TokenKey := CtxKey("token")
  const RequestIdKey := CtxKey("requestId")
  const FiberCtxKey := CtxKey("fiberCtx")

  /** A value stored in the fiber context's `Locals`. */
  datatype Local = CtxLocal(ctx: Context) | TokenLocal(token: Constants.Token) | ErrorLocal(err: ApiError.Err)

  /** `SetTokenClaims(ctx, token)`. */
  function SetTokenClaims(ctx: Context, t: Constants.Token): (r: Context)
    ensures Value(r, TokenKey) == Some(TokenVal(t))
    ensures forall k :: k != TokenKey ==> Value(r, k) == Value(ctx, k)
  {
    WithValue(ctx, TokenKey, TokenVal(t))
  }

  /** `GetTokenClaims(ctx)`: fails with a 500 warning unless a token is stored under the
      token key. */
  function GetTokenClaims(ctx: Context): (r: Result<Constants.Token, ApiError.Err>)
    ensures r.Success? <==> Value(ctx, TokenKey).Some? && Value(ctx, TokenKey).value.TokenVal?
    ensures r.Success? ==> Value(ctx, TokenKey) == Some(TokenVal(r.value))
    ensures r.Failure? ==> r.error == ApiError.NewWarn(ApiError.StatusInternalServerError, ["Can't get token claims"])
  {
    match Value(ctx, TokenKey)
    case Some(TokenVal(t)) => Success(t)
    case _ => Failure(ApiError.NewWarn(ApiError.StatusInternalServerError, ["Can't get token claims"]))
  }

  /** `setRequestId(ctx, id)`. */
  function SetRequestId(ctx: Context, id: seq<bv8>): (r: Context)
    ensures Value(r, RequestIdKey) == Some(RequestIdVal(id))
    ensures forall k :: k != RequestIdKey ==> Value(r, k) == Value(ctx, k)
  {
    WithValue(ctx, RequestIdKey, RequestIdVal(id))
  }

  /** `GetRequestId(ctx)`: the stored id, or nil when none of the right type is stored. */
  function GetRequestId(ctx: Context): (r: Option<seq<bv8>>)
    ensures r.Some? <==> Value(ctx, RequestIdKey).Some? && Value(ctx, RequestIdKey).value.RequestIdVal?
    ensures r.Some? ==> Value(ctx, RequestIdKey) == Some(RequestIdVal(r.value))
  {
    match Value(ctx, RequestIdKey)
    case Some(RequestIdVal(id)) => Some(id)
    case _ => None
  }

  /** `FiberWithCtx`: stores, under the local "ctx", a context that asks `ctx` first and
      the background context second. */
  function FiberWithCtx(locals: map<string, Local>, ctx: Context): (r: map<string, Local>)
    ensures r.Keys == locals.Keys + {"ctx"}
    ensures r["ctx"] == CtxLocal(Combined(Stopper(Background), Stopper(ctx)))
    ensures forall name :: name in locals && name != "ctx" ==> r[name] == locals[name]
  {
    locals["ctx" := CtxLocal(Combined(Stopper(Background), Stopper(ctx)))]
  }

  /** Storing claims and reading them back gives the same token, and a token stored
      before a request id survives it. */
  lemma TokenRoundTrip(ctx: Context, t: Constants.Token, id: seq<bv8>)
    ensures GetTokenClaims(SetTokenClaims(ctx, t)) == Success(t)
    ensures GetTokenClaims(SetRequestId(SetTokenClaims(ctx, t), id)) == Success(t)
    ensures GetRequestId(SetRequestId(ctx, id)) == Some(id)
  {
  }

  /** The context that `FiberWithCtx` stores answers every key as the given one does. */
  lemma FiberWithCtxValues(locals: map<string, Local>, ctx: Context, k: Key)
    ensures Value(FiberWithCtx(locals, ctx)["ctx"].ctx, k) == Value(ctx, k)
    ensures GetTokenClaims(FiberWithCtx(locals, ctx)["ctx"].ctx) == GetTokenClaims(ctx)
  {
  }

  /** The request context that the request-id middleware builds holds no token, so a
      service reading claims from it gets the "Can't get token claims" error. */
  lemma RequestIdContextHasNoToken(id: seq<bv8>)
    ensures GetTokenClaims(SetRequestId(Background, id)).Failure?
  {
  }
}
