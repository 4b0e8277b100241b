/**
 * The request chain of a protected route: `AddRequestId` (middlewares/middlewares.go)
 * stores the request context in the fiber local "ctx", `JWT` checks the bearer token,
 * and the handler passes the context of "ctx" to its service, which reads the caller
 * with `GetTokenClaims` (utils/context/context.go). The shop service also takes the
 * fiber context out of the request context (domains/shop/service.go).
 */
module RequestChain {
  import opened Wrappers
  import opened Contexts
  import opened ReqContext
  import Constants
  import ApiError
  import Middleware
  import Respond
  import FileUtil
  import ShopService
  import Store
  import Schema

  /** The locals `AddRequestId` leaves: "ctx" holds a context carrying only the request id. */
  function AfterRequestId(locals: map<string, Local>, id: seq<bv8>): (r: map<string, Local>)
    ensures "ctx" in r && r["ctx"].CtxLocal?
  {
    FiberWithCtx(locals, SetRequestId(Background, id))
  }

  /** The claims the service of the handler sees: those of the context in "ctx". */
  function ServiceClaims(locals: map<string, Local>): Result<Constants.Token, ApiError.Err>
    requires "ctx" in locals && locals["ctx"].CtxLocal?
  {
    GetTokenClaims(locals["ctx"].ctx)
  }

  /** `JWT` as written: an accepted token is stored only in the local "token", and the
      context in "ctx" is left as it was. */
  function AfterJwt(locals: map<string, Local>, env: Middleware.JwtEnv, h: Middleware.Headers): (r: Option<map<string, Local>>)
    ensures r.Some? <==> Middleware.Jwt(env, h).Next?
    ensures r.Some? ==> "token" in r.value && r.value["token"] == TokenLocal(Middleware.Jwt(env, h).token.value)
  {
    match Middleware.Jwt(env, h)
    case Next(t) => Some(locals["token" := TokenLocal(t.value)])
    case Halt(_, _) => None
  }

  /** As written, a request that `JWT` accepts reaches its service without claims: every
      service that reads the caller answers 500 "Can't get token claims". */
  lemma AcceptedTokenNeverReachesServices(locals: map<string, Local>, id: seq<bv8>, env: Middleware.JwtEnv, h: Middleware.Headers)
    requires Middleware.Jwt(env, h).Next?
    ensures var after := AfterJwt(AfterRequestId(locals, id), env, h).value;
      "ctx" in after && after["ctx"].CtxLocal? &&
      ServiceClaims(after) == Failure(ApiError.NewWarn(ApiError.StatusInternalServerError, ["Can't get token claims"]))
  {
    var before := AfterRequestId(locals, id);
    var after := AfterJwt(before, env, h).value;
    assert after["ctx"] == before["ctx"];
    FiberWithCtxValues(locals, SetRequestId(Background, id), TokenKey);
    RequestIdContextHasNoToken(id);
  }

  /** `JWT` as evidently intended: the accepted token is also stored in the request
      context with `SetTokenClaims`, the setter that exists for that purpose. */
  function AfterJwtFixed(locals: map<string, Local>, env: Middleware.JwtEnv, h: Middleware.Headers): (r: Option<map<string, Local>>)
    requires "ctx" in locals && locals["ctx"].CtxLocal?
    ensures r.Some? <==> Middleware.Jwt(env, h).Next?
    ensures r.Some? ==> "token" in r.value && r.value["token"] == TokenLocal(Middleware.Jwt(env, h).token.value)
  {
    match Middleware.Jwt(env, h)
    case Next(t) => Some(FiberWithCtx(locals["token" := TokenLocal(t.value)], SetTokenClaims(locals["ctx"].ctx, t.value)))
    case Halt(_, _) => None
  }

  /** With the corrected `JWT`, the service of an accepted request reads exactly the
      token `JWT` checked, and the request id is still there. */
  lemma AcceptedTokenReachesServices(locals: map<string, Local>, id: seq<bv8>, env: Middleware.JwtEnv, h: Middleware.Headers)
    requires Middleware.Jwt(env, h).Next?
    ensures var after := AfterJwtFixed(AfterRequestId(locals, id), env, h).value;
      "ctx" in after && after["ctx"].CtxLocal? &&
      ServiceClaims(after) == Success(Middleware.Jwt(env, h).token.value) &&
      GetRequestId(after["ctx"].ctx) == Some(id)
  {
    var before := AfterRequestId(locals, id);
    var t := Middleware.Jwt(env, h).token.value;
    var stored := SetTokenClaims(before["ctx"].ctx, t);
    var after := AfterJwtFixed(before, env, h).value;
    FiberWithCtxValues(before["token" := TokenLocal(t)], stored, TokenKey);
    FiberWithCtxValues(before["token" := TokenLocal(t)], stored, RequestIdKey);
    FiberWithCtxValues(locals, SetRequestId(Background, id), RequestIdKey);
  }

  /** As written, no middleware stores a fiber context in the request context, so even
      with claims delivered, a shop photo update that gets past the old file's removal
      panics before it saves anything, and `Recover` answers 500 with the panic text. */
  lemma ShopPhotoUpdatePanics(locals: map<string, Local>, id: seq<bv8>, env: Middleware.JwtEnv, h: Middleware.Headers,
                              fs: FileUtil.FileSystem, row: Store.Row<Schema.Toko>, file: FileUtil.FileHeader, now: int)
    requires Middleware.Jwt(env, h).Next?
    requires row.val.urlFoto == "" || !fs.remove("." + row.val.urlFoto).RemoveFailed?
    ensures var after := AfterJwtFixed(AfterRequestId(locals, id), env, h).value;
      "ctx" in after && after["ctx"].CtxLocal? &&
      var step := ShopService.PhotoStep(fs, after["ctx"].ctx, row, file, now);
      step == ShopService.Panicked(NilFiberCtxPanic) &&
      Middleware.Recover(Some(step.value)) ==
        Some(Respond.Error(ApiError.NewError(ApiError.StatusInternalServerError, ["Panic : " + NilFiberCtxPanic])))
  {
    var before := AfterRequestId(locals, id);
    var t := Middleware.Jwt(env, h).token.value;
    var after := AfterJwtFixed(before, env, h).value;
    FiberWithCtxValues(before["token" := TokenLocal(t)], SetTokenClaims(before["ctx"].ctx, t), FiberCtxKey);
    FiberWithCtxValues(locals, SetRequestId(Background, id), FiberCtxKey);
    ShopService.PhotoWithoutFiberCtxPanics(fs, after["ctx"].ctx, row, file, now);
  }

  /** `AddRequestId` as evidently intended: the request context also carries the fiber
      context under `FiberCtxKey`, the key that exists for that purpose. */
  function AfterRequestIdFixed(locals: map<string, Local>, id: seq<bv8>, fiber: nat): (r: map<string, Local>)
    ensures "ctx" in r && r["ctx"].CtxLocal?
  {
    FiberWithCtx(locals, WithValue(SetRequestId(Background, id), FiberCtxKey, FiberCtxVal(fiber)))
  }

  /** With both corrections, the shop service of an accepted request reads the token,
      finds the fiber context, and its photo step succeeds exactly when the old file's
      removal and the upload's save do. */
  lemma ShopPhotoUpdateSaves(locals: map<string, Local>, id: seq<bv8>, fiber: nat, env: Middleware.JwtEnv, h: Middleware.Headers,
                             fs: FileUtil.FileSystem, row: Store.Row<Schema.Toko>, file: FileUtil.FileHeader, now: int)
    requires Middleware.Jwt(env, h).Next?
    ensures var after := AfterJwtFixed(AfterRequestIdFixed(locals, id, fiber), env, h).value;
      "ctx" in after && after["ctx"].CtxLocal? &&
      ServiceClaims(after) == Success(Middleware.Jwt(env, h).token.value) &&
      GetRequestId(after["ctx"].ctx) == Some(id) &&
      var step := ShopService.PhotoStep(fs, after["ctx"].ctx, row, file, now);
      step.Returned? &&
      (step.result.Success? <==>
        (row.val.urlFoto == "" || !fs.remove("." + row.val.urlFoto).RemoveFailed?) &&
        fs.saveFile(file, ShopService.ShopPhotoPath(row, now)).None?)
  {
    var inner := WithValue(SetRequestId(Background, id), FiberCtxKey, FiberCtxVal(fiber));
    var before := AfterRequestIdFixed(locals, id, fiber);
    var t := Middleware.Jwt(env, h).token.value;
    var stored := SetTokenClaims(before["ctx"].ctx, t);
    var after := AfterJwtFixed(before, env, h).value;
    FiberWithCtxValues(before["token" := TokenLocal(t)], stored, TokenKey);
    FiberWithCtxValues(before["token" := TokenLocal(t)], stored, FiberCtxKey);
    FiberWithCtxValues(locals, inner, FiberCtxKey);
    FiberWithCtxValues(before["token" := TokenLocal(t)], stored, RequestIdKey);
    FiberWithCtxValues(locals, inner, RequestIdKey);
    assert Value(after["ctx"].ctx, FiberCtxKey) == Some(FiberCtxVal(fiber));
  }
}
