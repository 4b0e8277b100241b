/**
 * The request gates of middlewares/middlewares.go. A middleware's effect on the request
 * is returned as an `Outcome`: it hands on to the next handler, or it answers the
 * request itself.
 */
module Middleware {
  import opened Wrappers
  import opened GoStrings
  import opened Constants
  import ApiError
  import KnownErrors
  import Respond

  datatype Outcome =
      /** `ctx.Next()` runs; `token` is what the middleware stored under `Locals("token")`. */
    | Next(token: Option<Token>)
      /** The middleware answered: the reply `respond.Error` wrote, and the status passed
          to `ctx.SendStatus`, if the middleware called it. */
    | Halt(reply: Respond.Reply<()>, sendStatus: Option<int>)

  /** The request headers, as `ctx.Get(name)` returns them ("" when absent). */
  type Headers = map<string, string>

  function Header(h: Headers, name: string): string {
    if name in h then h[name] else ""
  }

  /** The answer to a request the authentication middlewares refuse. */
  function Refused(sendStatus: Option<int>): Outcome {
    Halt(Respond.Error(KnownErrors.Unauthorized()), sendStatus)
  }

  /** The configured Basic credentials and the primitives `BasicAuth` relies on:
      standard base64 decoding (RFC 4648 section 4) and SHA-256. */
  datatype BasicEnv = BasicEnv(
    username: string,
    password: string,
    base64Decode: string -> Option<string>,
    sha256: string -> seq<bv8>)

  /** The credential pair of a Basic `Authorization` header (RFC 7617 section 2): the
      decoded payload split at its first ':'. */
  function BasicCredentials(env: BasicEnv, auth: string): (r: Option<(string, string)>)
    ensures r.Some? ==> HasPrefix(auth, "Basic ")
    ensures r.Some? ==> env.base64Decode(TrimPrefix(auth, "Basic ")) == Some(r.value.0 + ":" + r.value.1)
    ensures r.Some? ==> IndexOf(r.value.0, ":").None?
    ensures (HasPrefix(auth, "Basic ") && env.base64Decode(TrimPrefix(auth, "Basic ")).Some? &&
             Contains(env.base64Decode(TrimPrefix(auth, "Basic ")).value, ":")) ==> r.Some?
  {
    if !HasPrefix(auth, "Basic ") then None
    else
      match env.base64Decode(TrimPrefix(auth, "Basic "))
      case None => None
      case Some(payload) =>
        var pair := SplitTwo(payload, ":");
        if |pair| != 2 then None else Some((pair[0], pair[1]))
  }

  /** `BasicAuth`: hands on only when both digests match the configured ones. */
  function BasicAuth(env: BasicEnv, h: Headers): (r: Outcome)
    ensures r.Next? ==> r.token.None?
    ensures r.Halt? ==> r == Refused(Some(ApiError.StatusUnauthorized))
    ensures r.Next? <==> (BasicCredentials(env, Header(h, "Authorization")).Some? &&
              var (u, p) := BasicCredentials(env, Header(h, "Authorization")).value;
              env.sha256(u) == env.sha256(env.username) && env.sha256(p) == env.sha256(env.password))
  {
    match BasicCredentials(env, Header(h, "Authorization"))
    case None => Refused(Some(ApiError.StatusUnauthorized))
    case Some((username, password)) =>
      var usernameMatch := env.sha256(username) == env.sha256(env.username);
      var passwordMatch := env.sha256(password) == env.sha256(env.password);
      if usernameMatch && passwordMatch then Next(None)
      else Refused(Some(ApiError.StatusUnauthorized))
  }

  /** With a collision-free digest, `BasicAuth` admits exactly the configured user
      with the configured password; the password is everything after the first ':'. */
  lemma BasicAuthAcceptsExactly(env: BasicEnv, h: Headers, u: string, p: string)
    requires forall a, b :: env.sha256(a) == env.sha256(b) ==> a == b
    requires HasPrefix(Header(h, "Authorization"), "Basic ")
    requires env.base64Decode(TrimPrefix(Header(h, "Authorization"), "Basic ")) == Some(u + ":" + p)
    requires IndexOf(u, ":").None?
    ensures BasicAuth(env, h).Next? <==> u == env.username && p == env.password
  {
    var payload := u + ":" + p;
    assert OccursAt(payload, ":", |u|);
    var pair := SplitTwo(payload, ":");
    forall j | 0 <= j < |u|
      ensures !OccursAt(payload, ":", j)
    {
      assert !OccursAt(u, ":", j);
      assert payload[j..j + 1] == u[j..j + 1];
    }
    assert IndexOf(payload, ":") == Some(|u|);
    assert pair == [u, p];
  }

  /** The user-service check `JWT` consults (`ValidateToken`) and the signature check
      of the JWT library, which yields the claims of a valid token. */
  datatype JwtEnv = JwtEnv(
    parse: string -> Option<Claims>,
    validateToken: string -> Option<ApiError.Err>)

  /** The header `JWT` reads: Authorization, or Auth when Authorization is empty. */
  function AuthHeader(h: Headers): (r: string)
    ensures Header(h, "Authorization") != "" ==> r == Header(h, "Authorization")
    ensures Header(h, "Authorization") == "" ==> r == Header(h, "Auth")
  {
    var auth := Header(h, "Authorization");
    if auth == "" then Header(h, "Auth") else auth
  }

  /** `JWT`: the token is the second space-separated word of the header; it must parse,
      be valid, and pass `ValidateToken`. A refused request is answered without
      `SendStatus`. */
  function Jwt(env: JwtEnv, h: Headers): (r: Outcome)
    ensures r.Halt? ==> r == Refused(None)
    ensures |Split(AuthHeader(h), " ")| < 2 ==> r.Halt?
    ensures r.Next? <==>
              (|Split(AuthHeader(h), " ")| >= 2 &&
               var tok := Split(AuthHeader(h), " ")[1];
               env.parse(tok).Some? && env.validateToken(tok).None?)
    ensures r.Next? ==>
              var tok := Split(AuthHeader(h), " ")[1];
              r.token == Some(Token(tok, env.parse(tok).value))
  {
    var parts := Split(AuthHeader(h), " ");
    if |parts| < 2 then Refused(None)
    else
      var tokenStr := parts[1];
      match env.parse(tokenStr)
      case None => Refused(None)
      case Some(claims) =>
        if env.validateToken(tokenStr).Some? then Refused(None)
        else Next(Some(Token(tokenStr, claims)))
  }

  lemma NoSpaceNoIndex(t: string)
    requires forall i :: 0 <= i < |t| ==> t[i] != ' '
    ensures IndexOf(t, " ").None?
  {
    forall j | 0 <= j < |t|
      ensures !OccursAt(t, " ", j)
    {
      if j + 1 <= |t| {
        assert t[j..j + 1] == [t[j]];
      }
    }
  }

  lemma FirstSpace(scheme: string, tok: string)
    requires forall i :: 0 <= i < |scheme| ==> scheme[i] != ' '
    ensures IndexOf(scheme + " " + tok, " ") == Some(|scheme|)
  {
    var s := scheme + " " + tok;
    assert s[|scheme|..|scheme| + 1] == " ";
    assert OccursAt(s, " ", |scheme|);
    var i := IndexOf(s, " ").value;
    assert s[i] == s[i..i + 1][0];
  }

  lemma SplitOneSpace(scheme: string, tok: string)
    requires forall i :: 0 <= i < |scheme| ==> scheme[i] != ' '
    requires forall i :: 0 <= i < |tok| ==> tok[i] != ' '
    ensures Split(scheme + " " + tok, " ") == [scheme, tok]
  {
    var s := scheme + " " + tok;
    FirstSpace(scheme, tok);
    NoSpaceNoIndex(tok);
    assert s[..|scheme|] == scheme;
    assert s[|scheme| + 1..] == tok;
  }

  /** A header "<scheme> <token>" hands `token` to the checks whatever the scheme, and
      the Auth header is used only when Authorization is empty. */
  lemma JwtTakesSecondWord(env: JwtEnv, h: Headers, scheme: string, tok: string)
    requires forall i :: 0 <= i < |scheme| ==> scheme[i] != ' '
    requires forall i :: 0 <= i < |tok| ==> tok[i] != ' '
    requires AuthHeader(h) == scheme + " " + tok
    requires env.parse(tok).Some? && env.validateToken(tok).None?
    ensures Jwt(env, h) == Next(Some(Token(tok, env.parse(tok).value)))
  {
    SplitOneSpace(scheme, tok);
  }

  /** A header with no space is refused before any token check. */
  lemma JwtNeedsTwoWords(env: JwtEnv, h: Headers)
    requires forall i :: 0 <= i < |AuthHeader(h)| ==> AuthHeader(h)[i] != ' '
    ensures Jwt(env, h) == Refused(None)
  {
    NoSpaceNoIndex(AuthHeader(h));
  }

  /** `RateLimiter`, given the limiter's decision for this request. */
  function RateLimiter(allow: bool): (r: Outcome)
    ensures r.Next? <==> allow
    ensures !allow ==> r.reply.body.Json? && r.reply.status == ApiError.StatusTooManyRequests &&
                       r.reply.body.envelope.errors == Some(["Too many request"]) &&
                       r.sendStatus == Some(ApiError.StatusTooManyRequests)
  {
    if !allow then
      Halt(Respond.Error(ApiError.NewWarn(ApiError.StatusTooManyRequests, ["Too many request"])),
           Some(ApiError.StatusTooManyRequests))
    else Next(None)
  }

  /** `Recover`, given the formatted value the next handler panicked with, if any: the
      reply written after a panic, or `None` when the next handler returned. */
  function Recover(panicked: Option<string>): (r: Option<Respond.Reply<()>>)
    ensures r.Some? <==> panicked.Some?
    ensures r.Some? ==> r.value.status == ApiError.StatusInternalServerError
    ensures r.Some? ==> r.value.body.Json? && r.value.body.envelope.errors == Some(["Panic : " + panicked.value])
  {
    match panicked
    case None => None
    case Some(v) => Some(Respond.Error(ApiError.NewError(ApiError.StatusInternalServerError, ["Panic : " + v])))
  }
}
