/** The user service of domains/user/service.go: login, logout, token checks,
    registration and the caller's profile. */
module UserService {
  import opened Wrappers
  import opened Store
  import opened Schema
  import opened ApiError
  import opened Constants
  import opened Contexts
  import ReqContext
  import KnownErrors

  /** The collaborators the service calls but that are not modelled: bcrypt's hash and
      compare, JWT signing, the date parser with the layout "02/01/2006", the
      configured token lifetime in nanoseconds, the text of `ErrInvalidCredentials`, and
      the text MySQL gives for a second user with a phone number already taken. */
  datatype Auth = Auth(
    hash: string -> Result<string, string>,
    compare: (string, string) -> bool,
    sign: Claims -> Result<string, string>,
    parseDate: Option<string> -> Result<int, string>,
    expireIn: int,
    invalidCredentials: string,
    duplicatePhone: string -> string)

  datatype LoginReq = LoginReq(notelp: string, kataSandi: string)

  /** `LoginRes`: the signed token and when it expires. */
  datatype LoginRes = LoginRes(token: string, expires: int)

  /** `LogoutReq`: the token to retire and its expiry. */
  datatype LogoutReq = LogoutReq(token: string, expires: int)

  datatype LogoutRes = LogoutRes(loggedOut: bool)

  /** `RegisterReq`; `jenisKelamin` and `tentang` are accepted but never stored. */
  datatype RegisterReq = RegisterReq(
    nama: string, kataSandi: string, noTelp: string, tanggalLahir: Option<string>,
    jenisKelamin: Option<string>, tentang: Option<string>, pekerjaan: Option<string>,
    email: string, idProvinsi: Option<string>, idKota: Option<string>, isAdmin: Option<bool>)

  /** `UpdateProfileReq`, each field optional as the service treats it. */
  datatype UpdateProfileReq = UpdateProfileReq(
    nama: Option<string>, kataSandi: Option<string>, noTelp: Option<string>, tanggalLahir: Option<string>,
    jenisKelamin: Option<string>, tentang: Option<string>, pekerjaan: Option<string>,
    email: Option<string>, idProvinsi: Option<string>, idKota: Option<string>, isAdmin: Option<bool>)

  /** `GetStringOrDefault` / `GetBoolOrDefault`. */
  function OrDefault<T>(x: Option<T>, def: T): (r: T)
    ensures x.Some? ==> r == x.value
    ensures x.None? ==> r == def
  {
    if x.Some? then x.value else def
  }

  /** `notelp = ?`. */
  function PhoneIs(phone: string): Row<User> -> bool {
    (x: Row<User>) => x.val.notelp == phone
  }

  /** Another user than `id` with this phone number. */
  function OtherWithPhone(id: nat, phone: string): Row<User> -> bool {
    (x: Row<User>) => x.id != id && x.val.notelp == phone
  }

  /** The invalid-credentials error, the same for an unknown phone and a wrong password. */
  function InvalidCredentials(auth: Auth): Err {
    NewWarn(StatusUnauthorized, [auth.invalidCredentials])
  }

  /** The claims `Login` signs: the user id and the phone the caller gave, with the
      expiry in whole seconds; `IsAdmin` is never set. */
  function LoginClaims(user: Row<User>, phone: string, expires: int): (c: Claims)
    ensures c.id == user.id && c.noTelp == phone && !c.isAdmin && c.expiresAt == expires / 1000000000
  {
    Claims(user.id, phone, false, expires / 1000000000)
  }

  /** `Login`: the first user with the phone number must exist and the password must match
      its hash, and both failures are the same 401 warning; the token is signed for the
      claims of `LoginClaims` and expires `expireIn` after `now`. */
  method Login(db: Db, auth: Auth, input: LoginReq, now: int) returns (r: Result<LoginRes, Err>)
    ensures var user := First(db.tables.users.rows, PhoneIs(input.notelp));
      (user.None? ==> r == Failure(InvalidCredentials(auth))) &&
      (user.Some? && !auth.compare(user.value.val.kataSandi, input.kataSandi) ==> r == Failure(InvalidCredentials(auth))) &&
      (user.Some? && auth.compare(user.value.val.kataSandi, input.kataSandi) ==>
        var signed := auth.sign(LoginClaims(user.value, input.notelp, now + auth.expireIn));
        (signed.Failure? ==> r == Failure(Error(StatusInternalServerError, Plain(signed.error)))) &&
        (signed.Success? ==> r == Success(LoginRes(signed.value, now + auth.expireIn))))
  {
    var user := First(db.tables.users.rows, PhoneIs(input.notelp));
    if user.Some? {
      if !auth.compare(user.value.val.kataSandi, input.kataSandi) {
        return Failure(InvalidCredentials(auth));
      }
    }
    if user.None? {
      return Failure(InvalidCredentials(auth));
    }
    var expirationTime := now + auth.expireIn;
    var claims := LoginClaims(user.value, input.notelp, expirationTime);
    var signed := auth.sign(claims);
    if signed.Failure? {
      var e := FromErr(Some(Plain(signed.error)));
      return Failure(e.value);
    }
    r := Success(LoginRes(signed.value, expirationTime));
  }

  /** `Logout`: adds exactly one row (token, expiry) to the blocklist. */
  method Logout(db: Db, input: LogoutReq) returns (res: LogoutRes)
    modifies db
    ensures res.loggedOut
    ensures db.tables == old(db.tables).(invalidTokens := old(db.tables.invalidTokens) + [InvalidToken(input.token, input.expires)])
    ensures TablesValid(old(db.tables)) ==> TablesValid(db.tables)
  {
    var invalidToken := InvalidToken(input.token, input.expires);
    db.tables := db.tables.(invalidTokens := db.tables.invalidTokens + [invalidToken]);
    res := LogoutRes(true);
  }

  /** The token is on the blocklist. */
  predicate Blocklisted(t: Tables, token: string) {
    exists j :: 0 <= j < |t.invalidTokens| && t.invalidTokens[j].token == token
  }

  /** `ValidateToken`: looks the token up in the blocklist but answers "valid" whether or
      not it is there; with a store that does not fail, it never rejects. */
  method ValidateToken(db: Db, token: string) returns (err: Option<Err>)
    ensures err.None?
  {
    var found := FindBlocklisted(db, token);
    if found {
      // `First` found the token: the error is nil all the same.
      return None;
    }
    // `First` reports `gorm.ErrRecordNotFound`, which is answered with nil.
    err := None;
  }

  /** The blocklist lookup `First(&invalidToken, "token = ?", token)`. */
  method FindBlocklisted(db: Db, token: string) returns (found: bool)
    ensures found <==> Blocklisted(db.tables, token)
  {
    var i := 0;
    found := false;
    while i < |db.tables.invalidTokens| && !found
      invariant 0 <= i <= |db.tables.invalidTokens|
      invariant found <==> exists j :: 0 <= j < i && db.tables.invalidTokens[j].token == token
    {
      found := db.tables.invalidTokens[i].token == token;
      i := i + 1;
    }
  }

  /** As written, a token is still valid right after `Logout` has put it on the
      blocklist. */
  method LogoutThenValidate(db: Db, input: LogoutReq) returns (err: Option<Err>)
    modifies db
    ensures Blocklisted(db.tables, input.token)
    ensures err.None?
  {
    var _ := Logout(db, input);
    assert db.tables.invalidTokens[|db.tables.invalidTokens| - 1].token == input.token;
    err := ValidateToken(db, input.token);
  }

  /** `ValidateToken` as evidently intended: a token found on the blocklist is refused. */
  method ValidateTokenFixed(db: Db, token: string) returns (err: Option<Err>)
    ensures err.Some? <==> Blocklisted(db.tables, token)
    ensures err.Some? ==> err.value == KnownErrors.Unauthorized()
  {
    var found := FindBlocklisted(db, token);
    if found {
      return Some(KnownErrors.Unauthorized());
    }
    err := None;
  }

  /** With the corrected check, a token is refused right after `Logout`. */
  method LogoutThenValidateFixed(db: Db, input: LogoutReq) returns (err: Option<Err>)
    modifies db
    ensures Blocklisted(db.tables, input.token)
    ensures err == Some(KnownErrors.Unauthorized())
  {
    var _ := Logout(db, input);
    assert db.tables.invalidTokens[|db.tables.invalidTokens| - 1].token == input.token;
    err := ValidateTokenFixed(db, input.token);
  }

  /** The user `Register` stores: the password hashed, the birth date parsed, optional
      texts defaulting to "", and the admin flag taken from the request (false when
      absent). */
  function NewUser(input: RegisterReq, hashed: string, birth: int, now: int): (u: User)
    ensures u.nama == input.nama && u.kataSandi == hashed && u.notelp == input.noTelp
    ensures u.tanggalLahir == birth && u.email == input.email
    ensures u.jenisKelamin == "" && u.tentang == ""
    ensures u.pekerjaan == OrDefault(input.pekerjaan, "") && u.idProvinsi == OrDefault(input.idProvinsi, "")
    ensures u.idKota == OrDefault(input.idKota, "")
    ensures u.isAdmin == (input.isAdmin == Some(true))
    ensures u.createdAt == now && u.updatedAt == now
  {
    User(input.nama, hashed, input.noTelp, birth, "", "", OrDefault(input.pekerjaan, ""), input.email,
         OrDefault(input.idProvinsi, ""), OrDefault(input.idKota, ""), OrDefault(input.isAdmin, false), now, now)
  }

  /** Inserting a user whose phone is not taken keeps phones unique. */
  lemma InsertKeepsPhonesUnique(users: Table<User>, u: User)
    requires UniquePhones(users) && First(users.rows, PhoneIs(u.notelp)).None?
    ensures UniquePhones(Insert(users, u))
  {
    var r := Insert(users, u);
    forall i, j | 0 <= i < |r.rows| && 0 <= j < |r.rows| && i != j
      ensures r.rows[i].val.notelp != r.rows[j].val.notelp
    {
      if i == |users.rows| {
        assert !PhoneIs(u.notelp)(users.rows[j]);
      } else if j == |users.rows| {
        assert !PhoneIs(u.notelp)(users.rows[i]);
      }
    }
  }

  /** `Register`: a hashing or date failure is a 500 error; a phone number already taken
      is rejected by the unique index (a 500 error with MySQL's text); otherwise the
      user of `NewUser` is added. Any failure leaves the tables unchanged. */
  method Register(db: Db, auth: Auth, input: RegisterReq, now: int) returns (r: Result<Row<User>, Err>)
    modifies db
    ensures r.Failure? ==> db.tables == old(db.tables)
    ensures auth.hash(input.kataSandi).Failure? ==>
      r == Failure(Error(StatusInternalServerError, Plain(auth.hash(input.kataSandi).error)))
    ensures auth.hash(input.kataSandi).Success? && auth.parseDate(input.tanggalLahir).Failure? ==>
      r == Failure(Error(StatusInternalServerError, Plain(auth.parseDate(input.tanggalLahir).error)))
    ensures auth.hash(input.kataSandi).Success? && auth.parseDate(input.tanggalLahir).Success? ==>
      var u := NewUser(input, auth.hash(input.kataSandi).value, auth.parseDate(input.tanggalLahir).value, now);
      (First(old(db.tables.users.rows), PhoneIs(input.noTelp)).Some? ==>
        r == Failure(Error(StatusInternalServerError, Plain(auth.duplicatePhone(input.noTelp))))) &&
      (First(old(db.tables.users.rows), PhoneIs(input.noTelp)).None? ==>
        r == Success(Row(old(db.tables.users.nextId), u)) &&
        db.tables == old(db.tables).(users := Insert(old(db.tables.users), u)))
    ensures TablesValid(old(db.tables)) ==> TablesValid(db.tables)
  {
    var hashed := auth.hash(input.kataSandi);
    if hashed.Failure? {
      var e := FromErr(Some(Plain(hashed.error)));
      return Failure(e.value);
    }
    var parsed := auth.parseDate(input.tanggalLahir);
    if parsed.Failure? {
      var e := FromErr(Some(Plain(parsed.error)));
      return Failure(e.value);
    }
    var user := NewUser(input, hashed.value, parsed.value, now);
    if First(db.tables.users.rows, PhoneIs(user.notelp)).Some? {
      var e := FromErr(Some(Plain(auth.duplicatePhone(user.notelp))));
      return Failure(e.value);
    }
    ghost var before := db.tables.users;
    r := Success(Row(db.tables.users.nextId, user));
    db.tables := db.tables.(users := Insert(db.tables.users, user));
    if UniquePhones(before) {
      InsertKeepsPhonesUnique(before, user);
    }
  }

  /** The profile `UpdateProfile` saves: exactly the given fields are replaced, a new
      password is stored hashed and a new birth date parsed; a failure of either is a
      500 error. The id and the creation time are kept. */
  function MergedProfile(auth: Auth, row: Row<User>, input: UpdateProfileReq, now: int): (r: Result<Row<User>, Err>)
    ensures input.kataSandi.Some? && auth.hash(input.kataSandi.value).Failure? ==>
      r == Failure(Error(StatusInternalServerError, Plain(auth.hash(input.kataSandi.value).error)))
    ensures (input.kataSandi.None? || auth.hash(input.kataSandi.value).Success?) &&
            input.tanggalLahir.Some? && auth.parseDate(input.tanggalLahir).Failure? ==>
      r == Failure(Error(StatusInternalServerError, Plain(auth.parseDate(input.tanggalLahir).error)))
    ensures r.Success? ==>
      var u := r.value.val;
      r.value.id == row.id && u.createdAt == row.val.createdAt && u.updatedAt == now &&
      u.jenisKelamin == row.val.jenisKelamin && u.tentang == row.val.tentang &&
      u.nama == OrDefault(input.nama, row.val.nama) &&
      u.kataSandi == (if input.kataSandi.Some? then auth.hash(input.kataSandi.value).value else row.val.kataSandi) &&
      u.notelp == OrDefault(input.noTelp, row.val.notelp) &&
      u.tanggalLahir == (if input.tanggalLahir.Some? then auth.parseDate(input.tanggalLahir).value else row.val.tanggalLahir) &&
      u.pekerjaan == OrDefault(input.pekerjaan, row.val.pekerjaan) &&
      u.email == OrDefault(input.email, row.val.email) &&
      u.idProvinsi == OrDefault(input.idProvinsi, row.val.idProvinsi) &&
      u.idKota == OrDefault(input.idKota, row.val.idKota) &&
      u.isAdmin == OrDefault(input.isAdmin, row.val.isAdmin)
    ensures r.Failure? <==>
      (input.kataSandi.Some? && auth.hash(input.kataSandi.value).Failure?) ||
      (input.tanggalLahir.Some? && auth.parseDate(input.tanggalLahir).Failure?)
  {
    var u := row.val;
    var hashed := if input.kataSandi.Some? then auth.hash(input.kataSandi.value) else Success(u.kataSandi);
    var parsed := if input.tanggalLahir.Some? then auth.parseDate(input.tanggalLahir) else Success(u.tanggalLahir);
    if hashed.Failure? then Failure(Error(StatusInternalServerError, Plain(hashed.error)))
    else if parsed.Failure? then Failure(Error(StatusInternalServerError, Plain(parsed.error)))
    else
      Success(Row(row.id, u.(
        nama := OrDefault(input.nama, u.nama),
        kataSandi := hashed.value,
        notelp := OrDefault(input.noTelp, u.notelp),
        tanggalLahir := parsed.value,
        pekerjaan := OrDefault(input.pekerjaan, u.pekerjaan),
        email := OrDefault(input.email, u.email),
        idProvinsi := OrDefault(input.idProvinsi, u.idProvinsi),
        idKota := OrDefault(input.idKota, u.idKota),
        isAdmin := OrDefault(input.isAdmin, u.isAdmin),
        updatedAt := now)))
  }

  /** Saving a user under its own id keeps phones unique when no other user has its
      phone. */
  lemma SaveKeepsPhonesUnique(users: Table<User>, row: Row<User>)
    requires Valid(users) && UniquePhones(users)
    requires First(users.rows, OtherWithPhone(row.id, row.val.notelp)).None?
    ensures UniquePhones(Save(users, row))
  {
    var r := Save(users, row);
    forall i, j | 0 <= i < |r.rows| && 0 <= j < |r.rows| && i != j
      ensures r.rows[i].val.notelp != r.rows[j].val.notelp
    {
      if users.rows[i].id == row.id && users.rows[j].id != row.id {
        assert !OtherWithPhone(row.id, row.val.notelp)(users.rows[j]);
      } else if users.rows[j].id == row.id && users.rows[i].id != row.id {
        assert !OtherWithPhone(row.id, row.val.notelp)(users.rows[i]);
      }
    }
  }

  /** `UpdateProfile`: the caller's user must exist (otherwise a 500 error); the merged
      profile of `MergedProfile` is saved unless its phone number belongs to another
      user. Any failure leaves the tables unchanged. */
  method UpdateProfile(db: Db, ctx: Context, auth: Auth, input: UpdateProfileReq, now: int) returns (r: Result<Row<User>, Err>)
    modifies db
    ensures r.Failure? ==> db.tables == old(db.tables)
    ensures ReqContext.GetTokenClaims(ctx).Failure? ==> r == Failure(ReqContext.GetTokenClaims(ctx).error)
    ensures ReqContext.GetTokenClaims(ctx).Success? ==>
      var user := First(old(db.tables.users.rows), ById(ReqContext.GetTokenClaims(ctx).value.claims.id));
      (user.None? ==> r == Failure(Api(ApiErrors(StatusInternalServerError, ErrorLevel, ["record not found"])))) &&
      (user.Some? && MergedProfile(auth, user.value, input, now).Failure? ==>
        r == Failure(MergedProfile(auth, user.value, input, now).error)) &&
      (user.Some? && MergedProfile(auth, user.value, input, now).Success? ==>
        var merged := MergedProfile(auth, user.value, input, now).value;
        (First(old(db.tables.users.rows), OtherWithPhone(merged.id, merged.val.notelp)).Some? ==>
          r == Failure(Error(StatusInternalServerError, Plain(auth.duplicatePhone(merged.val.notelp))))) &&
        (First(old(db.tables.users.rows), OtherWithPhone(merged.id, merged.val.notelp)).None? ==>
          r == Success(merged) && db.tables == old(db.tables).(users := Save(old(db.tables.users), merged))))
    ensures TablesValid(old(db.tables)) ==> TablesValid(db.tables)
  {
    var token := ReqContext.GetTokenClaims(ctx);
    if token.Failure? {
      var e := FromErr(Some(token.error));
      return Failure(e.value);
    }
    var found := First(db.tables.users.rows, ById(token.value.claims.id));
    if found.None? {
      var e := FromErr(Some(RecordNotFound));
      return Failure(e.value);
    }
    var merged := MergedProfile(auth, found.value, input, now);
    if merged.Failure? {
      return Failure(merged.error);
    }
    var row := merged.value;
    if First(db.tables.users.rows, OtherWithPhone(row.id, row.val.notelp)).Some? {
      var e := FromErr(Some(Plain(auth.duplicatePhone(row.val.notelp))));
      return Failure(e.value);
    }
    ghost var before := db.tables.users;
    db.tables := db.tables.(users := Save(db.tables.users, row));
    if Valid(before) && UniquePhones(before) {
      SaveKeepsPhonesUnique(before, row);
    }
    r := Success(row);
  }

  /** `GetProfile`: the caller's user with the password blanked; a missing user is a 500
      error. */
  method GetProfile(db: Db, ctx: Context) returns (r: Result<Row<User>, Err>)
    ensures ReqContext.GetTokenClaims(ctx).Failure? ==> r == Failure(ReqContext.GetTokenClaims(ctx).error)
    ensures ReqContext.GetTokenClaims(ctx).Success? ==>
      var user := First(db.tables.users.rows, ById(ReqContext.GetTokenClaims(ctx).value.claims.id));
      (user.None? ==> r == Failure(Api(ApiErrors(StatusInternalServerError, ErrorLevel, ["record not found"])))) &&
      (user.Some? ==> r == Success(Row(user.value.id, user.value.val.(kataSandi := ""))))
    ensures r.Success? ==> r.value.val.kataSandi == ""
  {
    var token := ReqContext.GetTokenClaims(ctx);
    if token.Failure? {
      var e := FromErr(Some(token.error));
      return Failure(e.value);
    }
    var found := First(db.tables.users.rows, ById(token.value.claims.id));
    if found.None? {
      var e := FromErr(Some(RecordNotFound));
      return Failure(e.value);
    }
    var user := found.value.val;
    user := user.(kataSandi := "");
    r := Success(Row(found.value.id, user));
  }

  /** In a table with unique phones, the user `Login` finds for a registered phone is the
      one registered with it. */
  lemma LoginFindsRegistered(users: Table<User>, i: nat)
    requires UniquePhones(users) && i < |users.rows|
    ensures First(users.rows, PhoneIs(users.rows[i].val.notelp)) == Some(users.rows[i])
  {
    var phone := users.rows[i].val.notelp;
    assert PhoneIs(phone)(users.rows[i]);
    var f := First(users.rows, PhoneIs(phone));
    var k :| 0 <= k < |users.rows| && users.rows[k] == f.value && PhoneIs(phone)(users.rows[k]);
    assert k == i;
  }
}
