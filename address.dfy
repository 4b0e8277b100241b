/** The address service of domains/address/service.go. */
module AddressService {
  import opened Wrappers
  import opened GoStrings
  import opened Store
  import opened Schema
  import opened ApiError
  import opened Constants
  import opened Contexts
  import ReqContext

  /** `AddressReq`: the phone number is optional and defaults to the user's own. */
  datatype AddressReq = AddressReq(noTelp: Option<string>, judulAlamat: string, namaPenerima: string, detailAlamat: string)

  /** `UpdateAddressReq`: each field optional. */
  datatype UpdateAddressReq = UpdateAddressReq(
    noTelp: Option<string>, judulAlamat: Option<string>, namaPenerima: Option<string>, detailAlamat: Option<string>)

  /** `AddressRes`. */
  datatype AddressRes = AddressRes(id: int, judulAlamat: string, namaPenerima: string, noTelp: string, detailAlamat: string)

  function ResOf(row: Row<Address>): (r: AddressRes)
    ensures r.id == row.id && r.judulAlamat == row.val.judulAlamat && r.namaPenerima == row.val.namaPenerima
    ensures r.noTelp == row.val.noTelp && r.detailAlamat == row.val.detailAlamat
  {
    AddressRes(row.id, row.val.judulAlamat, row.val.namaPenerima, row.val.noTelp, row.val.detailAlamat)
  }

  /** `id_user = ?` with the caller's integer id. */
  function OwnedBy(userId: int): Row<Address> -> bool {
    (x: Row<Address>) => x.val.idUser == userId
  }

  /** `judul_alamat LIKE ?` with the keyword wrapped in `%`. */
  function TitleLike(sql: Sql, keyword: string): Row<Address> -> bool {
    (x: Row<Address>) => sql.like(x.val.judulAlamat, "%" + keyword + "%")
  }

  /** The address `AddAddress` stores for `user` under the caller's id. */
  function NewAddress(userId: int, user: User, input: AddressReq, now: int): (a: Address)
    ensures a.idUser == Wrap64(userId)
    ensures a.noTelp == (if input.noTelp.Some? then input.noTelp.value else user.notelp)
    ensures a.judulAlamat == input.judulAlamat && a.namaPenerima == input.namaPenerima
    ensures a.detailAlamat == input.detailAlamat && a.createdAt == now && a.updatedAt == now
  {
    Address(Wrap64(userId), if input.noTelp.Some? then input.noTelp.value else user.notelp,
            input.judulAlamat, input.namaPenerima, input.detailAlamat, now, now)
  }

  /** `AddAddress`: the caller's user row must exist (a missing one is a 500 error, via
      `FromErr`); the new address then belongs to the caller. */
  method AddAddress(db: Db, ctx: Context, input: AddressReq, now: int) returns (r: Result<Row<Address>, Err>)
    modifies db
    ensures r.Failure? ==> db.tables == old(db.tables)
    ensures ReqContext.GetTokenClaims(ctx).Failure? ==> r == Failure(ReqContext.GetTokenClaims(ctx).error)
    ensures ReqContext.GetTokenClaims(ctx).Success? ==>
      var userId := ReqContext.GetTokenClaims(ctx).value.claims.id;
      var user := First(old(db.tables.users.rows), ById(userId));
      (user.None? ==> r == Failure(Api(ApiErrors(StatusInternalServerError, ErrorLevel, ["record not found"])))) &&
      (user.Some? ==>
        var a := NewAddress(userId, user.value.val, input, now);
        r == Success(Row(old(db.tables.addresses.nextId), a)) &&
        db.tables == old(db.tables).(addresses := Insert(old(db.tables.addresses), a)))
    ensures TablesValid(old(db.tables)) ==> TablesValid(db.tables)
  {
    var token := ReqContext.GetTokenClaims(ctx);
    if token.Failure? {
      var e := FromErr(Some(token.error));
      return Failure(e.value);
    }
    var userId := token.value.claims.id;
    var user := First(db.tables.users.rows, ById(userId));
    if user.None? {
      var e := FromErr(Some(RecordNotFound));
      return Failure(e.value);
    }
    var address := NewAddress(userId, user.value.val, input, now);
    r := Success(Row(db.tables.addresses.nextId, address));
    db.tables := db.tables.(addresses := Insert(db.tables.addresses, address));
  }

  /** The addresses `GetMyAddress` lists: the caller's, optionally with a title like the
      keyword, ordered only when both order fields are set, then windowed. */
  function MyAddressWindow(t: Tables, sql: Sql, userId: int, filter: FilterReq,
                           order: (seq<Row<Address>>, string) -> seq<Row<Address>>): seq<Row<Address>>
    requires ValidFilter(filter)
  {
    var mine := Where(t.addresses.rows, OwnedBy(userId));
    var matching := if filter.keyword != "" then Where(mine, TitleLike(sql, filter.keyword)) else mine;
    var ordered := if filter.orderBy != "" && filter.sortOrder != ""
      then order(matching, filter.orderBy + " " + filter.sortOrder) else matching;
    Window(ordered, Skipped(filter), filter.limit)
  }

  /** Every address listed belongs to the caller, has a title like the keyword if one
      was given, and there are at most `limit` of them. */
  lemma MyAddressWindowMatches(t: Tables, sql: Sql, userId: int, filter: FilterReq,
                               order: (seq<Row<Address>>, string) -> seq<Row<Address>>)
    requires ValidFilter(filter) && Reorders(order)
    ensures var w := MyAddressWindow(t, sql, userId, filter, order);
      |w| <= filter.limit &&
      forall i :: 0 <= i < |w| ==>
        w[i] in t.addresses.rows && w[i].val.idUser == userId &&
        (filter.keyword != "" ==> TitleLike(sql, filter.keyword)(w[i]))
  {
    var mine := Where(t.addresses.rows, OwnedBy(userId));
    var matching := if filter.keyword != "" then Where(mine, TitleLike(sql, filter.keyword)) else mine;
    var clause := filter.orderBy + " " + filter.sortOrder;
    var ordered := if filter.orderBy != "" && filter.sortOrder != "" then order(matching, clause) else matching;
    var w := MyAddressWindow(t, sql, userId, filter, order);
    forall i | 0 <= i < |w|
      ensures w[i] in t.addresses.rows && w[i].val.idUser == userId &&
              (filter.keyword != "" ==> TitleLike(sql, filter.keyword)(w[i]))
    {
      assert w[i] in ordered;
      if filter.orderBy != "" && filter.sortOrder != "" {
        ReorderedFrom(order, matching, clause, w[i]);
      }
      var k :| 0 <= k < |matching| && matching[k] == w[i];
      var j :| 0 <= j < |mine| && mine[j] == w[i];
    }
  }

  /** Without both order fields the order clause is never consulted. */
  lemma MyAddressUnordered(t: Tables, sql: Sql, userId: int, filter: FilterReq,
                           order: (seq<Row<Address>>, string) -> seq<Row<Address>>)
    requires ValidFilter(filter) && (filter.orderBy == "" || filter.sortOrder == "")
    ensures MyAddressWindow(t, sql, userId, filter, order) ==
      MyAddressWindow(t, sql, userId, filter, (rows: seq<Row<Address>>, clause: string) => [])
  {
  }

  /** `GetMyAddress`: the responses for `MyAddressWindow`, in order. */
  method GetMyAddress(db: Db, ctx: Context, sql: Sql, filter: FilterReq,
                      order: (seq<Row<Address>>, string) -> seq<Row<Address>>)
    returns (r: Result<seq<AddressRes>, Err>)
    requires ValidFilter(filter)
    ensures ReqContext.GetTokenClaims(ctx).Failure? <==> r.Failure?
    ensures r.Failure? ==> r == Failure(ReqContext.GetTokenClaims(ctx).error)
    ensures r.Success? ==>
      var w := MyAddressWindow(db.tables, sql, ReqContext.GetTokenClaims(ctx).value.claims.id, filter, order);
      |r.value| == |w| && forall i :: 0 <= i < |w| ==> r.value[i] == ResOf(w[i])
  {
    var token := ReqContext.GetTokenClaims(ctx);
    if token.Failure? {
      var e := FromErr(Some(token.error));
      return Failure(e.value);
    }
    var addresses := MyAddressWindow(db.tables, sql, token.value.claims.id, filter, order);
    var result: seq<AddressRes> := [];
    var i := 0;
    while i < |addresses|
      invariant 0 <= i <= |addresses| && |result| == i
      invariant forall k :: 0 <= k < i ==> result[k] == ResOf(addresses[k])
    {
      result := result + [ResOf(addresses[i])];
      i := i + 1;
    }
    r := Success(result);
  }

  /** The ownership check shared by the by-id operations: the address must exist and,
      for a non-admin, belong to the caller (`uint(userID)`); each case has its own
      404 message. */
  function OwnedAddress(t: Tables, sql: Sql, claims: Claims, addressId: string,
                        notFound: string, notYours: string): (r: Result<Row<Address>, Err>)
    ensures r.Success? <==>
      First(t.addresses.rows, IdMatches(sql, addressId)).Some? &&
      (claims.isAdmin || First(t.addresses.rows, IdMatches(sql, addressId)).value.val.idUser == Wrap64(claims.id))
    ensures r.Success? ==> r.value == First(t.addresses.rows, IdMatches(sql, addressId)).value
    ensures r.Success? && !claims.isAdmin ==> r.value.val.idUser == Wrap64(claims.id)
    ensures First(t.addresses.rows, IdMatches(sql, addressId)).None? ==> r == Failure(NewWarn(StatusNotFound, [notFound]))
    ensures First(t.addresses.rows, IdMatches(sql, addressId)).Some? && r.Failure? ==>
      !claims.isAdmin && r == Failure(NewWarn(StatusNotFound, [notYours]))
  {
    match First(t.addresses.rows, IdMatches(sql, addressId))
    case None => Failure(NewWarn(StatusNotFound, [notFound]))
    case Some(a) =>
      if !claims.isAdmin && a.val.idUser != Wrap64(claims.id) then Failure(NewWarn(StatusNotFound, [notYours]))
      else Success(a)
  }

  /** `GetAddressByID`: see `OwnedAddress`. */
  method GetAddressByID(db: Db, ctx: Context, sql: Sql, addressId: string) returns (r: Result<AddressRes, Err>)
    ensures ReqContext.GetTokenClaims(ctx).Failure? ==> r == Failure(ReqContext.GetTokenClaims(ctx).error)
    ensures ReqContext.GetTokenClaims(ctx).Success? ==>
      var found := OwnedAddress(db.tables, sql, ReqContext.GetTokenClaims(ctx).value.claims, addressId,
                                "Failed, address not found", "Failed, this address is not yours");
      (found.Failure? ==> r == Failure(found.error)) &&
      (found.Success? ==> r == Success(ResOf(found.value)))
  {
    var token := ReqContext.GetTokenClaims(ctx);
    if token.Failure? {
      var e := FromErr(Some(token.error));
      return Failure(e.value);
    }
    var found := OwnedAddress(db.tables, sql, token.value.claims, addressId,
                              "Failed, address not found", "Failed, this address is not yours");
    if found.Failure? {
      return Failure(found.error);
    }
    r := Success(ResOf(found.value));
  }

  /** `DeleteAddress`: after the ownership check, every row whose id matches is removed
      and nothing else changes. */
  method DeleteAddress(db: Db, ctx: Context, sql: Sql, addressId: string) returns (err: Option<Err>)
    modifies db
    ensures err.Some? ==> db.tables == old(db.tables)
    ensures ReqContext.GetTokenClaims(ctx).Failure? ==> err == Some(ReqContext.GetTokenClaims(ctx).error)
    ensures ReqContext.GetTokenClaims(ctx).Success? ==>
      var found := OwnedAddress(old(db.tables), sql, ReqContext.GetTokenClaims(ctx).value.claims, addressId,
                                "Address not found", "This address is not yours");
      (found.Failure? ==> err == Some(found.error)) &&
      (found.Success? ==> (err.None? &&
        db.tables == old(db.tables).(addresses := DeleteWhere(old(db.tables.addresses), IdMatches(sql, addressId)))))
    ensures TablesValid(old(db.tables)) ==> TablesValid(db.tables)
  {
    var token := ReqContext.GetTokenClaims(ctx);
    if token.Failure? {
      var e := FromErr(Some(token.error));
      return e;
    }
    var found := OwnedAddress(db.tables, sql, token.value.claims, addressId,
                              "Address not found", "This address is not yours");
    if found.Failure? {
      return Some(found.error);
    }
    db.tables := db.tables.(addresses := DeleteWhere(db.tables.addresses, IdMatches(sql, addressId)));
    err := None;
  }

  /** The row `UpdateAddress` saves: exactly the given fields are replaced; the id, the
      owner and the creation time are kept. */
  function MergedAddress(row: Row<Address>, input: UpdateAddressReq, now: int): (r: Row<Address>)
    ensures r.id == row.id && r.val.idUser == row.val.idUser && r.val.createdAt == row.val.createdAt
    ensures r.val.updatedAt == now
    ensures r.val.noTelp == (if input.noTelp.Some? then input.noTelp.value else row.val.noTelp)
    ensures r.val.judulAlamat == (if input.judulAlamat.Some? then input.judulAlamat.value else row.val.judulAlamat)
    ensures r.val.namaPenerima == (if input.namaPenerima.Some? then input.namaPenerima.value else row.val.namaPenerima)
    ensures r.val.detailAlamat == (if input.detailAlamat.Some? then input.detailAlamat.value else row.val.detailAlamat)
  {
    var a := row.val;
    var a1 := if input.noTelp.Some? then a.(noTelp := input.noTelp.value) else a;
    var a2 := if input.judulAlamat.Some? then a1.(judulAlamat := input.judulAlamat.value) else a1;
    var a3 := if input.namaPenerima.Some? then a2.(namaPenerima := input.namaPenerima.value) else a2;
    var a4 := if input.detailAlamat.Some? then a3.(detailAlamat := input.detailAlamat.value) else a3;
    Row(row.id, a4.(updatedAt := now))
  }

  /** `UpdateAddress`: after the ownership check (with the messages this operation
      uses), the merged row is saved. */
  method UpdateAddress(db: Db, ctx: Context, sql: Sql, input: UpdateAddressReq, addressId: string, now: int)
    returns (r: Result<Row<Address>, Err>)
    modifies db
    ensures r.Failure? ==> db.tables == old(db.tables)
    ensures ReqContext.GetTokenClaims(ctx).Failure? ==> r == Failure(ReqContext.GetTokenClaims(ctx).error)
    ensures ReqContext.GetTokenClaims(ctx).Success? ==>
      var found := OwnedAddress(old(db.tables), sql, ReqContext.GetTokenClaims(ctx).value.claims, addressId,
                                "Failed, shop not found", "Failed, this is not your shop");
      (found.Failure? ==> r == Failure(found.error)) &&
      (found.Success? ==> (r == Success(MergedAddress(found.value, input, now)) &&
        db.tables == old(db.tables).(addresses := Save(old(db.tables.addresses), r.value))))
    ensures TablesValid(old(db.tables)) ==> TablesValid(db.tables)
  {
    var token := ReqContext.GetTokenClaims(ctx);
    if token.Failure? {
      var e := FromErr(Some(token.error));
      return Failure(e.value);
    }
    var found := OwnedAddress(db.tables, sql, token.value.claims, addressId,
                              "Failed, shop not found", "Failed, this is not your shop");
    if found.Failure? {
      return Failure(found.error);
    }
    var address := found.value.val;
    if input.noTelp.Some? {
      address := address.(noTelp := input.noTelp.value);
    }
    if input.judulAlamat.Some? {
      address := address.(judulAlamat := input.judulAlamat.value);
    }
    if input.namaPenerima.Some? {
      address := address.(namaPenerima := input.namaPenerima.value);
    }
    if input.detailAlamat.Some? {
      address := address.(detailAlamat := input.detailAlamat.value);
    }
    address := address.(updatedAt := now);
    var row := Row(found.value.id, address);
    db.tables := db.tables.(addresses := Save(db.tables.addresses, row));
    r := Success(row);
  }

  /** An update with nothing given changes only the update time. */
  lemma EmptyUpdateKeepsFields(row: Row<Address>, now: int)
    ensures MergedAddress(row, UpdateAddressReq(None, None, None, None), now) == Row(row.id, row.val.(updatedAt := now))
  {
  }

  /** Applying the same update twice is the same as applying it once. */
  lemma MergeIdempotent(row: Row<Address>, input: UpdateAddressReq, now: int)
    ensures MergedAddress(MergedAddress(row, input, now), input, now) == MergedAddress(row, input, now)
  {
  }
}
