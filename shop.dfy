/** The shop service of domains/shop/service.go. */
module ShopService {
  import opened Wrappers
  import opened GoStrings
  import opened Store
  import opened Schema
  import opened ApiError
  import opened Constants
  import opened Contexts
  import ReqContext
  import FileUtil

  /** `ShopRes`; `idUser` is only filled in for some callers. */
  datatype ShopRes = ShopRes(id: int, namaToko: string, urlFoto: string, idUser: Option<int>)

  /** `PaginatedShopRes`. */
  datatype PaginatedShopRes = PaginatedShopRes(page: int, limit: int, data: seq<ShopRes>)

  /** `UpdateShopReq`: a new name and a new photo, each optional. */
  datatype UpdateShopReq = UpdateShopReq(namaToko: Option<string>, urlFoto: Option<FileUtil.FileHeader>)

  /** The public view of a shop, without its owner. */
  function PublicRes(row: Row<Toko>): (r: ShopRes)
    ensures r.id == row.id && r.namaToko == row.val.namaToko && r.urlFoto == row.val.urlFoto && r.idUser.None?
  {
    ShopRes(row.id, row.val.namaToko, row.val.urlFoto, None)
  }

  /** The view of a shop that names its owner. */
  function OwnerRes(row: Row<Toko>): (r: ShopRes)
    ensures r.id == row.id && r.namaToko == row.val.namaToko && r.urlFoto == row.val.urlFoto
    ensures r.idUser == Some(row.val.idUser)
  {
    ShopRes(row.id, row.val.namaToko, row.val.urlFoto, Some(row.val.idUser))
  }

  /** `id_user = ?` with the caller's integer id. */
  function OwnedBy(userId: int): Row<Toko> -> bool {
    (x: Row<Toko>) => x.val.idUser == userId
  }

  /** `id = ? AND id_user = ?`. */
  function IdAndOwner(sql: Sql, shopId: string, userId: int): Row<Toko> -> bool {
    (x: Row<Toko>) => IdIs(sql, x.id, shopId) && x.val.idUser == userId
  }

  /** `nama_toko LIKE ?` with the keyword wrapped in `%`. */
  function NameLike(sql: Sql, keyword: string): Row<Toko> -> bool {
    (x: Row<Toko>) => sql.like(x.val.namaToko, "%" + keyword + "%")
  }

  /** `GetMyShop`: the caller's shop with its owner, or 404 when the caller has none. */
  method GetMyShop(db: Db, ctx: Context) returns (r: Result<ShopRes, Err>)
    ensures ReqContext.GetTokenClaims(ctx).Failure? ==> r == Failure(ReqContext.GetTokenClaims(ctx).error)
    ensures ReqContext.GetTokenClaims(ctx).Success? ==>
      var found := First(db.tables.tokos.rows, OwnedBy(ReqContext.GetTokenClaims(ctx).value.claims.id));
      (found.None? ==> r == Failure(NewWarn(StatusNotFound, ["Failed, you don't have a shop"]))) &&
      (found.Some? ==> r == Success(OwnerRes(found.value)))
  {
    var token := ReqContext.GetTokenClaims(ctx);
    if token.Failure? {
      var e := FromErr(Some(token.error));
      return Failure(e.value);
    }
    var userId := token.value.claims.id;
    var found := First(db.tables.tokos.rows, OwnedBy(userId));
    if found.None? {
      return Failure(NewWarn(StatusNotFound, ["Failed, you don't have a shop"]));
    }
    r := Success(OwnerRes(found.value));
  }

  /** `GetShopByID`: the shop without its owner, or 404. */
  method GetShopByID(db: Db, sql: Sql, shopId: string) returns (r: Result<ShopRes, Err>)
    ensures var found := First(db.tables.tokos.rows, IdMatches(sql, shopId));
      (found.None? ==> r == Failure(NewWarn(StatusNotFound, ["Failed, shop not found"]))) &&
      (found.Some? ==> r == Success(PublicRes(found.value)))
  {
    var found := First(db.tables.tokos.rows, IdMatches(sql, shopId));
    if found.None? {
      return Failure(NewWarn(StatusNotFound, ["Failed, shop not found"]));
    }
    r := Success(PublicRes(found.value));
  }

  /** The row `UpdateMyShop` works on: for a non-admin id and owner must both match, so
      a foreign shop looks exactly like a missing one. */
  function ShopToUpdate(t: Tables, sql: Sql, claims: Claims, shopId: string): (r: Result<Row<Toko>, Err>)
    ensures !claims.isAdmin ==>
      (r.Success? <==> exists i :: 0 <= i < |t.tokos.rows| && IdIs(sql, t.tokos.rows[i].id, shopId) && t.tokos.rows[i].val.idUser == claims.id)
    ensures !claims.isAdmin && r.Success? ==> r.value in t.tokos.rows && r.value.val.idUser == claims.id && IdIs(sql, r.value.id, shopId)
    ensures claims.isAdmin ==>
      (r.Success? <==> exists i :: 0 <= i < |t.tokos.rows| && IdIs(sql, t.tokos.rows[i].id, shopId))
    ensures claims.isAdmin && r.Success? ==> r.value in t.tokos.rows && IdIs(sql, r.value.id, shopId)
    ensures r.Failure? ==> r.error == NewWarn(StatusNotFound,
      [if claims.isAdmin then "Failed, shop not found" else "Failed, shop not found / this is not your shop"])
  {
    if !claims.isAdmin then
      match First(t.tokos.rows, IdAndOwner(sql, shopId, claims.id))
      case None => Failure(NewWarn(StatusNotFound, ["Failed, shop not found / this is not your shop"]))
      case Some(row) => Success(row)
    else
      match First(t.tokos.rows, IdMatches(sql, shopId))
      case None => Failure(NewWarn(StatusNotFound, ["Failed, shop not found"]))
      case Some(row) => Success(row)
  }

  /** The name under which a new shop photo is stored. */
  function ShopPhotoName(shopId: nat, now: int, owner: nat): string {
    "shop_" + IntToString(shopId) + "_" + IntToString(now / 1000000000) + "_" + IntToString(owner)
  }

  /** `filepath.Join("uploads", "shops", filename)` for a shop's photo. */
  function ShopPhotoPath(row: Row<Toko>, now: int): string {
    "uploads/shops/" + ShopPhotoName(row.id, now, row.val.idUser)
  }

  /** The row `UpdateMyShop` saves when every file step succeeds: the name is replaced
      only when one is given, the photo url only when a photo is given. */
  function UpdatedShop(row: Row<Toko>, input: UpdateShopReq, now: int): (r: Row<Toko>)
    ensures r.id == row.id && r.val.idUser == row.val.idUser && r.val.createdAt == row.val.createdAt
    ensures r.val.updatedAt == now
    ensures r.val.namaToko == (if input.namaToko.Some? then input.namaToko.value else row.val.namaToko)
    ensures input.urlFoto.None? ==> r.val.urlFoto == row.val.urlFoto
    ensures input.urlFoto.Some? ==> r.val.urlFoto == "/" + ShopPhotoPath(row, now)
  {
    var withName := if input.namaToko.Some? then row.val.(namaToko := input.namaToko.value) else row.val;
    var withPhoto := if input.urlFoto.Some? then withName.(urlFoto := "/" + ShopPhotoPath(row, now)) else withName;
    Row(row.id, withPhoto.(updatedAt := now))
  }

  /** How a call ends: it returns a result, or it panics with the given value, which the
      `Recover` middleware then answers. */
  datatype Outcome<T> = Returned(result: Result<T, Err>) | Panicked(value: string)

  /** The photo step of `UpdateMyShop`: the old file, if the shop has one, is removed (a
      missing file is fine, any other failure is returned as is); the fiber context is
      then taken from the request context with a type assertion that panics when none is
      stored; the upload is saved under `ShopPhotoName`, a failure there becoming a 500
      error as `FromErr` makes it. On success the result is the new url. */
  function PhotoStep(fs: FileUtil.FileSystem, ctx: Context, row: Row<Toko>, file: FileUtil.FileHeader, now: int): (r: Outcome<string>)
    ensures r.Returned? && r.result.Success? ==> r.result.value == "/" + ShopPhotoPath(row, now)
    ensures r.Returned? && r.result.Success? <==>
      (row.val.urlFoto == "" || !fs.remove("." + row.val.urlFoto).RemoveFailed?) &&
      AsFiberCtx(Value(ctx, ReqContext.FiberCtxKey)).Success? &&
      fs.saveFile(file, ShopPhotoPath(row, now)).None?
    ensures r.Panicked? <==>
      (row.val.urlFoto == "" || !fs.remove("." + row.val.urlFoto).RemoveFailed?) &&
      AsFiberCtx(Value(ctx, ReqContext.FiberCtxKey)).Failure?
    ensures r.Panicked? ==> r.value == AsFiberCtx(Value(ctx, ReqContext.FiberCtxKey)).error
  {
    var removed := if row.val.urlFoto != "" then fs.remove("." + row.val.urlFoto) else FileUtil.Removed;
    var savePath := ShopPhotoPath(row, now);
    if removed.RemoveFailed? then Returned(Failure(Plain("failed to remove old photo: " + removed.text)))
    else match AsFiberCtx(Value(ctx, ReqContext.FiberCtxKey))
      case Failure(panic) => Panicked(panic)
      case Success(_) =>
        match fs.saveFile(file, savePath)
        case Some(text) => Returned(Failure(Error(StatusInternalServerError, Plain(text))))
        case None => Returned(Success("/" + savePath))
  }

  /** `UpdateMyShop`: finds the shop (see `ShopToUpdate`), replaces the name when one is
      given and the photo when one is given (see `PhotoStep`), and saves the row. A
      failure or a panic leaves the tables unchanged. */
  method UpdateMyShop(db: Db, ctx: Context, sql: Sql, fs: FileUtil.FileSystem, input: UpdateShopReq, shopId: string, now: int)
    returns (r: Outcome<Row<Toko>>)
    modifies db
    ensures !(r.Returned? && r.result.Success?) ==> db.tables == old(db.tables)
    ensures ReqContext.GetTokenClaims(ctx).Failure? ==> r == Returned(Failure(ReqContext.GetTokenClaims(ctx).error))
    ensures ReqContext.GetTokenClaims(ctx).Success? ==>
      var found := ShopToUpdate(old(db.tables), sql, ReqContext.GetTokenClaims(ctx).value.claims, shopId);
      (found.Failure? ==> r == Returned(Failure(found.error))) &&
      (found.Success? && input.urlFoto.Some? && PhotoStep(fs, ctx, found.value, input.urlFoto.value, now).Panicked? ==>
        r == Panicked(PhotoStep(fs, ctx, found.value, input.urlFoto.value, now).value)) &&
      (found.Success? && input.urlFoto.Some? && PhotoStep(fs, ctx, found.value, input.urlFoto.value, now).Returned? &&
       PhotoStep(fs, ctx, found.value, input.urlFoto.value, now).result.Failure? ==>
        r == Returned(Failure(PhotoStep(fs, ctx, found.value, input.urlFoto.value, now).result.error))) &&
      (found.Success? && (input.urlFoto.None? || PhotoStep(fs, ctx, found.value, input.urlFoto.value, now) == Returned(Success("/" + ShopPhotoPath(found.value, now)))) ==>
        r == Returned(Success(UpdatedShop(found.value, input, now))) &&
        db.tables == old(db.tables).(tokos := Save(old(db.tables.tokos), r.result.value)))
    ensures TablesValid(old(db.tables)) ==> TablesValid(db.tables)
  {
    var token := ReqContext.GetTokenClaims(ctx);
    if token.Failure? {
      var e := FromErr(Some(token.error));
      return Returned(Failure(e.value));
    }
    var found := ShopToUpdate(db.tables, sql, token.value.claims, shopId);
    if found.Failure? {
      return Returned(Failure(found.error));
    }
    var shop := found.value.val;
    if input.namaToko.Some? {
      shop := shop.(namaToko := input.namaToko.value);
    }
    if input.urlFoto.Some? {
      var step := PhotoStep(fs, ctx, found.value, input.urlFoto.value, now);
      if step.Panicked? {
        return Panicked(step.value);
      }
      if step.result.Failure? {
        return Returned(Failure(step.result.error));
      }
      shop := shop.(urlFoto := step.result.value);
    }
    shop := shop.(updatedAt := now);
    var row := Row(found.value.id, shop);
    db.tables := db.tables.(tokos := Save(db.tables.tokos, row));
    r := Returned(Success(row));
  }

  /** A request context without a fiber context makes every photo update that gets past
      the old file's removal panic with Go's nil type-assertion error, before anything is
      saved. */
  lemma PhotoWithoutFiberCtxPanics(fs: FileUtil.FileSystem, ctx: Context, row: Row<Toko>, file: FileUtil.FileHeader, now: int)
    requires Value(ctx, ReqContext.FiberCtxKey).None?
    requires row.val.urlFoto == "" || !fs.remove("." + row.val.urlFoto).RemoveFailed?
    ensures PhotoStep(fs, ctx, row, file, now) == Panicked(NilFiberCtxPanic)
  {
  }

  /** The shops `GetAllShop` lists: optionally those whose name is like the keyword,
      ordered, then windowed. */
  function ShopWindow(t: Tables, sql: Sql, filter: FilterReq, order: (seq<Row<Toko>>, string) -> seq<Row<Toko>>): (r: seq<Row<Toko>>)
    requires ValidFilter(filter)
  {
    var matching := if filter.keyword != "" then Where(t.tokos.rows, NameLike(sql, filter.keyword)) else t.tokos.rows;
    Window(order(matching, filter.orderBy + " " + filter.sortOrder), Skipped(filter), filter.limit)
  }

  /** Every listed shop is a stored shop whose name is like the keyword, if one was
      given, and there are at most `limit` of them. */
  lemma ShopWindowMatches(t: Tables, sql: Sql, filter: FilterReq, order: (seq<Row<Toko>>, string) -> seq<Row<Toko>>)
    requires ValidFilter(filter) && Reorders(order)
    ensures var w := ShopWindow(t, sql, filter, order);
      |w| <= filter.limit &&
      forall i :: 0 <= i < |w| ==> w[i] in t.tokos.rows && (filter.keyword != "" ==> NameLike(sql, filter.keyword)(w[i]))
  {
    var matching := if filter.keyword != "" then Where(t.tokos.rows, NameLike(sql, filter.keyword)) else t.tokos.rows;
    var clause := filter.orderBy + " " + filter.sortOrder;
    var ordered := order(matching, clause);
    var w := ShopWindow(t, sql, filter, order);
    forall i | 0 <= i < |w|
      ensures w[i] in t.tokos.rows && (filter.keyword != "" ==> NameLike(sql, filter.keyword)(w[i]))
    {
      assert w[i] in ordered;
      ReorderedFrom(order, matching, clause, w[i]);
      var k :| 0 <= k < |matching| && matching[k] == w[i];
    }
  }

  /** `GetAllShop`: the window of `ShopWindow`, each shop naming its owner exactly when
      the caller is an admin; page and limit echo the filter. */
  method GetAllShop(db: Db, ctx: Context, sql: Sql, filter: FilterReq, order: (seq<Row<Toko>>, string) -> seq<Row<Toko>>)
    returns (r: Result<PaginatedShopRes, Err>)
    requires ValidFilter(filter)
    ensures ReqContext.GetTokenClaims(ctx).Failure? <==> r.Failure?
    ensures r.Failure? ==> r == Failure(ReqContext.GetTokenClaims(ctx).error)
    ensures r.Success? ==>
      var isAdmin := ReqContext.GetTokenClaims(ctx).value.claims.isAdmin;
      var w := ShopWindow(db.tables, sql, filter, order);
      r.value.page == filter.page && r.value.limit == filter.limit &&
      |r.value.data| == |w| &&
      forall i :: 0 <= i < |w| ==>
        r.value.data[i] == (if isAdmin then OwnerRes(w[i]) else PublicRes(w[i])) &&
        (r.value.data[i].idUser.Some? <==> isAdmin)
  {
    var token := ReqContext.GetTokenClaims(ctx);
    if token.Failure? {
      var e := FromErr(Some(token.error));
      return Failure(e.value);
    }
    var isAdmin := token.value.claims.isAdmin;
    var shops := ShopWindow(db.tables, sql, filter, order);
    var result := ShopResponses(shops, isAdmin);
    r := Success(PaginatedShopRes(filter.page, filter.limit, result));
  }

  /** The loops of `GetAllShop`: one response per shop, in order, with the owner only
      for an admin. */
  method ShopResponses(shops: seq<Row<Toko>>, isAdmin: bool) returns (result: seq<ShopRes>)
    ensures |result| == |shops|
    ensures forall i :: 0 <= i < |shops| ==> result[i] == (if isAdmin then OwnerRes(shops[i]) else PublicRes(shops[i]))
  {
    result := [];
    var i := 0;
    if !isAdmin {
      while i < |shops|
        invariant 0 <= i <= |shops| && |result| == i
        invariant forall k :: 0 <= k < i ==> result[k] == PublicRes(shops[k])
      {
        result := result + [PublicRes(shops[i])];
        i := i + 1;
      }
    } else {
      while i < |shops|
        invariant 0 <= i <= |shops| && |result| == i
        invariant forall k :: 0 <= k < i ==> result[k] == OwnerRes(shops[k])
      {
        result := result + [OwnerRes(shops[i])];
        i := i + 1;
      }
    }
  }
}
