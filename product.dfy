/** The product service of domains/product/service.go. */
module ProductService {
  import opened Wrappers
  import opened GoStrings
  import opened Store
  import opened Schema
  import opened ApiError
  import opened Constants
  import opened Contexts
  import ReqContext
  import FileUtil
  import ShopService
  import CategoryService

  /** `ProductReq`: a new product and its uploaded photos. */
  datatype ProductReq = ProductReq(
    namaProduk: string, slug: Option<string>, idCategory: nat, hargaReseller: string,
    hargaKonsumen: string, stok: int, deskripsi: string, photos: seq<FileUtil.FileHeader>)

  /** `UpdateProductReq`: every field optional; `photos` absent keeps the stored photos. */
  datatype UpdateProductReq = UpdateProductReq(
    namaProduk: Option<string>, slug: Option<string>, idCategory: Option<int>,
    hargaReseller: Option<string>, hargaKonsumen: Option<string>, stok: Option<int>,
    deskripsi: Option<string>, photos: Option<seq<FileUtil.FileHeader>>)

  /** `GetProductReq`: the listing metadata and the optional product filters. */
  datatype GetProductReq = GetProductReq(
    filter: FilterReq, categoryId: Option<nat>, tokoId: Option<nat>,
    minHarga: Option<int>, maxHarga: Option<int>)

  /** `ProductRes`; each optional field is omitted from the JSON when absent. */
  datatype ProductRes = ProductRes(
    id: int, namaProduk: Option<string>, slug: Option<string>, idCategory: Option<nat>,
    hargaReseller: Option<string>, hargaKonsumen: Option<string>, stok: Option<int>,
    deskripsi: Option<string>, shop: Option<ShopService.ShopRes>,
    category: Option<CategoryService.CategoryRes>, photos: seq<string>)

  /** The short response of the create and update calls: id and name only. */
  function Created(id: int, name: string): (r: ProductRes)
    ensures r.id == id && r.namaProduk == Some(name)
    ensures r.slug.None? && r.idCategory.None? && r.hargaReseller.None? && r.hargaKonsumen.None?
    ensures r.stok.None? && r.deskripsi.None? && r.shop.None? && r.category.None? && r.photos == []
  {
    ProductRes(id, Some(name), None, None, None, None, None, None, None, None, [])
  }

  /** `id_toko = ? AND id = ?`. */
  function InShop(sql: Sql, shopId: nat, productId: string): Row<Product> -> bool {
    (x: Row<Product>) => x.val.idToko == shopId && IdIs(sql, x.id, productId)
  }

  /** `id_produk = ?`: the photos of one product. */
  function PhotoOf(productId: int): Row<Photo> -> bool {
    (x: Row<Photo>) => x.val.idProduk == productId
  }

  /** The directory product photos are written to. */
  const PhotoDir := "uploads/products"

  /** The stored name of an upload: the media name of the product id and the clock
      reading, followed by the upload's extension. */
  function PhotoName(productId: nat, file: FileUtil.FileHeader, nanos: int): string {
    FileUtil.GenerateMediaName(IntToString(productId), nanos) + FileUtil.Ext(file.filename)
  }

  /** Why storing an upload failed: the directory could not be made, or `SaveMedia`
      failed with its own error. */
  datatype UploadFailure = MkdirFailed(text: string) | SaveFailed(err: Err)

  /** Storing one upload: make the directory, save the file under its new name, and
      describe it as a photo row of the product with a url under "/uploads/products/". */
  function UploadStep(fs: FileUtil.FileSystem, productId: nat, file: FileUtil.FileHeader, nanos: int, now: int)
    : (r: Result<Photo, UploadFailure>)
    ensures fs.mkdirAll(PhotoDir).Some? ==> r == Failure(MkdirFailed(fs.mkdirAll(PhotoDir).value))
    ensures fs.mkdirAll(PhotoDir).None? ==>
      var saved := FileUtil.SaveMedia(fs, file, PhotoDir + "/" + PhotoName(productId, file, nanos));
      (saved.Some? ==> r == Failure(SaveFailed(saved.value))) &&
      (saved.None? ==> r.Success?)
    ensures r.Success? ==>
      r.value.idProduk == productId && HasPrefix(r.value.url, "/uploads/products/") &&
      r.value.url == "/uploads/products/" + PhotoName(productId, file, nanos) &&
      r.value.createdAt == now && r.value.updatedAt == now
  {
    var name := PhotoName(productId, file, nanos);
    if fs.mkdirAll(PhotoDir).Some? then Failure(MkdirFailed(fs.mkdirAll(PhotoDir).value))
    else
      var saved := FileUtil.SaveMedia(fs, file, PhotoDir + "/" + name);
      if saved.Some? then Failure(SaveFailed(saved.value))
      else Success(Photo(productId, "/uploads/products/" + name, now, now))
  }

  /** The outcome of storing each upload; `clock(i)` is the clock reading taken for
      upload `i`. */
  function UploadSteps(fs: FileUtil.FileSystem, productId: nat, files: seq<FileUtil.FileHeader>, clock: nat -> int, now: int)
    : (r: seq<Result<Photo, UploadFailure>>)
    ensures |r| == |files| && forall i :: 0 <= i < |files| ==> r[i] == UploadStep(fs, productId, files[i], clock(i), now)
  {
    seq(|files|, i requires 0 <= i < |files| => UploadStep(fs, productId, files[i], clock(i), now))
  }

  /** The photos of the uploads, or the failure of the first upload that failed. */
  function Uploads(fs: FileUtil.FileSystem, productId: nat, files: seq<FileUtil.FileHeader>, clock: nat -> int, now: int)
    : Result<seq<Photo>, UploadFailure>
  {
    Collect(UploadSteps(fs, productId, files, clock, now))
  }

  /** The uploads succeed exactly when each one does, and then give one photo per upload,
      in upload order, belonging to the product and served under "/uploads/products/";
      otherwise they fail as the first failing upload did. */
  lemma UploadedPhotos(fs: FileUtil.FileSystem, productId: nat, files: seq<FileUtil.FileHeader>, clock: nat -> int, now: int)
    ensures var r := Uploads(fs, productId, files, clock, now);
      (r.Success? <==> forall k :: 0 <= k < |files| ==> UploadStep(fs, productId, files[k], clock(k), now).Success?) &&
      (r.Success? ==> (|r.value| == |files| &&
        forall k :: 0 <= k < |files| ==>
          r.value[k] == UploadStep(fs, productId, files[k], clock(k), now).value &&
          r.value[k].idProduk == productId && HasPrefix(r.value[k].url, "/uploads/products/"))) &&
      (r.Failure? ==>
        exists k :: 0 <= k < |files| && UploadStep(fs, productId, files[k], clock(k), now) == Failure(r.error))
  {
    CollectShape(UploadSteps(fs, productId, files, clock, now));
  }

  /** The photo loop of `AddProduct` and `UpdateProduct`. */
  method UploadPhotos(fs: FileUtil.FileSystem, productId: nat, files: seq<FileUtil.FileHeader>, clock: nat -> int, now: int)
    returns (r: Result<seq<Photo>, UploadFailure>)
    ensures r == Uploads(fs, productId, files, clock, now)
  {
    ghost var steps := UploadSteps(fs, productId, files, clock, now);
    var photos: seq<Photo> := [];
    var i := 0;
    while i < |files|
      invariant 0 <= i <= |files|
      invariant Collect(steps[..i]) == Success(photos)
    {
      var step := UploadStep(fs, productId, files[i], clock(i), now);
      CollectSnoc(steps, i);
      if step.Failure? {
        CollectStaysFailed(steps, i + 1);
        return Failure(step.error);
      }
      photos := photos + [step.value];
      i := i + 1;
    }
    assert steps[..i] == steps;
    r := Success(photos);
  }

  /** The product `AddProduct` creates: in the caller's shop, with the slug defaulting to
      "" and the request's other fields as given. */
  function NewProduct(shop: Row<Toko>, input: ProductReq, now: int): (p: Product)
    ensures p.idToko == shop.id && p.namaProduk == input.namaProduk
    ensures p.slug == (if input.slug.Some? then input.slug.value else "")
    ensures p.idCategory == input.idCategory && p.hargaReseller == input.hargaReseller
    ensures p.hargaKonsumen == input.hargaKonsumen && p.stok == input.stok && p.deskripsi == input.deskripsi
    ensures p.createdAt == now && p.updatedAt == now
  {
    Product(shop.id, input.namaProduk, input.idCategory, if input.slug.Some? then input.slug.value else "",
            input.hargaReseller, input.hargaKonsumen, input.stok, input.deskripsi, now, now)
  }

  /** The error `AddProduct` returns for a failed upload. */
  function AddFailure(f: UploadFailure): Err {
    match f
    case MkdirFailed(text) => NewWarn(StatusNotFound, ["failed to create directory: " + text])
    case SaveFailed(err) => err
  }

  /** `AddProduct`: the caller must own a shop (404 "Failed, shop not found"); the
      product of `NewProduct` and one photo per upload are written in one transaction, so
      a failed upload leaves the tables unchanged. The claims error is returned as is. */
  method AddProduct(db: Db, ctx: Context, fs: FileUtil.FileSystem, input: ProductReq, now: int, clock: nat -> int)
    returns (r: Result<ProductRes, Err>)
    modifies db
    ensures r.Failure? ==> db.tables == old(db.tables)
    ensures ReqContext.GetTokenClaims(ctx).Failure? ==> r == Failure(ReqContext.GetTokenClaims(ctx).error)
    ensures ReqContext.GetTokenClaims(ctx).Success? ==>
      var shop := First(old(db.tables.tokos.rows), ShopService.OwnedBy(ReqContext.GetTokenClaims(ctx).value.claims.id));
      (shop.None? ==> r == Failure(NewWarn(StatusNotFound, ["Failed, shop not found"]))) &&
      (shop.Some? ==>
        var pid := old(db.tables.products.nextId);
        var up := Uploads(fs, pid, input.photos, clock, now);
        (up.Failure? ==> r == Failure(AddFailure(up.error))) &&
        (up.Success? ==>
          r == Success(Created(pid, input.namaProduk)) &&
          db.tables == old(db.tables).(
            products := Insert(old(db.tables.products), NewProduct(shop.value, input, now)),
            photos := InsertAll(old(db.tables.photos), up.value))))
    ensures TablesValid(old(db.tables)) ==> TablesValid(db.tables)
  {
    var token := ReqContext.GetTokenClaims(ctx);
    if token.Failure? {
      return Failure(token.error);
    }
    var userId := token.value.claims.id;
    var shop := First(db.tables.tokos.rows, ShopService.OwnedBy(userId));
    if shop.None? {
      return Failure(NewWarn(StatusNotFound, ["Failed, shop not found"]));
    }
    var tx := db.tables;
    var product := NewProduct(shop.value, input, now);
    var productId := tx.products.nextId;
    tx := tx.(products := Insert(tx.products, product));
    var photos := UploadPhotos(fs, productId, input.photos, clock, now);
    if photos.Failure? {
      return Failure(AddFailure(photos.error));
    }
    if |photos.value| > 0 {
      tx := tx.(photos := InsertAll(tx.photos, photos.value));
    }
    db.tables := tx;
    r := Success(Created(productId, product.namaProduk));
  }

  /** The urls of a product's photos, in table order. */
  method PhotoUrls(photos: seq<Row<Photo>>, productId: nat) returns (urls: seq<string>)
    ensures var own := Where(photos, PhotoOf(productId));
      |urls| == |own| && forall k :: 0 <= k < |own| ==> urls[k] == own[k].val.url
  {
    var own := Where(photos, PhotoOf(productId));
    urls := [];
    var i := 0;
    while i < |own|
      invariant 0 <= i <= |own| && |urls| == i
      invariant forall k :: 0 <= k < i ==> urls[k] == own[k].val.url
    {
      urls := urls + [own[i].val.url];
      i := i + 1;
    }
  }

  /** The answer of `GetProductByID` for `productId` over the tables `t`: a missing
      product, shop or category each gives its own 404; otherwise the product with its
      shop (without owner), its category and its photo urls. The category id itself is
      not in the response. */
  ghost predicate LookedUp(t: Tables, sql: Sql, productId: string, r: Result<ProductRes, Err>) {
    var product := First(t.products.rows, IdMatches(sql, productId));
    (product.None? ==> r == Failure(NewWarn(StatusNotFound, ["Failed, product not found"]))) &&
    (product.Some? ==>
      var shop := First(t.tokos.rows, ById(product.value.val.idToko));
      var category := First(t.categories.rows, ById(product.value.val.idCategory));
      (shop.None? ==> r == Failure(NewWarn(StatusNotFound, ["Failed, shop not found"]))) &&
      (shop.Some? && category.None? ==> r == Failure(NewWarn(StatusNotFound, ["Failed, category not found"]))) &&
      (shop.Some? && category.Some? ==> (r.Success? &&
        var p := product.value;
        var own := Where(t.photos.rows, PhotoOf(p.id));
        r.value.id == p.id && r.value.namaProduk == Some(p.val.namaProduk) && r.value.slug == Some(p.val.slug) &&
        r.value.idCategory.None? && r.value.hargaReseller == Some(p.val.hargaReseller) &&
        r.value.hargaKonsumen == Some(p.val.hargaKonsumen) && r.value.stok == Some(p.val.stok) &&
        r.value.deskripsi == Some(p.val.deskripsi) &&
        r.value.shop == Some(ShopService.PublicRes(shop.value)) &&
        r.value.category == Some(CategoryService.ResOf(category.value)) &&
        |r.value.photos| == |own| && forall k :: 0 <= k < |own| ==> r.value.photos[k] == own[k].val.url)))
  }

  /** `GetProductByID`: the answer `LookedUp` describes, with nothing changed. */
  method GetProductByID(db: Db, sql: Sql, productId: string) returns (r: Result<ProductRes, Err>)
    ensures LookedUp(db.tables, sql, productId, r)
  {
    var product := First(db.tables.products.rows, IdMatches(sql, productId));
    if product.None? {
      return Failure(NewWarn(StatusNotFound, ["Failed, product not found"]));
    }
    var p := product.value;
    var shop := First(db.tables.tokos.rows, ById(p.val.idToko));
    if shop.None? {
      return Failure(NewWarn(StatusNotFound, ["Failed, shop not found"]));
    }
    var category := First(db.tables.categories.rows, ById(p.val.idCategory));
    if category.None? {
      return Failure(NewWarn(StatusNotFound, ["Failed, category not found"]));
    }
    var urls := PhotoUrls(db.tables.photos.rows, p.id);
    r := Success(ProductRes(p.id, Some(p.val.namaProduk), Some(p.val.slug), None, Some(p.val.hargaReseller),
                            Some(p.val.hargaKonsumen), Some(p.val.stok), Some(p.val.deskripsi),
                            Some(ShopService.PublicRes(shop.value)), Some(CategoryService.ResOf(category.value)), urls));
  }

  /** The outcome of `DeleteProduct`, from the tables `t0` to `t1`: a non-admin without
      a shop gets a 500 error; a missing product is 404 "Product not found"; a non-admin
      deleting a product of another shop gets 403 "This product is not yours"; otherwise
      the product and, through the cascading foreign key, its photos are removed. An
      admin may delete any product. A failure changes nothing. */
  ghost predicate Deleted(t0: Tables, t1: Tables, ctx: Context, sql: Sql, productId: string, err: Option<Err>) {
    (err.Some? ==> t1 == t0) &&
    (ReqContext.GetTokenClaims(ctx).Failure? ==> err == Some(ReqContext.GetTokenClaims(ctx).error)) &&
    (ReqContext.GetTokenClaims(ctx).Success? ==>
      var claims := ReqContext.GetTokenClaims(ctx).value.claims;
      var shop := First(t0.tokos.rows, ShopService.OwnedBy(claims.id));
      var found := First(t0.products.rows, IdMatches(sql, productId));
      (!claims.isAdmin && shop.None? ==> err == Some(Api(ApiErrors(StatusInternalServerError, ErrorLevel, ["record not found"])))) &&
      ((claims.isAdmin || shop.Some?) && found.None? ==> err == Some(NewWarn(StatusNotFound, ["Product not found"]))) &&
      (!claims.isAdmin && shop.Some? && found.Some? && found.value.val.idToko != shop.value.id ==>
        err == Some(NewWarn(StatusForbidden, ["This product is not yours"]))) &&
      (found.Some? && (claims.isAdmin || (shop.Some? && found.value.val.idToko == shop.value.id)) ==>
        err.None? &&
        t1 == t0.(
          products := DeleteWhere(t0.products, ById(found.value.id)),
          photos := DeleteWhere(t0.photos, PhotoOf(found.value.id)))))
  }

  /** `DeleteProduct`: the outcome `Deleted` describes. */
  method DeleteProduct(db: Db, ctx: Context, sql: Sql, productId: string) returns (err: Option<Err>)
    modifies db
    ensures Deleted(old(db.tables), db.tables, ctx, sql, productId, err)
    ensures TablesValid(old(db.tables)) ==> TablesValid(db.tables)
  {
    var token := ReqContext.GetTokenClaims(ctx);
    if token.Failure? {
      var e := FromErr(Some(token.error));
      return e;
    }
    var userId := token.value.claims.id;
    var isAdmin := token.value.claims.isAdmin;
    var shop: Option<Row<Toko>> := None;
    if !isAdmin {
      shop := First(db.tables.tokos.rows, ShopService.OwnedBy(userId));
      if shop.None? {
        var e := FromErr(Some(RecordNotFound));
        return e;
      }
    }
    var found := First(db.tables.products.rows, IdMatches(sql, productId));
    if found.None? {
      return Some(NewWarn(StatusNotFound, ["Product not found"]));
    }
    if !isAdmin && found.value.val.idToko != shop.value.id {
      return Some(NewWarn(StatusForbidden, ["This product is not yours"]));
    }
    var product := found.value;
    db.tables := db.tables.(
      products := DeleteWhere(db.tables.products, ById(product.id)),
      photos := DeleteWhere(db.tables.photos, PhotoOf(product.id)));
    err := None;
  }

  /** The product `UpdateProduct` saves: each given field replaces the stored one (a
      category id converted with Go's `uint`, so modulo 2^64), the others are kept, and
      the id, shop and creation time never change. */
  function MergedProduct(row: Row<Product>, input: UpdateProductReq, now: int): (r: Row<Product>)
    ensures r.id == row.id && r.val.idToko == row.val.idToko && r.val.createdAt == row.val.createdAt
    ensures r.val.updatedAt == now
    ensures r.val.namaProduk == (if input.namaProduk.Some? then input.namaProduk.value else row.val.namaProduk)
    ensures r.val.slug == (if input.slug.Some? then input.slug.value else row.val.slug)
    ensures r.val.idCategory == (if input.idCategory.Some? then Wrap64(input.idCategory.value) else row.val.idCategory)
    ensures r.val.hargaReseller == (if input.hargaReseller.Some? then input.hargaReseller.value else row.val.hargaReseller)
    ensures r.val.hargaKonsumen == (if input.hargaKonsumen.Some? then input.hargaKonsumen.value else row.val.hargaKonsumen)
    ensures r.val.stok == (if input.stok.Some? then input.stok.value else row.val.stok)
    ensures r.val.deskripsi == (if input.deskripsi.Some? then input.deskripsi.value else row.val.deskripsi)
  {
    var p := row.val;
    var p := if input.namaProduk.Some? then p.(namaProduk := input.namaProduk.value) else p;
    var p := if input.slug.Some? then p.(slug := input.slug.value) else p;
    var p := if input.idCategory.Some? then p.(idCategory := Wrap64(input.idCategory.value)) else p;
    var p := if input.hargaReseller.Some? then p.(hargaReseller := input.hargaReseller.value) else p;
    var p := if input.hargaKonsumen.Some? then p.(hargaKonsumen := input.hargaKonsumen.value) else p;
    var p := if input.stok.Some? then p.(stok := input.stok.value) else p;
    var p := if input.deskripsi.Some? then p.(deskripsi := input.deskripsi.value) else p;
    Row(row.id, p.(updatedAt := now))
  }

  /** An update that gives no field changes nothing but the update time. */
  lemma EmptyUpdateKeepsProduct(row: Row<Product>, now: int)
    ensures MergedProduct(row, UpdateProductReq(None, None, None, None, None, None, None, None), now) ==
      Row(row.id, row.val.(updatedAt := now))
  {
  }

  /** The text of the first old photo whose removal failed with an error other than
      "does not exist", scanning in order. */
  function FirstRemoveFailure(fs: FileUtil.FileSystem, photos: seq<Row<Photo>>): (r: Option<string>)
    ensures r.None? <==> forall k :: 0 <= k < |photos| ==> !fs.remove("." + photos[k].val.url).RemoveFailed?
    decreases |photos|
  {
    if |photos| == 0 then None
    else
      var removed := fs.remove("." + photos[0].val.url);
      if removed.RemoveFailed? then Some(removed.text)
      else
        assert forall k :: 1 <= k < |photos| ==> photos[1..][k - 1] == photos[k];
        FirstRemoveFailure(fs, photos[1..])
  }

  /** Skipping removals that did not fail does not change the first failure. */
  lemma {:induction false} FirstRemoveFailureFrom(fs: FileUtil.FileSystem, photos: seq<Row<Photo>>, i: nat)
    requires i <= |photos|
    requires forall k :: 0 <= k < i ==> !fs.remove("." + photos[k].val.url).RemoveFailed?
    ensures FirstRemoveFailure(fs, photos) == FirstRemoveFailure(fs, photos[i..])
    decreases i
  {
    if i > 0 {
      assert photos[1..][i - 1..] == photos[i..];
      FirstRemoveFailureFrom(fs, photos[1..], i - 1);
    }
  }

  /** The loop of `UpdateProduct` removing the old photo files; a file already gone is
      not an error. */
  method RemoveOldPhotos(fs: FileUtil.FileSystem, photos: seq<Row<Photo>>) returns (err: Option<string>)
    ensures err == FirstRemoveFailure(fs, photos)
  {
    var i := 0;
    while i < |photos|
      invariant 0 <= i <= |photos|
      invariant forall k :: 0 <= k < i ==> !fs.remove("." + photos[k].val.url).RemoveFailed?
    {
      var removed := fs.remove("." + photos[i].val.url);
      if removed.RemoveFailed? {
        FirstRemoveFailureFrom(fs, photos, i);
        return Some(removed.text);
      }
      i := i + 1;
    }
    FirstRemoveFailureFrom(fs, photos, i);
    err := None;
  }

  /** The error `UpdateProduct` returns for a failed upload. */
  function UpdateFailure(f: UploadFailure): Err {
    match f
    case MkdirFailed(text) => Plain("failed to create directory: " + text)
    case SaveFailed(err) => err
  }

  /** The photo rows after `UpdateProduct` replaced a product's photos. */
  function ReplacedPhotos(photos: Table<Photo>, productId: nat, uploads: seq<Photo>): Table<Photo> {
    InsertAll(DeleteWhere(photos, PhotoOf(productId)), uploads)
  }

  /** A photo row after replacing is either a new photo of the product or an old photo
      of another product. */
  lemma ReplacedPhoto(photos: Table<Photo>, productId: nat, uploads: seq<Photo>, x: Row<Photo>)
    requires forall k :: 0 <= k < |uploads| ==> uploads[k].idProduk == productId
    requires x in ReplacedPhotos(photos, productId, uploads).rows
    ensures PhotoOf(productId)(x) ==> x.val in uploads
    ensures !PhotoOf(productId)(x) ==> x in photos.rows
  {
    var kept := DeleteWhere(photos, PhotoOf(productId));
    InsertedRow(kept, uploads, x);
    if x in kept.rows {
      KeptRow(photos, PhotoOf(productId), x);
    } else {
      assert x.val in uploads;
      assert exists k :: 0 <= k < |uploads| && x == Row(photos.nextId + k, uploads[k]);
    }
  }

  /** Replacing keeps every photo of another product. */
  lemma ReplacedKeepsOthers(photos: Table<Photo>, productId: nat, uploads: seq<Photo>, x: Row<Photo>)
    requires x in photos.rows && !PhotoOf(productId)(x)
    ensures x in ReplacedPhotos(photos, productId, uploads).rows
  {
    var kept := DeleteWhere(photos, PhotoOf(productId));
    var i :| 0 <= i < |photos.rows| && photos.rows[i] == x;
    assert photos.rows[i] in kept.rows;
    InsertAllKeeps(kept, uploads);
  }

  /** After replacing, every photo of the product is a new one and every other photo
      was there before. */
  lemma ReplacedPhotosAreNew(photos: Table<Photo>, productId: nat, uploads: seq<Photo>)
    requires forall k :: 0 <= k < |uploads| ==> uploads[k].idProduk == productId
    ensures forall x :: x in ReplacedPhotos(photos, productId, uploads).rows && PhotoOf(productId)(x) ==> x.val in uploads
    ensures forall x :: x in ReplacedPhotos(photos, productId, uploads).rows && !PhotoOf(productId)(x) ==> x in photos.rows
  {
    forall x | x in ReplacedPhotos(photos, productId, uploads).rows
      ensures PhotoOf(productId)(x) ==> x.val in uploads
      ensures !PhotoOf(productId)(x) ==> x in photos.rows
    {
      ReplacedPhoto(photos, productId, uploads, x);
    }
  }

  /** After replacing, every new photo is stored under the next ids. */
  lemma ReplacedPhotosKeep(photos: Table<Photo>, productId: nat, uploads: seq<Photo>)
    ensures forall k :: 0 <= k < |uploads| ==> Row(photos.nextId + k, uploads[k]) in ReplacedPhotos(photos, productId, uploads).rows
  {
    var kept := DeleteWhere(photos, PhotoOf(productId));
    InsertAllKeeps(kept, uploads);
  }

  /** The outcome of `UpdateProduct`, from the tables `t0` to `t1`: only a product of
      the caller's own shop is found (no admin bypass), and a missing shop or product is
      a 404 with nothing changed. The fields of `MergedProduct` are saved; when photos are given, the old photo files are
      removed, the old photo rows deleted and the uploads stored, all in one
      transaction; when they are absent the photos are untouched. */
  ghost predicate Updated(t0: Tables, t1: Tables, ctx: Context, sql: Sql, fs: FileUtil.FileSystem,
                          input: UpdateProductReq, productId: string, now: int, clock: nat -> int,
                          r: Result<ProductRes, Err>) {
    (r.Failure? ==> t1 == t0) &&
    (ReqContext.GetTokenClaims(ctx).Failure? ==> r == Failure(ReqContext.GetTokenClaims(ctx).error)) &&
    (ReqContext.GetTokenClaims(ctx).Success? ==>
      var shop := First(t0.tokos.rows, ShopService.OwnedBy(ReqContext.GetTokenClaims(ctx).value.claims.id));
      (shop.None? ==> r == Failure(NewWarn(StatusNotFound, ["Failed, shop not found"]))) &&
      (shop.Some? ==>
        var found := First(t0.products.rows, InShop(sql, shop.value.id, productId));
        (found.None? ==> r == Failure(NewWarn(StatusNotFound, ["Failed, product not found"]))) &&
        (found.Some? ==>
          var saved := MergedProduct(found.value, input, now);
          (input.photos.None? ==>
            r == Success(Created(saved.id, saved.val.namaProduk)) &&
            t1 == t0.(products := Save(t0.products, saved))) &&
          (input.photos.Some? ==>
            var removeErr := FirstRemoveFailure(fs, Where(t0.photos.rows, PhotoOf(saved.id)));
            var up := Uploads(fs, saved.id, input.photos.value, clock, now);
            (removeErr.Some? ==> r == Failure(Plain("failed to delete old photo: " + removeErr.value))) &&
            (removeErr.None? && up.Failure? ==> r == Failure(UpdateFailure(up.error))) &&
            (removeErr.None? && up.Success? ==>
              r == Success(Created(saved.id, saved.val.namaProduk)) &&
              t1 == t0.(
                products := Save(t0.products, saved),
                photos := ReplacedPhotos(t0.photos, saved.id, up.value)))))))
  }

  /** `UpdateProduct`: the outcome `Updated` describes. */
  method UpdateProduct(db: Db, ctx: Context, sql: Sql, fs: FileUtil.FileSystem, input: UpdateProductReq,
                       productId: string, now: int, clock: nat -> int)
    returns (r: Result<ProductRes, Err>)
    modifies db
    ensures Updated(old(db.tables), db.tables, ctx, sql, fs, input, productId, now, clock, r)
    ensures TablesValid(old(db.tables)) ==> TablesValid(db.tables)
  {
    var token := ReqContext.GetTokenClaims(ctx);
    if token.Failure? {
      return Failure(token.error);
    }
    var userId := token.value.claims.id;
    var tx := db.tables;
    var shop := First(tx.tokos.rows, ShopService.OwnedBy(userId));
    if shop.None? {
      return Failure(NewWarn(StatusNotFound, ["Failed, shop not found"]));
    }
    var found := First(tx.products.rows, InShop(sql, shop.value.id, productId));
    if found.None? {
      return Failure(NewWarn(StatusNotFound, ["Failed, product not found"]));
    }
    var product := MergedProduct(found.value, input, now);
    tx := tx.(products := Save(tx.products, product));
    if input.photos.Some? {
      var oldPhotos := Where(tx.photos.rows, PhotoOf(product.id));
      var removeErr := RemoveOldPhotos(fs, oldPhotos);
      if removeErr.Some? {
        return Failure(Plain("failed to delete old photo: " + removeErr.value));
      }
      tx := tx.(photos := DeleteWhere(tx.photos, PhotoOf(product.id)));
      var photos := UploadPhotos(fs, product.id, input.photos.value, clock, now);
      if photos.Failure? {
        return Failure(UpdateFailure(photos.error));
      }
      if |photos.value| > 0 {
        tx := tx.(photos := InsertAll(tx.photos, photos.value));
      }
    }
    db.tables := tx;
    r := Success(Created(product.id, product.val.namaProduk));
  }

  /** The conjunction of every filter `GetProducts` was given. */
  predicate Matches(sql: Sql, req: GetProductReq, x: Row<Product>) {
    var f := req.filter;
    (f.keyword != "" ==> sql.like(x.val.namaProduk, "%" + f.keyword + "%")) &&
    (req.categoryId.Some? ==> x.val.idCategory == req.categoryId.value) &&
    (req.tokoId.Some? ==> x.val.idToko == req.tokoId.value) &&
    (req.minHarga.Some? ==> sql.castUnsigned(x.val.hargaKonsumen) >= req.minHarga.value) &&
    (req.maxHarga.Some? ==> sql.castUnsigned(x.val.hargaKonsumen) <= req.maxHarga.value) &&
    (f.startCreatedAt.Some? ==> x.val.createdAt >= f.startCreatedAt.value) &&
    (f.endCreatedAt.Some? ==> x.val.createdAt <= f.endCreatedAt.value) &&
    (f.startUpdatedAt.Some? ==> x.val.updatedAt >= f.startUpdatedAt.value) &&
    (f.endUpdatedAt.Some? ==> x.val.updatedAt <= f.endUpdatedAt.value)
  }

  function Condition(sql: Sql, req: GetProductReq): Row<Product> -> bool {
    (x: Row<Product>) => Matches(sql, req, x)
  }

  /** The products `GetProducts` lists: the matching ones, ordered by
      "<orderBy> <SORTORDER>", windowed by the filter's offset and limit. */
  function ProductWindow(t: Tables, sql: Sql, req: GetProductReq, order: (seq<Row<Product>>, string) -> seq<Row<Product>>)
    : seq<Row<Product>>
    requires ValidFilter(req.filter)
  {
    var clause := req.filter.orderBy + " " + ToUpper(req.filter.sortOrder);
    Window(order(Where(t.products.rows, Condition(sql, req)), clause), Skipped(req.filter), req.filter.limit)
  }

  /** Every listed product is stored and satisfies every given filter, and at most
      `limit` are listed. */
  lemma ProductWindowMatches(t: Tables, sql: Sql, req: GetProductReq, order: (seq<Row<Product>>, string) -> seq<Row<Product>>)
    requires ValidFilter(req.filter) && Reorders(order)
    ensures var w := ProductWindow(t, sql, req, order);
      |w| <= req.filter.limit &&
      forall i :: 0 <= i < |w| ==> w[i] in t.products.rows && Matches(sql, req, w[i])
  {
    var matching := Where(t.products.rows, Condition(sql, req));
    var clause := req.filter.orderBy + " " + ToUpper(req.filter.sortOrder);
    var ordered := order(matching, clause);
    var w := ProductWindow(t, sql, req, order);
    forall i | 0 <= i < |w|
      ensures w[i] in t.products.rows && Matches(sql, req, w[i])
    {
      assert w[i] in ordered;
      ReorderedFrom(order, matching, clause, w[i]);
      var k :| 0 <= k < |matching| && matching[k] == w[i];
      assert Condition(sql, req)(matching[k]);
    }
  }

  /** A listed product: every field but its shop, category and photos. */
  function ListedRes(row: Row<Product>): (r: ProductRes)
    ensures r.id == row.id && r.namaProduk == Some(row.val.namaProduk) && r.slug == Some(row.val.slug)
    ensures r.idCategory == Some(row.val.idCategory) && r.hargaReseller == Some(row.val.hargaReseller)
    ensures r.hargaKonsumen == Some(row.val.hargaKonsumen) && r.stok == Some(row.val.stok)
    ensures r.deskripsi == Some(row.val.deskripsi) && r.shop.None? && r.category.None? && r.photos == []
  {
    ProductRes(row.id, Some(row.val.namaProduk), Some(row.val.slug), Some(row.val.idCategory),
               Some(row.val.hargaReseller), Some(row.val.hargaKonsumen), Some(row.val.stok),
               Some(row.val.deskripsi), None, None, [])
  }

  /** `GetProducts`: one response per product of `ProductWindow`, in order. */
  method GetProducts(db: Db, sql: Sql, req: GetProductReq, order: (seq<Row<Product>>, string) -> seq<Row<Product>>)
    returns (res: seq<ProductRes>)
    requires ValidFilter(req.filter)
    ensures var w := ProductWindow(db.tables, sql, req, order);
      |res| == |w| <= req.filter.limit && forall k :: 0 <= k < |w| ==> res[k] == ListedRes(w[k])
  {
    var products := ProductWindow(db.tables, sql, req, order);
    res := [];
    var i := 0;
    while i < |products|
      invariant 0 <= i <= |products| && |res| == i
      invariant forall k :: 0 <= k < i ==> res[k] == ListedRes(products[k])
    {
      res := res + [ListedRes(products[i])];
      i := i + 1;
    }
  }
}
