/** The request mapping of domains/product/handler.go: path, form and query values into
    the product service's requests, and the errors a handler reports. */
module ProductHandler {
  import opened Wrappers
  import opened GoStrings
  import opened Store
  import opened Schema
  import opened ApiError
  import opened Constants
  import opened Contexts
  import Common
  import FileUtil
  import ProductService

  /** A parsed multipart form: the values and the files sent under each key. */
  datatype Form = Form(values: map<string, seq<string>>, files: map<string, seq<FileUtil.FileHeader>>)

  /** The columns a product listing may be ordered by; the first is the default. */
  const ProductColumns: seq<string> := ["id", "nama_produk", "harga_konsumen", "created_at_date"]

  /** The first value sent under `key`, if any. */
  function FirstValue(form: Form, key: string): (r: Option<string>)
    ensures r.Some? <==> key in form.values && |form.values[key]| > 0
    ensures r.Some? ==> r.value == form.values[key][0]
  {
    if key in form.values && |form.values[key]| > 0 then Some(form.values[key][0]) else None
  }

  /** The files sent under `key`; none when the key is absent. */
  function FilesOf(form: Form, key: string): (r: seq<FileUtil.FileHeader>)
    ensures key in form.files ==> r == form.files[key]
    ensures key !in form.files ==> r == []
  {
    if key in form.files then form.files[key] else []
  }

  /** The first value under `key` read as an integer; a value `strconv.Atoi` refuses is
      dropped as if it had not been sent. */
  function IntValue(form: Form, key: string): (r: Option<int>)
    ensures FirstValue(form, key).None? ==> r.None?
    ensures FirstValue(form, key).Some? ==> r == Atoi(FirstValue(form, key).value)
  {
    match FirstValue(form, key)
    case None => None
    case Some(v) => Atoi(v)
  }

  /** `input` is the form of `UpdateProduct` read field by field: each present key sets
      its field from its first value, absent keys leave it unset, non-integer
      `id_category` and `stok` are dropped, and photos are set only when at least one
      file was sent. */
  ghost predicate ReadFrom(form: Form, input: ProductService.UpdateProductReq) {
    input.namaProduk == FirstValue(form, "nama_produk") &&
    input.slug == FirstValue(form, "slug") &&
    input.idCategory == IntValue(form, "id_category") &&
    input.hargaReseller == FirstValue(form, "harga_reseller") &&
    input.hargaKonsumen == FirstValue(form, "harga_konsumen") &&
    input.stok == IntValue(form, "stok") &&
    input.deskripsi == FirstValue(form, "deskripsi") &&
    (input.photos.Some? <==> |FilesOf(form, "photos")| > 0) &&
    (input.photos.Some? ==> input.photos.value == FilesOf(form, "photos"))
  }

  /** The form of `UpdateProduct` as an `UpdateProductReq`, filled in field by field. */
  method UpdateProductInput(form: Form) returns (input: ProductService.UpdateProductReq)
    ensures ReadFrom(form, input)
  {
    var namaProduk := FormText(form, "nama_produk");
    var slug := FormText(form, "slug");
    var idCategory := FormInt(form, "id_category");
    var hargaReseller := FormText(form, "harga_reseller");
    var hargaKonsumen := FormText(form, "harga_konsumen");
    var stok := FormInt(form, "stok");
    var deskripsi := FormText(form, "deskripsi");
    var photos: Option<seq<FileUtil.FileHeader>> := None;
    var files := FilesOf(form, "photos");
    if |files| > 0 {
      photos := Some(files);
    }
    input := ProductService.UpdateProductReq(namaProduk, slug, idCategory, hargaReseller, hargaKonsumen,
                                             stok, deskripsi, photos);
  }

  /** One text field of the form: set from the key's first value when there is one. */
  method FormText(form: Form, key: string) returns (field: Option<string>)
    ensures field == FirstValue(form, key)
  {
    field := None;
    var v := FirstValue(form, key);
    if v.Some? {
      field := Some(v.value);
    }
  }

  /** One integer field of the form: set only when the key's first value is an integer. */
  method FormInt(form: Form, key: string) returns (field: Option<int>)
    ensures field == IntValue(form, key)
  {
    field := None;
    var v := FirstValue(form, key);
    if v.Some? {
      var n := Atoi(v.value);
      if n.Some? {
        field := Some(n.value);
      }
    }
  }

  /** The id query filters of `GetProducts`: an integer converted with Go's `uint`, or
      nothing when the value is missing or not an integer. */
  function QueryId(q: Common.Query, key: string): (r: Option<nat>)
    ensures Atoi(Common.QueryValue(q, key)).None? ==> r.None?
    ensures Atoi(Common.QueryValue(q, key)).Some? ==> r == Some(Wrap64(Atoi(Common.QueryValue(q, key)).value))
  {
    var v := Common.QueryValue(q, key);
    if v != "" then
      match Atoi(v)
      case None => None
      case Some(n) => Some(Wrap64(n))
    else None
  }

  /** The price query filters of `GetProducts`: an integer, or nothing when the value is
      missing or not an integer. */
  function QueryInt(q: Common.Query, key: string): (r: Option<int>)
    ensures r == Atoi(Common.QueryValue(q, key))
  {
    var v := Common.QueryValue(q, key);
    if v != "" then Atoi(v) else None
  }

  /** The query of `GetProducts` as a `GetProductReq`: the listing metadata with the
      product columns allowed, then each filter set only when its value is an integer. */
  method GetProductsReq(q: Common.Query, parse: Common.TimeParser) returns (r: Result<ProductService.GetProductReq, Err>)
    ensures Common.GetMetaData(q, parse, ProductColumns).Failure? ==> r == Failure(Common.GetMetaData(q, parse, ProductColumns).error)
    ensures Common.GetMetaData(q, parse, ProductColumns).Success? ==>
      r.Success? && r.value.filter == Common.GetMetaData(q, parse, ProductColumns).value
    ensures r.Success? ==>
      ValidFilter(r.value.filter) && r.value.filter.orderBy in ProductColumns &&
      (Common.QueryValue(q, QueryParamsOrderBy) == "" ==> r.value.filter.orderBy == "id") &&
      r.value.categoryId == QueryId(q, "category_id") && r.value.tokoId == QueryId(q, "toko_id") &&
      r.value.minHarga == QueryInt(q, "min_harga") && r.value.maxHarga == QueryInt(q, "max_harga")
  {
    var meta := Common.GetMetaData(q, parse, ProductColumns);
    if meta.Failure? {
      return Failure(meta.error);
    }
    var categoryId := QueryIdParam(q, "category_id");
    var tokoId := QueryIdParam(q, "toko_id");
    var minHarga := QueryIntParam(q, "min_harga");
    var maxHarga := QueryIntParam(q, "max_harga");
    r := Success(ProductService.GetProductReq(meta.value, categoryId, tokoId, minHarga, maxHarga));
  }

  /** One id filter of the query: set only when the value is an integer. */
  method QueryIdParam(q: Common.Query, key: string) returns (filter: Option<nat>)
    ensures filter == QueryId(q, key)
  {
    filter := None;
    if Common.QueryValue(q, key) != "" {
      var id := Atoi(Common.QueryValue(q, key));
      if id.Some? {
        filter := Some(Wrap64(id.value));
      }
    }
  }

  /** One price filter of the query: set only when the value is an integer. */
  method QueryIntParam(q: Common.Query, key: string) returns (filter: Option<int>)
    ensures filter == QueryInt(q, key)
  {
    filter := None;
    if Common.QueryValue(q, key) != "" {
      var n := Atoi(Common.QueryValue(q, key));
      if n.Some? {
        filter := Some(n.value);
      }
    }
  }

  /** The error every product handler reports for an empty `id` path parameter. */
  const IdRequired := Plain("id is required")

  /** `GetProductByID`: an empty id is refused before the service is called; any other
      id gets the service's answer. */
  method GetProductByID(db: Db, sql: Sql, productId: string) returns (r: Result<ProductService.ProductRes, Err>)
    ensures productId == "" ==> r == Failure(IdRequired)
    ensures productId != "" ==> ProductService.LookedUp(db.tables, sql, productId, r)
  {
    if productId == "" {
      return Failure(IdRequired);
    }
    r := ProductService.GetProductByID(db, sql, productId);
  }

  /** `DeleteProduct`: an empty id is refused before the service is called and nothing
      changes; any other id gets the service's deletion and answer. */
  method DeleteProduct(db: Db, ctx: Context, sql: Sql, productId: string) returns (err: Option<Err>)
    modifies db
    ensures productId == "" ==> err == Some(IdRequired)
    ensures err.Some? ==> db.tables == old(db.tables)
    ensures productId != "" ==> ProductService.Deleted(old(db.tables), db.tables, ctx, sql, productId, err)
    ensures TablesValid(old(db.tables)) ==> TablesValid(db.tables)
  {
    if productId == "" {
      return Some(IdRequired);
    }
    err := ProductService.DeleteProduct(db, ctx, sql, productId);
  }

  /** `UpdateProduct`: an empty id or an unreadable form is refused before the service is
      called; otherwise the form is mapped by `UpdateProductInput`, the service's update
      takes place, its success is returned as it is and its error is classified by
      `FromErr`, so it reaches the client as an `ApiErrors` value. A refusal changes
      nothing. */
  method UpdateProduct(db: Db, ctx: Context, sql: Sql, fs: FileUtil.FileSystem, productId: string,
                       form: Result<Form, string>, now: int, clock: nat -> int)
    returns (r: Result<ProductService.ProductRes, Err>)
    modifies db
    ensures r.Failure? ==> db.tables == old(db.tables)
    ensures productId == "" ==> r == Failure(IdRequired)
    ensures productId != "" && form.Failure? ==> r == Failure(Plain("failed to parse multipart form: " + form.error))
    ensures productId != "" && form.Success? && r.Failure? ==> r.error.Api?
    ensures productId != "" && form.Success? ==>
      exists input, res :: ReadFrom(form.value, input) &&
        ProductService.Updated(old(db.tables), db.tables, ctx, sql, fs, input, productId, now, clock, res) &&
        (res.Success? ==> r == res) &&
        (res.Failure? ==> r.Failure? && ClassifiedAs(res.error, r.error))
    ensures TablesValid(old(db.tables)) ==> TablesValid(db.tables)
  {
    if productId == "" {
      return Failure(IdRequired);
    }
    if form.Failure? {
      return Failure(Plain("failed to parse multipart form: " + form.error));
    }
    var input := UpdateProductInput(form.value);
    var res := ProductService.UpdateProduct(db, ctx, sql, fs, input, productId, now, clock);
    if res.Failure? {
      var e := FromErr(Some(res.error));
      return Failure(e.value);
    }
    r := res;
  }

  /** `GetProducts`: the listing of `ProductWindow` for the mapped query, or the metadata
      error. */
  method GetProducts(db: Db, sql: Sql, q: Common.Query, parse: Common.TimeParser,
                     order: (seq<Row<Product>>, string) -> seq<Row<Product>>)
    returns (r: Result<seq<ProductService.ProductRes>, Err>)
    ensures Common.GetMetaData(q, parse, ProductColumns).Failure? ==> r == Failure(Common.GetMetaData(q, parse, ProductColumns).error)
    ensures Common.GetMetaData(q, parse, ProductColumns).Success? ==> (r.Success? &&
      var req := ProductService.GetProductReq(Common.GetMetaData(q, parse, ProductColumns).value,
        QueryId(q, "category_id"), QueryId(q, "toko_id"), QueryInt(q, "min_harga"), QueryInt(q, "max_harga"));
      var w := ProductService.ProductWindow(db.tables, sql, req, order);
      |r.value| == |w| && forall k :: 0 <= k < |w| ==> r.value[k] == ProductService.ListedRes(w[k]))
  {
    var req := GetProductsReq(q, parse);
    if req.Failure? {
      return Failure(req.error);
    }
    var res := ProductService.GetProducts(db, sql, req.value, order);
    r := Success(res);
  }
}
