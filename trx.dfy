/** The transaction service of domains/trx/service.go: placing an order and reading
    orders back. */
module TrxService {
  import opened Wrappers
  import opened GoStrings
  import opened Store
  import opened Schema
  import opened ApiError
  import opened Constants
  import opened Contexts
  import ReqContext
  import ShopService
  import CategoryService
  import ProductService
  import AddressService

  /** `DetailTrxReq`: one ordered item. */
  datatype DetailTrxReq = DetailTrxReq(produkId: int, kuantitas: int)

  /** `TrxReq`: the payment method, the delivery address and the ordered items. */
  datatype TrxReq = TrxReq(methodBayar: string, alamatKirim: int, detailTrx: seq<DetailTrxReq>)

  /** `DetailTrxRes`: one ordered line as the client sees it. */
  datatype DetailTrxRes = DetailTrxRes(
    product: ProductService.ProductRes, toko: ShopService.ShopRes, kuantitas: int, hargaTotal: int)

  /** `TrxRes`: an order with its delivery address and its lines. */
  datatype TrxRes = TrxRes(
    id: int, hargaTotal: int, kodeInvoice: string, methodBayar: string,
    alamatKirim: AddressService.AddressRes, detailTrx: seq<DetailTrxRes>)

  /** `PaginatedTrxRes`. */
  datatype PaginatedTrxRes = PaginatedTrxRes(data: seq<TrxRes>, page: int, limit: int)

  /** The error of every failed `GetTrxByID` lookup. */
  const TrxNotFound := NewWarn(StatusNotFound, ["Failed, trx not found"])

  // Placing an order

  /** `id = ? AND id_user = ?`: the given address, provided the caller owns it. */
  function OwnAddress(addressId: int, userId: nat): Row<Address> -> bool {
    (x: Row<Address>) => x.id == addressId && x.val.idUser == userId
  }

  /** An ordered item once priced: its product row, the product's consumer price read as
      an integer, and the quantity. */
  datatype Line = Line(product: Row<Product>, price: int, kuantitas: int)

  /** What one line costs: price times quantity. */
  function LineTotal(l: Line): int {
    l.price * l.kuantitas
  }

  /** Pricing one item: the product is looked up by primary key and its consumer price
      read with `strconv.Atoi`; a missing product and an unreadable price each fail with
      their own message. */
  function PriceItem(products: seq<Row<Product>>, item: DetailTrxReq): (r: Result<Line, string>)
    ensures var found := First(products, ById(item.produkId));
      (r.Success? <==> found.Some? && Atoi(found.value.val.hargaKonsumen).Some?) &&
      (found.None? ==> r == Failure("ID product " + IntToString(item.produkId) + " not found: record not found")) &&
      (found.Some? && Atoi(found.value.val.hargaKonsumen).None? ==>
        r == Failure("ID product price " + IntToString(item.produkId) + " not valid: " +
                     AtoiErrorText(found.value.val.hargaKonsumen)))
    ensures r.Success? ==>
      r.value.product in products && r.value.product.id == item.produkId &&
      Atoi(r.value.product.val.hargaKonsumen) == Some(r.value.price) && r.value.kuantitas == item.kuantitas
  {
    match First(products, ById(item.produkId))
    case None => Failure("ID product " + IntToString(item.produkId) + " not found: record not found")
    case Some(p) =>
      match Atoi(p.val.hargaKonsumen)
      case None => Failure("ID product price " + IntToString(item.produkId) + " not valid: " + AtoiErrorText(p.val.hargaKonsumen))
      case Some(price) => Success(Line(p, price, item.kuantitas))
  }

  /** The pricing of each item, in order. */
  function PriceSteps(products: seq<Row<Product>>, items: seq<DetailTrxReq>): (r: seq<Result<Line, string>>)
    ensures |r| == |items| && forall k :: 0 <= k < |items| ==> r[k] == PriceItem(products, items[k])
  {
    seq(|items|, k requires 0 <= k < |items| => PriceItem(products, items[k]))
  }

  /** The lines of the order, or the failure of the first item that could not be priced. */
  function Priced(products: seq<Row<Product>>, items: seq<DetailTrxReq>): Result<seq<Line>, string> {
    Collect(PriceSteps(products, items))
  }

  /** Pricing succeeds exactly when every item can be priced, and then gives one line per
      item in item order; otherwise it fails as the first unpriceable item does. */
  lemma PricedItems(products: seq<Row<Product>>, items: seq<DetailTrxReq>)
    ensures var r := Priced(products, items);
      (r.Success? <==> forall k :: 0 <= k < |items| ==> PriceItem(products, items[k]).Success?) &&
      (r.Success? ==> (|r.value| == |items| &&
        forall k :: 0 <= k < |items| ==> r.value[k] == PriceItem(products, items[k]).value)) &&
      (r.Failure? ==> (exists k ::
        0 <= k < |items| && PriceItem(products, items[k]) == Failure(r.error) &&
        forall j :: 0 <= j < k ==> PriceItem(products, items[j]).Success?))
  {
    CollectShape(PriceSteps(products, items));
  }

  /** Σ price × quantity over the lines. */
  function Total(lines: seq<Line>): int
    decreases |lines|
  {
    if |lines| == 0 then 0 else Total(lines[..|lines| - 1]) + LineTotal(lines[|lines| - 1])
  }

  /** One more line adds its price × quantity to the total. */
  lemma TotalSnoc(lines: seq<Line>, l: Line)
    ensures Total(lines + [l]) == Total(lines) + l.price * l.kuantitas
  {
    assert (lines + [l])[..|lines|] == lines;
  }

  /** The first loop of `AddTrx`: price every item and add up the order total, stopping
      at the first item that cannot be priced. */
  method PriceItems(products: seq<Row<Product>>, items: seq<DetailTrxReq>) returns (r: Result<seq<Line>, string>, total: int)
    ensures r == Priced(products, items)
    ensures r.Success? ==> total == Total(r.value)
  {
    ghost var steps := PriceSteps(products, items);
    var lines: seq<Line> := [];
    total := 0;
    var i := 0;
    while i < |items|
      invariant 0 <= i <= |items|
      invariant Collect(steps[..i]) == Success(lines)
      invariant total == Total(lines)
    {
      var step := PriceItem(products, items[i]);
      CollectSnoc(steps, i);
      if step.Failure? {
        CollectStaysFailed(steps, i + 1);
        return Failure(step.error), total;
      }
      TotalSnoc(lines, step.value);
      assert step.value.kuantitas == items[i].kuantitas;
      lines := lines + [step.value];
      total := total + step.value.price * items[i].kuantitas;
      i := i + 1;
    }
    assert steps[..i] == steps;
    r := Success(lines);
  }

  /** The invoice code: "INV-" and the Unix time in seconds. */
  function Invoice(now: int): string {
    "INV-" + IntToString(now / 1000000000)
  }

  /** The order header: the caller (`uint` of the claims id), the payment method, the
      address (`uint` of the requested id), the total and the invoice code. */
  function Header(userId: nat, input: TrxReq, total: int, now: int): (h: Trx)
    ensures h.idUser == userId && h.methodBayar == input.methodBayar
    ensures h.alamatPengiriman == Wrap64(input.alamatKirim) && h.hargaTotal == total
    ensures h.kodeInvoice == Invoice(now) && h.createdAt == now && h.updatedAt == now
  {
    Trx(userId, Wrap64(input.alamatKirim), total, Invoice(now), input.methodBayar, now, now)
  }

  /** The product snapshot of a line: the product's id, name, slug, both prices,
      description, shop and category as they are at order time. */
  function Snapshot(p: Row<Product>, now: int): (s: LogProduk)
    ensures s.idProduk == p.id && s.namaProduk == p.val.namaProduk && s.slug == p.val.slug
    ensures s.hargaReseller == p.val.hargaReseller && s.hargaKonsumen == p.val.hargaKonsumen
    ensures s.deskripsi == p.val.deskripsi && s.idToko == p.val.idToko && s.idCategory == p.val.idCategory
    ensures s.createdAt == now && s.updatedAt == now
  {
    LogProduk(p.id, p.val.namaProduk, p.val.slug, p.val.hargaReseller, p.val.hargaKonsumen,
              p.val.deskripsi, now, now, p.val.idToko, p.val.idCategory)
  }

  /** The detail row of a line: it links the order and the line's snapshot, and carries
      the snapshot's shop, the quantity and the line total. */
  function Detail(trxId: nat, logId: nat, l: Line, now: int): (d: DetailTrx)
    ensures d.idTrx == trxId && d.idLogProduk == logId && d.idToko == Snapshot(l.product, now).idToko
    ensures d.kuantitas == l.kuantitas && d.hargaTotal == LineTotal(l)
    ensures d.createdAt == now && d.updatedAt == now
  {
    DetailTrx(trxId, logId, l.product.val.idToko, l.kuantitas, LineTotal(l), now, now)
  }

  /** The snapshots of the lines, in order. */
  function Snapshots(lines: seq<Line>, now: int): (r: seq<LogProduk>)
    ensures |r| == |lines| && forall k :: 0 <= k < |lines| ==> r[k] == Snapshot(lines[k].product, now)
  {
    seq(|lines|, k requires 0 <= k < |lines| => Snapshot(lines[k].product, now))
  }

  /** The detail rows of the lines: line `k` points at the snapshot with id
      `logStart + k`. */
  function Details(trxId: nat, logStart: nat, lines: seq<Line>, now: int): (r: seq<DetailTrx>)
    ensures |r| == |lines| && forall k :: 0 <= k < |lines| ==> r[k] == Detail(trxId, logStart + k, lines[k], now)
  {
    seq(|lines|, k requires 0 <= k < |lines| => Detail(trxId, logStart + k, lines[k], now))
  }

  /** The tables after an order is placed: the header, then one snapshot and one detail
      row per line; nothing else changes. */
  function Placed(t: Tables, header: Trx, lines: seq<Line>, now: int): Tables {
    t.(trxs := Insert(t.trxs, header),
       logs := InsertAll(t.logs, Snapshots(lines, now)),
       details := InsertAll(t.details, Details(t.trxs.nextId, t.logs.nextId, lines, now)))
  }

  /** Writing one more line: its snapshot goes under the next log id, which is
      `logStart + i`, and its detail row points at it. */
  lemma WriteStep(logs: Table<LogProduk>, details: Table<DetailTrx>, trxId: nat, lines: seq<Line>, i: nat, now: int)
    requires i < |lines|
    ensures InsertAll(logs, Snapshots(lines[..i + 1], now)) ==
      Insert(InsertAll(logs, Snapshots(lines[..i], now)), Snapshot(lines[i].product, now))
    ensures InsertAll(details, Details(trxId, logs.nextId, lines[..i + 1], now)) ==
      Insert(InsertAll(details, Details(trxId, logs.nextId, lines[..i], now)),
             Detail(trxId, InsertAll(logs, Snapshots(lines[..i], now)).nextId, lines[i], now))
  {
    var snaps := Snapshots(lines[..i], now);
    SnapshotsSnoc(lines, i, now);
    InsertAllSnoc(logs, snaps, Snapshot(lines[i].product, now));
    assert InsertAll(logs, snaps).nextId == logs.nextId + i;
    var ds := Details(trxId, logs.nextId, lines[..i], now);
    var d := Detail(trxId, logs.nextId + i, lines[i], now);
    DetailsSnoc(trxId, logs.nextId, lines, i, now);
    InsertAllSnoc(details, ds, d);
  }

  lemma SnapshotsSnoc(lines: seq<Line>, i: nat, now: int)
    requires i < |lines|
    ensures Snapshots(lines[..i + 1], now) == Snapshots(lines[..i], now) + [Snapshot(lines[i].product, now)]
  {
    var a := Snapshots(lines[..i + 1], now);
    var b := Snapshots(lines[..i], now) + [Snapshot(lines[i].product, now)];
    forall k | 0 <= k < |a|
      ensures a[k] == b[k]
    {
      if k < i {
        assert lines[..i + 1][k] == lines[..i][k];
      }
    }
  }

  lemma DetailsSnoc(trxId: nat, logStart: nat, lines: seq<Line>, i: nat, now: int)
    requires i < |lines|
    ensures Details(trxId, logStart, lines[..i + 1], now) ==
      Details(trxId, logStart, lines[..i], now) + [Detail(trxId, logStart + i, lines[i], now)]
  {
    var a := Details(trxId, logStart, lines[..i + 1], now);
    var b := Details(trxId, logStart, lines[..i], now) + [Detail(trxId, logStart + i, lines[i], now)];
    forall k | 0 <= k < |a|
      ensures a[k] == b[k]
    {
      if k < i {
        assert lines[..i + 1][k] == lines[..i][k];
      }
    }
  }

  /** The second loop of `AddTrx`: for each line, in order, insert its snapshot and then
      its detail row pointing at that snapshot. */
  method WriteLines(t: Tables, trxId: nat, lines: seq<Line>, now: int) returns (tx: Tables)
    ensures tx == t.(logs := InsertAll(t.logs, Snapshots(lines, now)),
                     details := InsertAll(t.details, Details(trxId, t.logs.nextId, lines, now)))
  {
    var logs := t.logs;
    var details := t.details;
    var i := 0;
    while i < |lines|
      invariant 0 <= i <= |lines|
      invariant logs == InsertAll(t.logs, Snapshots(lines[..i], now))
      invariant details == InsertAll(t.details, Details(trxId, t.logs.nextId, lines[..i], now))
    {
      WriteStep(t.logs, t.details, trxId, lines, i, now);
      var logId := logs.nextId;
      logs := Insert(logs, Snapshot(lines[i].product, now));
      details := Insert(details, Detail(trxId, logId, lines[i], now));
      i := i + 1;
    }
    assert lines[..i] == lines;
    tx := t.(logs := logs, details := details);
  }

  /** Placing an order keeps every table valid. */
  lemma PlacedValid(t: Tables, header: Trx, lines: seq<Line>, now: int)
    ensures TablesValid(t) ==> TablesValid(Placed(t, header, lines, now))
  {
  }

  /** `AddTrx`: the address must be the caller's (a foreign address fails exactly like a
      missing one), every item must be priceable, and then the header, the snapshots and
      the details are written in one transaction. Every failure after the claims is a
      500 error, and a failure leaves the tables unchanged; product rows never change. */
  method AddTrx(db: Db, ctx: Context, input: TrxReq, now: int) returns (r: Result<Row<Trx>, Err>)
    modifies db
    ensures r.Failure? ==> db.tables == old(db.tables)
    ensures db.tables.products == old(db.tables.products)
    ensures ReqContext.GetTokenClaims(ctx).Failure? ==> r == Failure(ReqContext.GetTokenClaims(ctx).error)
    ensures ReqContext.GetTokenClaims(ctx).Success? ==>
      var userId := Wrap64(ReqContext.GetTokenClaims(ctx).value.claims.id);
      var address := First(old(db.tables.addresses.rows), OwnAddress(input.alamatKirim, userId));
      (address.None? ==> r == Failure(Api(ApiErrors(StatusInternalServerError, ErrorLevel, ["invalid address"])))) &&
      (address.Some? ==>
        var priced := Priced(old(db.tables.products.rows), input.detailTrx);
        (priced.Failure? ==> r == Failure(Api(ApiErrors(StatusInternalServerError, ErrorLevel, [priced.error])))) &&
        (priced.Success? ==>
          var header := Header(userId, input, Total(priced.value), now);
          r == Success(Row(old(db.tables.trxs.nextId), header)) &&
          db.tables == Placed(old(db.tables), header, priced.value, now)))
    ensures TablesValid(old(db.tables)) ==> TablesValid(db.tables)
  {
    var token := ReqContext.GetTokenClaims(ctx);
    if token.Failure? {
      return Failure(token.error);
    }
    var userId := Wrap64(token.value.claims.id);
    var t := db.tables;
    var address := First(t.addresses.rows, OwnAddress(input.alamatKirim, userId));
    if address.None? {
      var e := FromErr(Some(Plain("invalid address")));
      return Failure(e.value);
    }
    var priced, total := PriceItems(t.products.rows, input.detailTrx);
    if priced.Failure? {
      var e := FromErr(Some(Plain(priced.error)));
      return Failure(e.value);
    }
    var header := Header(userId, input, total, now);
    var trxId := t.trxs.nextId;
    var tx := t.(trxs := Insert(t.trxs, header));
    tx := WriteLines(tx, trxId, priced.value, now);
    PlacedValid(t, header, priced.value, now);
    db.tables := tx;
    r := Success(Row(trxId, header));
  }

  /** A foreign address is rejected like a missing one: in a valid table the only row
      with the requested id belongs to someone else, so no row is the caller's. */
  lemma ForeignAddressIsMissing(addresses: Table<Address>, addressId: int, userId: nat, row: Row<Address>)
    requires Valid(addresses) && row in addresses.rows && row.id == addressId && row.val.idUser != userId
    ensures First(addresses.rows, OwnAddress(addressId, userId)).None?
  {
    var j :| 0 <= j < |addresses.rows| && addresses.rows[j] == row;
    forall i | 0 <= i < |addresses.rows|
      ensures !OwnAddress(addressId, userId)(addresses.rows[i])
    {
      if i != j {
        assert addresses.rows[i].id != addresses.rows[j].id;
      }
    }
  }

  /** The sum of the line totals of detail rows. */
  function DetailsTotal(rows: seq<Row<DetailTrx>>): int
    decreases |rows|
  {
    if |rows| == 0 then 0 else DetailsTotal(rows[..|rows| - 1]) + rows[|rows| - 1].val.hargaTotal
  }

  /** The sum of the line totals of detail values. */
  function ValuesTotal(ds: seq<DetailTrx>): int
    decreases |ds|
  {
    if |ds| == 0 then 0 else ValuesTotal(ds[..|ds| - 1]) + ds[|ds| - 1].hargaTotal
  }

  /** The rows `InsertAll` adds carry the totals of the values it was given. */
  lemma {:induction false} AddedRowsTotal(details: Table<DetailTrx>, ds: seq<DetailTrx>)
    ensures DetailsTotal(InsertAll(details, ds).rows[|details.rows|..]) == ValuesTotal(ds)
    decreases |ds|
  {
    if |ds| == 0 {
      assert InsertAll(details, ds).rows[|details.rows|..] == [];
    } else {
      var n := |ds| - 1;
      AddedRowsTotal(details, ds[..n]);
      assert ds == ds[..n] + [ds[n]];
      InsertAllSnoc(details, ds[..n], ds[n]);
      var prev := InsertAll(details, ds[..n]);
      var last := Row(prev.nextId, ds[n]);
      var before := prev.rows[|details.rows|..];
      assert |prev.rows| >= |details.rows|;
      assert InsertAll(details, ds).rows == prev.rows + [last];
      SuffixSnoc(prev.rows, last, |details.rows|);
      assert DetailsTotal(before + [last]) == DetailsTotal(before) + last.val.hargaTotal by {
        assert (before + [last])[..|before|] == before;
      }
    }
  }

  lemma SuffixSnoc<X>(xs: seq<X>, x: X, from: nat)
    requires from <= |xs|
    ensures (xs + [x])[from..] == xs[from..] + [x]
  {
  }

  /** The detail values of the lines carry totals summing to the lines' total. */
  lemma {:induction false} DetailValuesTotal(trxId: nat, logStart: nat, lines: seq<Line>, now: int)
    ensures ValuesTotal(Details(trxId, logStart, lines, now)) == Total(lines)
    decreases |lines|
  {
    if |lines| > 0 {
      var n := |lines| - 1;
      DetailValuesTotal(trxId, logStart, lines[..n], now);
      assert lines[..n + 1] == lines;
      DetailsSnoc(trxId, logStart, lines, n, now);
      var ds := Details(trxId, logStart, lines, now);
      assert ds[..n] == Details(trxId, logStart, lines[..n], now);
    }
  }

  /** The detail rows an order adds carry line totals that sum to the order total. */
  lemma NewDetailsTotal(details: Table<DetailTrx>, trxId: nat, logStart: nat, lines: seq<Line>, now: int)
    ensures DetailsTotal(InsertAll(details, Details(trxId, logStart, lines, now)).rows[|details.rows|..]) == Total(lines)
  {
    AddedRowsTotal(details, Details(trxId, logStart, lines, now));
    DetailValuesTotal(trxId, logStart, lines, now);
  }

  /** A placed order: the header is the one new order row, there is exactly one snapshot
      and one detail row per line, in line order, each detail linking the new order, its
      snapshot, the quantity and the snapshot's shop, and every other table is as it
      was. */
  lemma PlacedOrder(t: Tables, header: Trx, lines: seq<Line>, now: int)
    ensures var p := Placed(t, header, lines, now);
      p.trxs.rows == t.trxs.rows + [Row(t.trxs.nextId, header)] &&
      |p.logs.rows| == |t.logs.rows| + |lines| && |p.details.rows| == |t.details.rows| + |lines| &&
      p.(trxs := t.trxs, logs := t.logs, details := t.details) == t
    ensures var p := Placed(t, header, lines, now);
      forall k :: 0 <= k < |lines| ==>
        p.logs.rows[|t.logs.rows| + k] == Row(t.logs.nextId + k, Snapshot(lines[k].product, now))
    ensures var p := Placed(t, header, lines, now);
      forall k :: 0 <= k < |lines| ==>
        p.details.rows[|t.details.rows| + k] == Row(t.details.nextId + k, Detail(t.trxs.nextId, t.logs.nextId + k, lines[k], now))
  {
  }

  /** The detail rows of a placed order sum to its header total. */
  lemma PlacedTotal(t: Tables, userId: nat, input: TrxReq, lines: seq<Line>, now: int)
    ensures var header := Header(userId, input, Total(lines), now);
      var p := Placed(t, header, lines, now);
      DetailsTotal(p.details.rows[|t.details.rows|..]) == header.hargaTotal
  {
    NewDetailsTotal(t.details, t.trxs.nextId, t.logs.nextId, lines, now);
  }

  // Reading orders back

  /** `id_trx = ?`: the detail rows of one order. */
  function OfTrx(trxId: nat): Row<DetailTrx> -> bool {
    (x: Row<DetailTrx>) => x.val.idTrx == trxId
  }

  /** The shop of a line: its id is the snapshot's shop id; name and photo are the live
      shop's, or empty when the shop is gone. */
  function ShopResOf(t: Tables, tokoId: nat): (r: ShopService.ShopRes)
    ensures r.id == tokoId && r.idUser.None?
    ensures First(t.tokos.rows, ById(tokoId)).Some? ==>
      r.namaToko == First(t.tokos.rows, ById(tokoId)).value.val.namaToko &&
      r.urlFoto == First(t.tokos.rows, ById(tokoId)).value.val.urlFoto
    ensures First(t.tokos.rows, ById(tokoId)).None? ==> r.namaToko == "" && r.urlFoto == ""
  {
    match First(t.tokos.rows, ById(tokoId))
    case Some(s) => ShopService.ShopRes(tokoId, s.val.namaToko, s.val.urlFoto, None)
    case None => ShopService.ShopRes(tokoId, "", "", None)
  }

  /** The category of a line: the live category, or id 0 and no name when it is gone. */
  function CategoryResOf(t: Tables, categoryId: nat): (r: CategoryService.CategoryRes)
    ensures First(t.categories.rows, ById(categoryId)).Some? ==>
      r == CategoryService.ResOf(First(t.categories.rows, ById(categoryId)).value)
    ensures First(t.categories.rows, ById(categoryId)).None? ==> r == CategoryService.CategoryRes(0, "")
  {
    match First(t.categories.rows, ById(categoryId))
    case Some(c) => CategoryService.ResOf(c)
    case None => CategoryService.CategoryRes(0, "")
  }

  /** The urls of the live photos of a product, in table order. */
  function PhotoUrlsOf(photos: seq<Row<Photo>>, productId: nat): (r: seq<string>)
    ensures var own := Where(photos, ProductService.PhotoOf(productId));
      |r| == |own| && forall k :: 0 <= k < |own| ==> r[k] == own[k].val.url
  {
    var own := Where(photos, ProductService.PhotoOf(productId));
    seq(|own|, k requires 0 <= k < |own| => own[k].val.url)
  }

  /** The response of one detail row, or nothing when its snapshot is gone. The product
      part is the snapshot's (id, name, slug, prices, description), never the live
      product's; category and photos are looked up live, stock and shop are omitted. */
  function DetailRes(t: Tables, d: Row<DetailTrx>): (r: Option<DetailTrxRes>)
    ensures r.None? <==> First(t.logs.rows, ById(d.val.idLogProduk)).None?
    ensures r.Some? ==>
      var log := First(t.logs.rows, ById(d.val.idLogProduk)).value.val;
      var p := r.value.product;
      p.id == log.idProduk && p.namaProduk == Some(log.namaProduk) && p.slug == Some(log.slug) &&
      p.hargaReseller == Some(log.hargaReseller) && p.hargaKonsumen == Some(log.hargaKonsumen) &&
      p.deskripsi == Some(log.deskripsi) && p.idCategory.None? && p.stok.None? && p.shop.None? &&
      p.category == Some(CategoryResOf(t, log.idCategory)) && p.photos == PhotoUrlsOf(t.photos.rows, log.idProduk) &&
      r.value.toko == ShopResOf(t, log.idToko) &&
      r.value.kuantitas == d.val.kuantitas && r.value.hargaTotal == d.val.hargaTotal
  {
    match First(t.logs.rows, ById(d.val.idLogProduk))
    case None => None
    case Some(l) =>
      var log := l.val;
      var product := ProductService.ProductRes(
        log.idProduk, Some(log.namaProduk), Some(log.slug), None, Some(log.hargaReseller),
        Some(log.hargaKonsumen), None, Some(log.deskripsi), None,
        Some(CategoryResOf(t, log.idCategory)), PhotoUrlsOf(t.photos.rows, log.idProduk));
      Some(DetailTrxRes(product, ShopResOf(t, log.idToko), d.val.kuantitas, d.val.hargaTotal))
  }

  function DetailOf(t: Tables): Row<DetailTrx> -> Option<DetailTrxRes> {
    (d: Row<DetailTrx>) => DetailRes(t, d)
  }

  /** The response of one order, or nothing when its address is gone: the header fields,
      the address, and the responses of its detail rows whose snapshot is still there. */
  function TrxResOf(t: Tables, x: Row<Trx>): (r: Option<TrxRes>)
    ensures r.None? <==> First(t.addresses.rows, ById(x.val.alamatPengiriman)).None?
    ensures r.Some? ==>
      r.value.id == x.id && r.value.hargaTotal == x.val.hargaTotal &&
      r.value.kodeInvoice == x.val.kodeInvoice && r.value.methodBayar == x.val.methodBayar &&
      r.value.alamatKirim == AddressService.ResOf(First(t.addresses.rows, ById(x.val.alamatPengiriman)).value) &&
      r.value.alamatKirim.id == x.val.alamatPengiriman &&
      r.value.detailTrx == FilterMap(Where(t.details.rows, OfTrx(x.id)), DetailOf(t))
  {
    match First(t.addresses.rows, ById(x.val.alamatPengiriman))
    case None => None
    case Some(a) =>
      Some(TrxRes(x.id, x.val.hargaTotal, x.val.kodeInvoice, x.val.methodBayar, AddressService.ResOf(a),
                  FilterMap(Where(t.details.rows, OfTrx(x.id)), DetailOf(t))))
  }

  function TrxOf(t: Tables): Row<Trx> -> Option<TrxRes> {
    (x: Row<Trx>) => TrxResOf(t, x)
  }

  /** Every listed line of an order is the `DetailRes` of one of its detail rows, and
      every detail row whose snapshot is there is listed. */
  lemma DetailsListed(t: Tables, trxId: nat)
    ensures var ds := Where(t.details.rows, OfTrx(trxId));
      var listed := FilterMap(ds, DetailOf(t));
      |listed| <= |ds| &&
      forall k :: 0 <= k < |listed| ==> (exists j :: 0 <= j < |ds| && DetailRes(t, ds[j]) == Some(listed[k]))
    ensures var ds := Where(t.details.rows, OfTrx(trxId));
      forall j :: 0 <= j < |ds| && First(t.logs.rows, ById(ds[j].val.idLogProduk)).Some? ==>
        DetailRes(t, ds[j]).value in FilterMap(ds, DetailOf(t))
  {
    var ds := Where(t.details.rows, OfTrx(trxId));
    FilterMapFrom(ds, DetailOf(t));
    FilterMapKeeps(ds, DetailOf(t));
  }

  /** When no snapshot is missing, the detail rows give exactly one line each, in
      order. */
  lemma DetailsAllListed(t: Tables, ds: seq<Row<DetailTrx>>)
    requires forall j :: 0 <= j < |ds| ==> First(t.logs.rows, ById(ds[j].val.idLogProduk)).Some?
    ensures var listed := FilterMap(ds, DetailOf(t));
      |listed| == |ds| && forall k :: 0 <= k < |ds| ==> listed[k] == DetailRes(t, ds[k]).value
  {
    forall j | 0 <= j < |ds|
      ensures DetailOf(t)(ds[j]).Some?
    {
      assert First(t.logs.rows, ById(ds[j].val.idLogProduk)).Some?;
    }
    FilterMapTotal(ds, DetailOf(t));
  }

  /** The loop of `GetTrxByID` and `GetTrx` over the detail rows of an order: a row whose
      snapshot is missing is skipped; the shop and category are read into zero values when
      missing. */
  method DetailResponses(t: Tables, details: seq<Row<DetailTrx>>) returns (res: seq<DetailTrxRes>)
    ensures res == FilterMap(details, DetailOf(t))
  {
    res := [];
    var i := 0;
    while i < |details|
      invariant 0 <= i <= |details|
      invariant res == FilterMap(details[..i], DetailOf(t))
    {
      var d := details[i];
      FilterMapSnoc(details, DetailOf(t), i);
      var found := First(t.logs.rows, ById(d.val.idLogProduk));
      if found.None? {
        i := i + 1;
        continue;
      }
      var log := found.value.val;
      var shop := ShopResOf(t, log.idToko);
      var category := CategoryResOf(t, log.idCategory);
      var urls := ProductService.PhotoUrls(t.photos.rows, log.idProduk);
      assert urls == PhotoUrlsOf(t.photos.rows, log.idProduk);
      var product := ProductService.ProductRes(
        log.idProduk, Some(log.namaProduk), Some(log.slug), None, Some(log.hargaReseller),
        Some(log.hargaKonsumen), None, Some(log.deskripsi), None, Some(category), urls);
      res := res + [DetailTrxRes(product, shop, d.val.kuantitas, d.val.hargaTotal)];
      i := i + 1;
    }
    assert details[..i] == details;
  }

  /** `id = ?` for an admin, `id = ? AND id_user = ?` for anyone else. */
  function Visible(sql: Sql, trxId: string, isAdmin: bool, userId: nat): Row<Trx> -> bool {
    (x: Row<Trx>) => IdIs(sql, x.id, trxId) && (isAdmin || x.val.idUser == userId)
  }

  /** What `GetTrxByID` answers: the first visible order with the given id, as
      `TrxResOf` renders it; a 404 when there is none or its address is gone. */
  function TrxView(t: Tables, sql: Sql, claims: Claims, trxId: string): (r: Result<TrxRes, Err>)
    ensures r.Failure? ==> r.error == TrxNotFound
    ensures r.Success? ==> (exists i ::
      0 <= i < |t.trxs.rows| && IdIs(sql, t.trxs.rows[i].id, trxId) &&
      (!claims.isAdmin ==> t.trxs.rows[i].val.idUser == Wrap64(claims.id)) &&
      TrxResOf(t, t.trxs.rows[i]) == Some(r.value))
    ensures (forall i :: 0 <= i < |t.trxs.rows| ==>
      !IdIs(sql, t.trxs.rows[i].id, trxId) || (!claims.isAdmin && t.trxs.rows[i].val.idUser != Wrap64(claims.id))) ==>
      r.Failure?
    ensures forall i ::
      (0 <= i < |t.trxs.rows| && Visible(sql, trxId, claims.isAdmin, Wrap64(claims.id))(t.trxs.rows[i]) &&
       forall j :: 0 <= j < i ==> !Visible(sql, trxId, claims.isAdmin, Wrap64(claims.id))(t.trxs.rows[j])) ==>
      r == (if TrxResOf(t, t.trxs.rows[i]).Some? then Success(TrxResOf(t, t.trxs.rows[i]).value) else Failure(TrxNotFound))
  {
    match First(t.trxs.rows, Visible(sql, trxId, claims.isAdmin, Wrap64(claims.id)))
    case None => Failure(TrxNotFound)
    case Some(x) =>
      match TrxResOf(t, x)
      case None => Failure(TrxNotFound)
      case Some(res) => Success(res)
  }

  /** `GetTrxByID`: the claims error as is, otherwise `TrxView`. */
  method GetTrxByID(db: Db, ctx: Context, sql: Sql, trxId: string) returns (r: Result<TrxRes, Err>)
    ensures ReqContext.GetTokenClaims(ctx).Failure? ==> r == Failure(ReqContext.GetTokenClaims(ctx).error)
    ensures ReqContext.GetTokenClaims(ctx).Success? ==>
      r == TrxView(db.tables, sql, ReqContext.GetTokenClaims(ctx).value.claims, trxId)
  {
    var token := ReqContext.GetTokenClaims(ctx);
    if token.Failure? {
      return Failure(token.error);
    }
    var userId := Wrap64(token.value.claims.id);
    var isAdmin := token.value.claims.isAdmin;
    var t := db.tables;
    var found := First(t.trxs.rows, Visible(sql, trxId, isAdmin, userId));
    if found.None? {
      return Failure(TrxNotFound);
    }
    var trx := found.value;
    var address := First(t.addresses.rows, ById(trx.val.alamatPengiriman));
    if address.None? {
      return Failure(TrxNotFound);
    }
    var details := Where(t.details.rows, OfTrx(trx.id));
    var lines := DetailResponses(t, details);
    r := Success(TrxRes(trx.id, trx.val.hargaTotal, trx.val.kodeInvoice, trx.val.methodBayar,
                        AddressService.ResOf(address.value), lines));
  }

  /** `id_user = ?`: the orders of one user. */
  function OwnedBy(userId: nat): Row<Trx> -> bool {
    (x: Row<Trx>) => x.val.idUser == userId
  }

  /** The orders `GetTrx` lists: the caller's (an admin's: all), ordered by
      "<orderBy> <sortOrder>", windowed by the filter's offset and limit. */
  function TrxWindow(t: Tables, claims: Claims, filter: FilterReq, order: (seq<Row<Trx>>, string) -> seq<Row<Trx>>)
    : seq<Row<Trx>>
    requires ValidFilter(filter)
  {
    var visible := if claims.isAdmin then t.trxs.rows else Where(t.trxs.rows, OwnedBy(Wrap64(claims.id)));
    Window(order(visible, filter.orderBy + " " + filter.sortOrder), Skipped(filter), filter.limit)
  }

  /** What `GetTrx` answers: the responses of the windowed orders whose address is still
      there, and the page and limit of the filter. */
  function TrxPage(t: Tables, claims: Claims, filter: FilterReq, order: (seq<Row<Trx>>, string) -> seq<Row<Trx>>)
    : (r: PaginatedTrxRes)
    requires ValidFilter(filter)
    ensures r.page == filter.page && r.limit == filter.limit
  {
    PaginatedTrxRes(FilterMap(TrxWindow(t, claims, filter, order), TrxOf(t)), filter.page, filter.limit)
  }

  /** `GetTrx`: the claims error as is, otherwise `TrxPage`. */
  method GetTrx(db: Db, ctx: Context, filter: FilterReq, order: (seq<Row<Trx>>, string) -> seq<Row<Trx>>)
    returns (r: Result<PaginatedTrxRes, Err>)
    requires ValidFilter(filter)
    ensures ReqContext.GetTokenClaims(ctx).Failure? ==> r == Failure(ReqContext.GetTokenClaims(ctx).error)
    ensures ReqContext.GetTokenClaims(ctx).Success? ==>
      r == Success(TrxPage(db.tables, ReqContext.GetTokenClaims(ctx).value.claims, filter, order))
  {
    var token := ReqContext.GetTokenClaims(ctx);
    if token.Failure? {
      return Failure(token.error);
    }
    var t := db.tables;
    var trxs := TrxWindow(t, token.value.claims, filter, order);
    var responses: seq<TrxRes> := [];
    var i := 0;
    while i < |trxs|
      invariant 0 <= i <= |trxs|
      invariant responses == FilterMap(trxs[..i], TrxOf(t))
    {
      var trx := trxs[i];
      FilterMapSnoc(trxs, TrxOf(t), i);
      var address := First(t.addresses.rows, ById(trx.val.alamatPengiriman));
      if address.None? {
        i := i + 1;
        continue;
      }
      var details := Where(t.details.rows, OfTrx(trx.id));
      var lines := DetailResponses(t, details);
      responses := responses + [TrxRes(trx.id, trx.val.hargaTotal, trx.val.kodeInvoice, trx.val.methodBayar,
                                       AddressService.ResOf(address.value), lines)];
      i := i + 1;
    }
    assert trxs[..i] == trxs;
    r := Success(PaginatedTrxRes(responses, filter.page, filter.limit));
  }

  /** The window holds at most `limit` stored orders, and a non-admin's are all their
      own. */
  lemma TrxWindowVisible(t: Tables, claims: Claims, filter: FilterReq, order: (seq<Row<Trx>>, string) -> seq<Row<Trx>>)
    requires ValidFilter(filter) && Reorders(order)
    ensures var w := TrxWindow(t, claims, filter, order);
      |w| <= filter.limit &&
      forall i :: 0 <= i < |w| ==> w[i] in t.trxs.rows && (!claims.isAdmin ==> w[i].val.idUser == Wrap64(claims.id))
  {
    var visible := if claims.isAdmin then t.trxs.rows else Where(t.trxs.rows, OwnedBy(Wrap64(claims.id)));
    var clause := filter.orderBy + " " + filter.sortOrder;
    var w := TrxWindow(t, claims, filter, order);
    forall i | 0 <= i < |w|
      ensures w[i] in t.trxs.rows && (!claims.isAdmin ==> w[i].val.idUser == Wrap64(claims.id))
    {
      assert w[i] in order(visible, clause);
      ReorderedFrom(order, visible, clause, w[i]);
    }
  }

  /** `res` is the response of a stored order the caller may see (for a non-admin, one
      of their own) whose address is still there. */
  ghost predicate ListedOrder(t: Tables, claims: Claims, res: TrxRes) {
    exists x :: x in t.trxs.rows && (!claims.isAdmin ==> x.val.idUser == Wrap64(claims.id)) &&
      First(t.addresses.rows, ById(x.val.alamatPengiriman)).Some? && TrxResOf(t, x) == Some(res)
  }

  /** Every order `GetTrx` lists is a stored order of the window whose address is still
      there (for a non-admin, one of their own), and every order of the window whose
      address is there is listed. */
  lemma TrxPageListed(t: Tables, claims: Claims, filter: FilterReq, order: (seq<Row<Trx>>, string) -> seq<Row<Trx>>)
    requires ValidFilter(filter) && Reorders(order)
    ensures var w := TrxWindow(t, claims, filter, order);
      var data := TrxPage(t, claims, filter, order).data;
      |data| <= filter.limit &&
      (forall k :: 0 <= k < |data| ==> ListedOrder(t, claims, data[k])) &&
      (forall j :: 0 <= j < |w| && First(t.addresses.rows, ById(w[j].val.alamatPengiriman)).Some? ==>
        TrxResOf(t, w[j]).value in data)
  {
    TrxWindowVisible(t, claims, filter, order);
    WindowListed(t, claims, TrxWindow(t, claims, filter, order));
  }

  /** `TrxPageListed` for any window of visible orders. */
  lemma WindowListed(t: Tables, claims: Claims, w: seq<Row<Trx>>)
    requires forall i :: 0 <= i < |w| ==> w[i] in t.trxs.rows && (!claims.isAdmin ==> w[i].val.idUser == Wrap64(claims.id))
    ensures var data := FilterMap(w, TrxOf(t));
      |data| <= |w| &&
      (forall k :: 0 <= k < |data| ==> ListedOrder(t, claims, data[k])) &&
      (forall j :: 0 <= j < |w| && First(t.addresses.rows, ById(w[j].val.alamatPengiriman)).Some? ==>
        TrxResOf(t, w[j]).value in data)
  {
    var f := TrxOf(t);
    FilterMapFrom(w, f);
    FilterMapKeeps(w, f);
    var data := FilterMap(w, f);
    assert forall j :: 0 <= j < |w| ==> f(w[j]) == TrxResOf(t, w[j]);
    forall k | 0 <= k < |data|
      ensures ListedOrder(t, claims, data[k])
    {
      var j :| 0 <= j < |w| && f(w[j]) == Some(data[k]);
      var x := w[j];
      assert x in t.trxs.rows && (!claims.isAdmin ==> x.val.idUser == Wrap64(claims.id));
      assert TrxResOf(t, x) == Some(data[k]);
      assert First(t.addresses.rows, ById(x.val.alamatPengiriman)).Some?;
    }
    forall j | 0 <= j < |w| && First(t.addresses.rows, ById(w[j].val.alamatPengiriman)).Some?
      ensures TrxResOf(t, w[j]).value in data
    {
      assert f(w[j]).Some?;
    }
  }

  /** Order responses show the snapshots, not the live products: replacing every product
      row changes neither `GetTrxByID` nor `GetTrx`. */
  lemma ViewsIgnoreProducts(t: Tables, products: Table<Product>, sql: Sql, claims: Claims, trxId: string,
                            filter: FilterReq, order: (seq<Row<Trx>>, string) -> seq<Row<Trx>>)
    requires ValidFilter(filter)
    ensures TrxView(t.(products := products), sql, claims, trxId) == TrxView(t, sql, claims, trxId)
    ensures TrxPage(t.(products := products), claims, filter, order) == TrxPage(t, claims, filter, order)
  {
    var u := t.(products := products);
    forall x: Row<Trx>
      ensures TrxResOf(u, x) == TrxResOf(t, x)
    {
      ResIgnoresProducts(t, products, x);
    }
    var w := TrxWindow(t, claims, filter, order);
    FilterMapSame(w, TrxOf(u), TrxOf(t));
  }

  /** One order's rendering reads its snapshots, not the live products. */
  lemma ResIgnoresProducts(t: Tables, products: Table<Product>, x: Row<Trx>)
    ensures TrxResOf(t.(products := products), x) == TrxResOf(t, x)
  {
    var ds := Where(t.details.rows, OfTrx(x.id));
    FilterMapSame(ds, DetailOf(t.(products := products)), DetailOf(t));
  }
}
