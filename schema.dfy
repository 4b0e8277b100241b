/**
 * The tables of the marketplace database (the gorm models of the domain packages), the
 * database handle the services share, and the parts of MySQL the queries lean on but
 * that are not re-implemented here. Times are Unix nanoseconds.
 */
module Schema {
  import opened Wrappers
  import opened Store
  import ApiError

  /** `user.User` (table `user`); `notelp` is a unique column. */
  datatype User = User(
    nama: string, kataSandi: string, notelp: string, tanggalLahir: int,
    jenisKelamin: string, tentang: string, pekerjaan: string, email: string,
    idProvinsi: string, idKota: string, isAdmin: bool, createdAt: int, updatedAt: int)

  /** `shop.Toko` (table `toko`). */
  datatype Toko = Toko(idUser: nat, namaToko: string, urlFoto: string, createdAt: int, updatedAt: int)

  /** `product.Product` (table `produk`); its photos are the `foto_produk` rows that
      point at it. */
  datatype Product = Product(
    idToko: nat, namaProduk: string, idCategory: nat, slug: string,
    hargaReseller: string, hargaKonsumen: string, stok: int, deskripsi: string,
    createdAt: int, updatedAt: int)

  /** `product.Photo` (table `foto_produk`). */
  datatype Photo = Photo(idProduk: nat, url: string, createdAt: int, updatedAt: int)

  /** `category.Category` (table `category`). */
  datatype Category = Category(namaCategory: string, createdAt: int, updatedAt: int)

  /** `address.Address` (table `alamat`). */
  datatype Address = Address(
    idUser: nat, noTelp: string, judulAlamat: string, namaPenerima: string,
    detailAlamat: string, createdAt: int, updatedAt: int)

  /** `trx.Trx` (table `trx`). */
  datatype Trx = Trx(
    idUser: nat, alamatPengiriman: nat, hargaTotal: int, kodeInvoice: string,
    methodBayar: string, createdAt: int, updatedAt: int)

  /** `trx.LogProduk` (table `log_produk`): a snapshot of a product taken at order time. */
  datatype LogProduk = LogProduk(
    idProduk: nat, namaProduk: string, slug: string, hargaReseller: string,
    hargaKonsumen: string, deskripsi: string, createdAt: int, updatedAt: int,
    idToko: nat, idCategory: nat)

  /** `trx.DetailTrx` (table `detail_trx`): one ordered line. */
  datatype DetailTrx = DetailTrx(
    idTrx: nat, idLogProduk: nat, idToko: nat, kuantitas: int, hargaTotal: int,
    createdAt: int, updatedAt: int)

  /** `user.InvalidToken` (table `invalid_token`, no primary key): a logged-out token. */
  datatype InvalidToken = InvalidToken(token: string, expires: int)

  /** The whole database. */
  datatype Tables = Tables(
    users: Table<User>, tokos: Table<Toko>, products: Table<Product>, photos: Table<Photo>,
    categories: Table<Category>, addresses: Table<Address>, trxs: Table<Trx>,
    logs: Table<LogProduk>, details: Table<DetailTrx>, invalidTokens: seq<InvalidToken>)

  /** No two users share a phone number (the unique index on `notelp`). */
  predicate UniquePhones(users: Table<User>) {
    forall i, j :: 0 <= i < |users.rows| && 0 <= j < |users.rows| && i != j ==>
      users.rows[i].val.notelp != users.rows[j].val.notelp
  }

  /** Every table keeps its key invariant and the phone index holds. */
  predicate TablesValid(t: Tables) {
    Valid(t.users) && Valid(t.tokos) && Valid(t.products) && Valid(t.photos) &&
    Valid(t.categories) && Valid(t.addresses) && Valid(t.trxs) && Valid(t.logs) &&
    Valid(t.details) && UniquePhones(t.users)
  }

  /** The connection every service holds (`*gorm.DB`); its state is the tables. */
  class Db {
    var tables: Tables

    constructor (t: Tables)
      ensures tables == t
    {
      tables := t;
    }
  }

  /** The MySQL behaviour the queries rely on, kept abstract: `numeric` is the number a
      text argument stands for when compared with an integer column, `like` is the `LIKE`
      operator, `castUnsigned` is `CAST(x AS UNSIGNED)`. */
  datatype Sql = Sql(
    numeric: string -> Option<int>,
    like: (string, string) -> bool,
    castUnsigned: string -> int)

  /** `id = ?` with a text argument, as MySQL evaluates it. */
  predicate IdIs(sql: Sql, id: nat, text: string) {
    sql.numeric(text) == Some(id)
  }

  /** An `ORDER BY` clause applied to rows; it only rearranges them. */
  ghost predicate Reorders<R(!new)>(order: (seq<Row<R>>, string) -> seq<Row<R>>) {
    forall rows: seq<Row<R>>, clause: string ::
      multiset(order(rows, clause)) == multiset(rows)
  }

  /** gorm's `ErrRecordNotFound`. */
  const RecordNotFound := ApiError.Plain("record not found")

  /** A reordered row was one of the rows. */
  lemma ReorderedFrom<R(!new)>(order: (seq<Row<R>>, string) -> seq<Row<R>>, rows: seq<Row<R>>, clause: string, x: Row<R>)
    requires Reorders(order) && x in order(rows, clause)
    ensures x in rows
  {
    assert x in multiset(order(rows, clause));
  }

  /** The row filter `id = ?` with a text argument. */
  function IdMatches<R>(sql: Sql, text: string): Row<R> -> bool {
    (x: Row<R>) => IdIs(sql, x.id, text)
  }
}
