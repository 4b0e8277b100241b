/** The category service of domains/category/service.go. */
module CategoryService {
  import opened Wrappers
  import opened Store
  import opened Schema
  import opened ApiError

  /** `CategoryReq`: the name to store. */
  datatype CategoryReq = CategoryReq(namaCategory: string)

  /** `CategoryRes`: what callers see of a category. */
  datatype CategoryRes = CategoryRes(id: int, namaCategory: string)

  /** The response for a stored category. */
  function ResOf(row: Row<Category>): (r: CategoryRes)
    ensures r.id == row.id && r.namaCategory == row.val.namaCategory
  {
    CategoryRes(row.id, row.val.namaCategory)
  }

  /** `AddCategory`: stores a new category with exactly the given name and the current
      time, and returns it with its new id. */
  method AddCategory(db: Db, input: CategoryReq, now: int) returns (res: Row<Category>)
    modifies db
    ensures res == Row(old(db.tables.categories.nextId), Category(input.namaCategory, now, now))
    ensures db.tables == old(db.tables).(categories := Insert(old(db.tables.categories), res.val))
    ensures TablesValid(old(db.tables)) ==> TablesValid(db.tables)
  {
    var category := Category(input.namaCategory, now, now);
    res := Row(db.tables.categories.nextId, category);
    db.tables := db.tables.(categories := Insert(db.tables.categories, category));
  }

  /** `GetAllCategory`: every category as (id, name), in table order. */
  method GetAllCategory(db: Db) returns (res: seq<CategoryRes>)
    ensures |res| == |db.tables.categories.rows|
    ensures forall i :: 0 <= i < |res| ==>
      res[i].id == db.tables.categories.rows[i].id &&
      res[i].namaCategory == db.tables.categories.rows[i].val.namaCategory
  {
    var categories := db.tables.categories.rows;
    res := [];
    var i := 0;
    while i < |categories|
      invariant 0 <= i <= |categories|
      invariant |res| == i
      invariant forall k :: 0 <= k < i ==> res[k] == ResOf(categories[k])
    {
      res := res + [ResOf(categories[i])];
      i := i + 1;
    }
  }

  /** `GetCategoryByID`: the first category whose id matches; a missing one is reported
      through `FromErr` as a 500 error, not as a 404. */
  method GetCategoryByID(db: Db, sql: Sql, categoryId: string) returns (r: Result<CategoryRes, Err>)
    ensures var found := First(db.tables.categories.rows, IdMatches(sql, categoryId));
      (found.None? ==> r == Failure(Api(ApiErrors(StatusInternalServerError, ErrorLevel, ["record not found"])))) &&
      (found.Some? ==> r == Success(ResOf(found.value)))
  {
    var found := First(db.tables.categories.rows, IdMatches(sql, categoryId));
    if found.None? {
      var e := FromErr(Some(RecordNotFound));
      r := Failure(e.value);
      return;
    }
    r := Success(ResOf(found.value));
  }

  /** `DeleteCategory`: 404 "Category not found" when no row matches and nothing
      changes; otherwise every matching row is removed and nothing else changes. */
  method DeleteCategory(db: Db, sql: Sql, categoryId: string) returns (err: Option<Err>)
    modifies db
    ensures First(old(db.tables.categories.rows), IdMatches(sql, categoryId)).None? ==>
      err == Some(NewWarn(StatusNotFound, ["Category not found"])) && db.tables == old(db.tables)
    ensures First(old(db.tables.categories.rows), IdMatches(sql, categoryId)).Some? ==>
      err.None? &&
      db.tables == old(db.tables).(categories := DeleteWhere(old(db.tables.categories), IdMatches(sql, categoryId)))
    ensures TablesValid(old(db.tables)) ==> TablesValid(db.tables)
  {
    var found := First(db.tables.categories.rows, IdMatches(sql, categoryId));
    if found.None? {
      return Some(NewWarn(StatusNotFound, ["Category not found"]));
    }
    db.tables := db.tables.(categories := DeleteWhere(db.tables.categories, IdMatches(sql, categoryId)));
    err := None;
  }

  /** `UpdateCategory`: a missing id is a 500 error and nothing changes; otherwise the
      found row takes the new name and time, keeping its id and creation time, and the
      response echoes the input name. */
  method UpdateCategory(db: Db, sql: Sql, input: CategoryReq, categoryId: string, now: int)
    returns (r: Result<CategoryRes, Err>)
    modifies db
    ensures var found := First(old(db.tables.categories.rows), IdMatches(sql, categoryId));
      (found.None? ==>
        r == Failure(Api(ApiErrors(StatusInternalServerError, ErrorLevel, ["record not found"]))) &&
        db.tables == old(db.tables)) &&
      (found.Some? ==>
        var updated := Row(found.value.id, found.value.val.(namaCategory := input.namaCategory, updatedAt := now));
        r == Success(CategoryRes(found.value.id, input.namaCategory)) &&
        db.tables == old(db.tables).(categories := Save(old(db.tables.categories), updated)))
    ensures TablesValid(old(db.tables)) ==> TablesValid(db.tables)
  {
    var found := First(db.tables.categories.rows, IdMatches(sql, categoryId));
    if found.None? {
      var e := FromErr(Some(RecordNotFound));
      r := Failure(e.value);
      return;
    }
    var category := found.value.val;
    category := category.(namaCategory := input.namaCategory);
    category := category.(updatedAt := now);
    db.tables := db.tables.(categories := Save(db.tables.categories, Row(found.value.id, category)));
    r := Success(CategoryRes(found.value.id, input.namaCategory));
  }

  /** A category added is the one found under its new id, with the given name. */
  lemma AddedCategoryIsFound(t: Tables, input: CategoryReq, now: int)
    requires TablesValid(t)
    ensures var found := First(Insert(t.categories, Category(input.namaCategory, now, now)).rows, ById(t.categories.nextId));
      found.Some? && ResOf(found.value) == CategoryRes(t.categories.nextId, input.namaCategory)
  {
    InsertThenFind(t.categories, Category(input.namaCategory, now, now));
  }

  /** After an update, the category's id finds the new name. */
  lemma UpdatedCategoryIsFound(t: Tables, i: nat, input: CategoryReq, now: int)
    requires TablesValid(t) && i < |t.categories.rows|
    ensures var row := t.categories.rows[i];
      var found := First(Save(t.categories, Row(row.id, row.val.(namaCategory := input.namaCategory, updatedAt := now))).rows, ById(row.id));
      found.Some? && ResOf(found.value) == CategoryRes(row.id, input.namaCategory)
  {
    var row := t.categories.rows[i];
    SaveThenFind(t.categories, i, row.val.(namaCategory := input.namaCategory, updatedAt := now));
  }
}
