/**
 * The relational store the services talk to through gorm, as in-memory tables. A table
 * keeps its rows in ascending primary-key order, which is the order gorm's `First`
 * and an unordered `Find` see; `nextId` is the auto-increment counter.
 */
module Store {
  import opened Wrappers

  datatype Row<R> = Row(id: nat, val: R)

  datatype Table<R> = Table(rows: seq<Row<R>>, nextId: nat)

  /** Every id lies strictly between `lo` and `hi`. */
  predicate Bounded<R>(rows: seq<Row<R>>, lo: int, hi: int) {
    forall i :: 0 <= i < |rows| ==> lo < rows[i].id < hi
  }

  /** Ids strictly ascend. */
  predicate Ascending<R>(rows: seq<Row<R>>) {
    forall i, j :: 0 <= i < j < |rows| ==> rows[i].id < rows[j].id
  }

  /** The counter starts at 1; ids are positive, below the counter, and strictly ascending. */
  predicate Valid<R>(t: Table<R>) {
    0 < t.nextId && Bounded(t.rows, 0, t.nextId) && Ascending(t.rows)
  }

  function Empty<R>(): (t: Table<R>)
    ensures Valid(t) && t.rows == []
  {
    Table([], 1)
  }

  /** `First(&x, cond)`: the first row, in key order, that satisfies `p`. */
  function First<R>(rows: seq<Row<R>>, p: Row<R> -> bool): (r: Option<Row<R>>)
    ensures r.None? <==> forall i :: 0 <= i < |rows| ==> !p(rows[i])
    ensures r.Some? ==> exists i :: 0 <= i < |rows| && rows[i] == r.value && p(rows[i]) &&
                          forall j :: 0 <= j < i ==> !p(rows[j])
    decreases |rows|
  {
    if |rows| == 0 then None
    else if p(rows[0]) then Some(rows[0])
    else
      var r := First(rows[1..], p);
      assert forall i :: 1 <= i < |rows| ==> rows[i] == rows[1..][i - 1];
      r
  }

  /** `Where(cond).Find(&xs)`: the rows that satisfy `p`, in order. */
  function Where<R>(rows: seq<Row<R>>, p: Row<R> -> bool): (r: seq<Row<R>>)
    ensures |r| <= |rows|
    ensures forall i :: 0 <= i < |r| ==> r[i] in rows && p(r[i])
    ensures forall i :: 0 <= i < |rows| && p(rows[i]) ==> rows[i] in r
    decreases |rows|
  {
    if |rows| == 0 then []
    else if p(rows[0]) then [rows[0]] + Where(rows[1..], p)
    else Where(rows[1..], p)
  }

  /** `Create(&x)`: appends the row under the next auto-increment id. */
  function Insert<R>(t: Table<R>, v: R): (r: Table<R>)
    ensures r.rows == t.rows + [Row(t.nextId, v)] && r.nextId == t.nextId + 1
    ensures Valid(t) ==> Valid(r)
  {
    var rows := t.rows + [Row(t.nextId, v)];
    assert forall i :: 0 <= i < |t.rows| ==> rows[i] == t.rows[i];
    assert Valid(t) ==> Bounded(rows, 0, t.nextId + 1);
    assert Valid(t) ==> forall i, j :: 0 <= i < j < |rows| ==> rows[i].id < rows[j].id;
    Table(rows, t.nextId + 1)
  }

  /** `Create(&xs)` for a batch: inserts the values in order. */
  function InsertAll<R>(t: Table<R>, vs: seq<R>): (r: Table<R>)
    ensures r.nextId == t.nextId + |vs|
    ensures |r.rows| == |t.rows| + |vs| && r.rows[..|t.rows|] == t.rows
    ensures forall i :: 0 <= i < |vs| ==> r.rows[|t.rows| + i] == Row(t.nextId + i, vs[i])
    ensures Valid(t) ==> Valid(r)
    decreases |vs|
  {
    if |vs| == 0 then t
    else
      var r := InsertAll(Insert(t, vs[0]), vs[1..]);
      assert forall i :: 1 <= i < |vs| ==> vs[1..][i - 1] == vs[i];
      r
  }

  /** A batch insert followed by one more insert is the longer batch insert. */
  lemma {:induction false} InsertAllSnoc<R>(t: Table<R>, vs: seq<R>, v: R)
    ensures InsertAll(t, vs + [v]) == Insert(InsertAll(t, vs), v)
    decreases |vs|
  {
    if |vs| == 0 {
      assert vs + [v] == [v] && [v][1..] == [];
    } else {
      assert (vs + [v])[1..] == vs[1..] + [v];
      InsertAllSnoc(Insert(t, vs[0]), vs[1..], v);
    }
  }

  /** A row after a batch insert is an old row or one of the inserted ones. */
  lemma InsertedRow<R>(t: Table<R>, vs: seq<R>, x: Row<R>)
    requires x in InsertAll(t, vs).rows
    ensures x in t.rows || exists k :: 0 <= k < |vs| && x == Row(t.nextId + k, vs[k])
  {
    var r := InsertAll(t, vs);
    var i :| 0 <= i < |r.rows| && r.rows[i] == x;
    if i < |t.rows| {
      assert r.rows[..|t.rows|][i] == x;
    } else {
      assert r.rows[|t.rows| + (i - |t.rows|)] == Row(t.nextId + (i - |t.rows|), vs[i - |t.rows|]);
    }
  }

  /** A batch insert keeps the old rows and adds one row per value. */
  lemma InsertAllKeeps<R>(t: Table<R>, vs: seq<R>)
    ensures var r := InsertAll(t, vs);
      (forall x :: x in t.rows ==> x in r.rows) &&
      (forall k :: 0 <= k < |vs| ==> Row(t.nextId + k, vs[k]) in r.rows)
  {
    var r := InsertAll(t, vs);
    forall x | x in t.rows
      ensures x in r.rows
    {
      var i :| 0 <= i < |t.rows| && t.rows[i] == x;
      assert r.rows[..|t.rows|][i] == x;
    }
    forall k | 0 <= k < |vs|
      ensures Row(t.nextId + k, vs[k]) in r.rows
    {
      assert r.rows[|t.rows| + k] == Row(t.nextId + k, vs[k]);
    }
  }

  /** A row left by `DeleteWhere(p)` was there before and does not satisfy `p`. */
  lemma KeptRow<R>(t: Table<R>, p: Row<R> -> bool, x: Row<R>)
    requires x in DeleteWhere(t, p).rows
    ensures x in t.rows && !p(x)
  {
    var kept := DeleteWhere(t, p);
    var i :| 0 <= i < |kept.rows| && kept.rows[i] == x;
  }

  /** `Where(cond).Delete(&X{})`: removes every row that satisfies `p`. */
  function DeleteWhere<R>(t: Table<R>, p: Row<R> -> bool): (r: Table<R>)
    ensures r.nextId == t.nextId
    ensures forall i :: 0 <= i < |r.rows| ==> r.rows[i] in t.rows && !p(r.rows[i])
    ensures forall i :: 0 <= i < |t.rows| && !p(t.rows[i]) ==> t.rows[i] in r.rows
    ensures Valid(t) ==> Valid(r)
  {
    var keep := (x: Row<R>) => !p(x);
    WhereBounded(t.rows, keep, 0, t.nextId);
    WhereAscending(t.rows, keep);
    Table(Where(t.rows, keep), t.nextId)
  }

  /** Filtering keeps every id within the bounds the rows had. */
  lemma WhereBounded<R>(rows: seq<Row<R>>, p: Row<R> -> bool, lo: int, hi: int)
    ensures Bounded(rows, lo, hi) ==> Bounded(Where(rows, p), lo, hi)
  {
    var w := Where(rows, p);
    if Bounded(rows, lo, hi) {
      forall i | 0 <= i < |w| ensures lo < w[i].id < hi {
        var k :| 0 <= k < |rows| && rows[k] == w[i];
      }
    }
  }

  /** Filtering keeps the ids ascending. */
  lemma {:induction false} WhereAscending<R>(rows: seq<Row<R>>, p: Row<R> -> bool)
    ensures Ascending(rows) ==> Ascending(Where(rows, p))
    decreases |rows|
  {
    if |rows| > 0 && Ascending(rows) {
      var tail := rows[1..];
      assert Ascending(tail);
      WhereAscending(tail, p);
      var hi := LargestId(tail) + 1;
      LargestIdBound(tail);
      assert Bounded(tail, rows[0].id, hi);
      WhereBounded(tail, p, rows[0].id, hi);
      var rest := Where(tail, p);
      if p(rows[0]) {
        assert Where(rows, p) == [rows[0]] + rest;
      }
    }
  }

  /** The largest id among `rows` (0 for none). */
  function LargestId<R>(rows: seq<Row<R>>): nat
    decreases |rows|
  {
    if |rows| == 0 then 0
    else var m := LargestId(rows[1..]); if rows[0].id > m then rows[0].id else m
  }

  lemma {:induction false} LargestIdBound<R>(rows: seq<Row<R>>)
    ensures forall i :: 0 <= i < |rows| ==> rows[i].id <= LargestId(rows)
    decreases |rows|
  {
    if |rows| > 0 {
      LargestIdBound(rows[1..]);
      assert forall i :: 1 <= i < |rows| ==> rows[i] == rows[1..][i - 1];
    }
  }

  /** `Save(&x)` of a loaded row: the row with that id takes the new value. */
  function Save<R>(t: Table<R>, row: Row<R>): (r: Table<R>)
    ensures r.nextId == t.nextId && |r.rows| == |t.rows|
    ensures forall i :: 0 <= i < |t.rows| ==>
              r.rows[i] == if t.rows[i].id == row.id then row else t.rows[i]
    ensures Valid(t) ==> Valid(r)
  {
    Table(seq(|t.rows|, i requires 0 <= i < |t.rows| => if t.rows[i].id == row.id then row else t.rows[i]), t.nextId)
  }

  /** `Limit(limit).Offset(offset)`: at most `limit` items, skipping `offset`. */
  function Window<X>(xs: seq<X>, offset: nat, limit: nat): (r: seq<X>)
    ensures |r| <= limit
    ensures offset >= |xs| ==> r == []
    ensures offset < |xs| ==> r == xs[offset..if offset + limit <= |xs| then offset + limit else |xs|]
  {
    if offset >= |xs| then []
    else if offset + limit <= |xs| then xs[offset..offset + limit]
    else xs[offset..]
  }

  /** Consecutive windows of the same rows do not overlap and leave nothing out. */
  lemma WindowsTile<X>(xs: seq<X>, offset: nat, limit: nat)
    ensures Window(xs, offset, limit) + Window(xs, offset + limit, limit) == Window(xs, offset, 2 * limit)
  {
    if offset + 2 * limit <= |xs| {
      assert xs[offset..offset + 2 * limit] == xs[offset..offset + limit] + xs[offset + limit..offset + 2 * limit];
    } else if offset + limit <= |xs| {
      assert xs[offset..] == xs[offset..offset + limit] + xs[offset + limit..];
    }
  }

  /** In a valid table a row with a given id is unique, so `First` on the id finds it. */
  lemma FirstById<R>(t: Table<R>, row: Row<R>)
    requires Valid(t) && row in t.rows
    ensures First(t.rows, (x: Row<R>) => x.id == row.id) == Some(row)
  {
    var i :| 0 <= i < |t.rows| && t.rows[i] == row;
    var r := First(t.rows, (x: Row<R>) => x.id == row.id);
    var k :| 0 <= k < |t.rows| && t.rows[k] == r.value && t.rows[k].id == row.id;
  }

  /** The row filter `id = n`. */
  function ById<R>(n: int): Row<R> -> bool {
    (x: Row<R>) => x.id == n
  }

  /** A row just created is found again by its id. */
  lemma InsertThenFind<R>(t: Table<R>, v: R)
    requires Valid(t)
    ensures First(Insert(t, v).rows, ById(t.nextId)) == Some(Row(t.nextId, v))
  {
    var r := Insert(t, v);
    var f := First(r.rows, ById(t.nextId));
    assert ById<R>(t.nextId)(r.rows[|t.rows|]);
    var k :| 0 <= k < |r.rows| && r.rows[k] == f.value && ById<R>(t.nextId)(r.rows[k]);
    assert k == |t.rows|;
  }

  /** After `Save`, the id of the saved row finds the saved value. */
  lemma SaveThenFind<R>(t: Table<R>, i: nat, v: R)
    requires Valid(t) && i < |t.rows|
    ensures First(Save(t, Row(t.rows[i].id, v)).rows, ById(t.rows[i].id)) == Some(Row(t.rows[i].id, v))
  {
    var row := Row(t.rows[i].id, v);
    var r := Save(t, row);
    assert ById<R>(row.id)(r.rows[i]);
    var f := First(r.rows, ById(row.id));
    var k :| 0 <= k < |r.rows| && r.rows[k] == f.value && ById<R>(row.id)(r.rows[k]);
  }

  /** After `DeleteWhere(p)` nothing satisfying `p` is found. */
  lemma DeleteThenFind<R>(t: Table<R>, p: Row<R> -> bool)
    ensures First(DeleteWhere(t, p).rows, p).None?
  {
  }
}
