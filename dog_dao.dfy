/** The local "dogs" table behind DogDao (data/local/DogDao.kt): `getAllDogs`
    reads every row, `insertAll` upserts a batch with REPLACE on a clashing id.
    The primary key is auto-generated (data/local/DogEntity.kt), so a row that
    arrives with id 0 is given a fresh id, one above the largest id the table
    has ever held, as SQLite's AUTOINCREMENT does. Rows come back in ascending
    id order, the order of the table's rowid. */
module LocalStore {
  import opened Failures
  import opened LocalEntity

  /** Strictly ascending ids: the table's rowid order, one row per id. */
  ghost predicate Ascending(rows: seq<DogEntity>) {
    forall i, j :: 0 <= i < j < |rows| ==> rows[i].id < rows[j].id
  }

  ghost function Ids(rows: seq<DogEntity>): set<int> {
    set i | 0 <= i < |rows| :: rows[i].id
  }

  /** The row stored under `id`, if any. */
  ghost function Lookup(rows: seq<DogEntity>, id: int): Option<DogEntity> {
    if rows == [] then None
    else if rows[0].id == id then Some(rows[0])
    else Lookup(rows[1..], id)
  }

  /** The table's rows and the largest id it has ever held (SQLite's
      `sqlite_sequence` entry for the table). */
  datatype Table = Table(rows: seq<DogEntity>, lastId: int)

  const EmptyTable := Table([], 0)

  /** Rows are ordered and unique by id, no row is stored under the "not set"
      id 0, and no id exceeds the sequence counter. */
  ghost predicate TableInv(t: Table) {
    && Ascending(t.rows)
    && 0 <= t.lastId
    && forall i :: 0 <= i < |t.rows| ==> t.rows[i].id != Unassigned && t.rows[i].id <= t.lastId
  }

  /** The row as stored: an unassigned id becomes one above the counter;
      nothing else about the row changes. */
  function WithId(t: Table, e: DogEntity): (stored: DogEntity)
    ensures stored == e.(id := stored.id)
    ensures e.id != Unassigned ==> stored == e
    ensures e.id == Unassigned ==> stored.id == t.lastId + 1
  {
    if e.id == Unassigned then e.(id := t.lastId + 1) else e
  }

  /** Puts `e` into ascending rows: it replaces the whole row with its id, or
      is inserted where its id belongs. Every row other than `e` was there
      before, and at most one row is added (`PlaceFacts` says which). */
  function Place(rows: seq<DogEntity>, e: DogEntity): (placed: seq<DogEntity>)
    ensures forall x :: x in placed ==> x == e || x in rows
    ensures |rows| <= |placed| <= |rows| + 1
  {
    if rows == [] then [e]
    else if e.id < rows[0].id then [e] + rows
    else if e.id == rows[0].id then [e] + rows[1..]
    else [rows[0]] + Place(rows[1..], e)
  }

  /** One row of `INSERT OR REPLACE`: every row other than the stored one
      was there before, and the counter covers the stored id and never goes
      down. */
  function InsertOne(t: Table, e: DogEntity): (u: Table)
    ensures forall x :: x in u.rows ==> x == WithId(t, e) || x in t.rows
    ensures t.lastId <= u.lastId && WithId(t, e).id <= u.lastId
  {
    var stored := WithId(t, e);
    Table(Place(t.rows, stored), if stored.id > t.lastId then stored.id else t.lastId)
  }

  /** A whole batch, row after row in list order: the row count grows by at
      most the batch's length, and the counter never goes down. */
  function InsertRows(t: Table, xs: seq<DogEntity>): (u: Table)
    ensures t.lastId <= u.lastId
    ensures |t.rows| <= |u.rows| <= |t.rows| + |xs|
    decreases |xs|
  {
    if xs == [] then t else InsertOne(InsertRows(t, xs[..|xs| - 1]), xs[|xs| - 1])
  }

  /** The rows an all-unassigned batch becomes: consecutive ids from `first`. */
  function Numbered(xs: seq<DogEntity>, first: int): (ys: seq<DogEntity>)
    ensures |ys| == |xs|
    ensures forall i :: 0 <= i < |xs| ==> ys[i] == xs[i].(id := first + i)
  {
    seq(|xs|, i requires 0 <= i < |xs| => xs[i].(id := first + i))
  }

  // ---------------------------------------------------------------------
  // Facts about ids and lookups in ascending rows

  lemma IdsCons(rows: seq<DogEntity>)
    requires rows != []
    ensures Ids(rows) == {rows[0].id} + Ids(rows[1..])
  {
    forall k | k in Ids(rows) ensures k in {rows[0].id} + Ids(rows[1..]) {
      var i :| 0 <= i < |rows| && rows[i].id == k;
      if i > 0 { assert rows[1..][i - 1].id == k; }
    }
    forall k | k in Ids(rows[1..]) ensures k in Ids(rows) {
      var i :| 0 <= i < |rows[1..]| && rows[1..][i].id == k;
      assert rows[i + 1].id == k;
    }
  }

  lemma IdsSnoc(xs: seq<DogEntity>)
    requires xs != []
    ensures Ids(xs) == Ids(xs[..|xs| - 1]) + {xs[|xs| - 1].id}
  {
    var n := |xs| - 1;
    forall k | k in Ids(xs) ensures k in Ids(xs[..n]) + {xs[n].id} {
      var i :| 0 <= i < |xs| && xs[i].id == k;
      if i < n { assert xs[..n][i].id == k; }
    }
    forall k | k in Ids(xs[..n]) ensures k in Ids(xs) {
      var i :| 0 <= i < n && xs[..n][i].id == k;
      assert xs[i].id == k;
    }
  }

  /** In ascending rows the first id is below every later one. */
  lemma HeadBelowTail(rows: seq<DogEntity>)
    requires Ascending(rows) && rows != []
    ensures forall k :: k in Ids(rows[1..]) ==> rows[0].id < k
  {
    forall k | k in Ids(rows[1..]) ensures rows[0].id < k {
      var i :| 0 <= i < |rows[1..]| && rows[1..][i].id == k;
      assert rows[i + 1].id == k;
    }
  }

  /** In ascending rows, an id is found exactly when it is one of the ids,
      and what is found carries that id. */
  lemma {:induction false} LookupIds(rows: seq<DogEntity>, k: int)
    requires Ascending(rows)
    ensures Lookup(rows, k).Some? <==> k in Ids(rows)
    ensures Lookup(rows, k).Some? ==> Lookup(rows, k).value.id == k
  {
    if rows != [] {
      IdsCons(rows);
      LookupIds(rows[1..], k);
    }
  }

  /** The upsert of a single row adds `e.id` to the ids and no other id. */
  lemma {:induction false} PlaceIds(rows: seq<DogEntity>, e: DogEntity)
    ensures Ids(Place(rows, e)) == Ids(rows) + {e.id}
  {
    var p := Place(rows, e);
    IdsCons(p);
    if rows != [] {
      IdsCons(rows);
      if e.id < rows[0].id {
        assert p[1..] == rows;
      } else if e.id == rows[0].id {
        assert p[1..] == rows[1..];
      } else {
        PlaceIds(rows[1..], e);
        assert p[1..] == Place(rows[1..], e);
      }
    }
  }

  /** `e` replaces whatever was stored under its id; every other id keeps its row. */
  lemma {:induction false} PlaceLookup(rows: seq<DogEntity>, e: DogEntity, k: int)
    ensures Lookup(Place(rows, e), k) == if k == e.id then Some(e) else Lookup(rows, k)
  {
    var p := Place(rows, e);
    if rows != [] {
      if e.id < rows[0].id {
        assert p[1..] == rows;
      } else if e.id == rows[0].id {
        assert p[1..] == rows[1..];
      } else {
        PlaceLookup(rows[1..], e, k);
        assert p[1..] == Place(rows[1..], e);
      }
    }
  }

  /** The row count grows only when the id is new. */
  lemma {:induction false} PlaceLength(rows: seq<DogEntity>, e: DogEntity)
    requires Ascending(rows)
    ensures |Place(rows, e)| == if e.id in Ids(rows) then |rows| else |rows| + 1
  {
    if rows != [] {
      IdsCons(rows);
      if e.id < rows[0].id {
        HeadBelowTail(rows);
      } else if e.id > rows[0].id {
        PlaceLength(rows[1..], e);
      }
    }
  }

  /** Ascending order (one row per id) survives an upsert. */
  lemma {:induction false} PlaceAscending(rows: seq<DogEntity>, e: DogEntity)
    requires Ascending(rows)
    ensures Ascending(Place(rows, e))
  {
    var p := Place(rows, e);
    if rows != [] && e.id > rows[0].id {
      var rest := Place(rows[1..], e);
      PlaceAscending(rows[1..], e);
      PlaceIds(rows[1..], e);
      assert p == [rows[0]] + rest;
      HeadBelowTail(rows);
      forall j | 0 <= j < |rest| ensures rows[0].id < rest[j].id {
        assert rest[j].id in Ids(rest);
      }
    }
  }

  /** The upsert of a single row, all facts together. */
  lemma PlaceFacts(rows: seq<DogEntity>, e: DogEntity)
    requires Ascending(rows)
    ensures Ascending(Place(rows, e))
    ensures Ids(Place(rows, e)) == Ids(rows) + {e.id}
    ensures |Place(rows, e)| == if e.id in Ids(rows) then |rows| else |rows| + 1
    ensures forall k :: Lookup(Place(rows, e), k) == if k == e.id then Some(e) else Lookup(rows, k)
  {
    PlaceAscending(rows, e);
    PlaceIds(rows, e);
    PlaceLength(rows, e);
    forall k ensures Lookup(Place(rows, e), k) == if k == e.id then Some(e) else Lookup(rows, k) {
      PlaceLookup(rows, e, k);
    }
  }

  /** A row whose id is above every stored id lands at the end. */
  lemma {:induction false} PlaceAfterAll(rows: seq<DogEntity>, e: DogEntity)
    requires forall i :: 0 <= i < |rows| ==> rows[i].id < e.id
    ensures Place(rows, e) == rows + [e]
  {
    if rows != [] {
      PlaceAfterAll(rows[1..], e);
      assert rows == [rows[0]] + rows[1..];
    }
  }

  // ---------------------------------------------------------------------
  // The table invariant and what insertAll does to it

  /** An unassigned row is given an id that no stored row has. */
  lemma AutoIdIsFresh(t: Table, e: DogEntity)
    requires TableInv(t) && e.id == Unassigned
    ensures WithId(t, e).id != Unassigned && WithId(t, e).id !in Ids(t.rows)
    ensures WithId(t, e) == e.(id := t.lastId + 1)
  {
  }

  lemma InsertOneKeepsInv(t: Table, e: DogEntity)
    requires TableInv(t)
    ensures TableInv(InsertOne(t, e))
    ensures t.lastId <= InsertOne(t, e).lastId
  {
    var stored := WithId(t, e);
    PlaceFacts(t.rows, stored);
    var u := InsertOne(t, e);
    forall i | 0 <= i < |u.rows| ensures u.rows[i].id != Unassigned && u.rows[i].id <= u.lastId {
      assert u.rows[i].id in Ids(u.rows);
      if u.rows[i].id != stored.id {
        var j :| 0 <= j < |t.rows| && t.rows[j].id == u.rows[i].id;
      }
    }
  }

  /** Whatever is inserted, the table stays ordered and unique by id, and the
      sequence counter never goes down. */
  lemma {:induction false} InsertRowsKeepsInv(t: Table, xs: seq<DogEntity>)
    requires TableInv(t)
    ensures TableInv(InsertRows(t, xs))
    ensures t.lastId <= InsertRows(t, xs).lastId
  {
    if xs != [] {
      InsertRowsKeepsInv(t, xs[..|xs| - 1]);
      InsertOneKeepsInv(InsertRows(t, xs[..|xs| - 1]), xs[|xs| - 1]);
    }
  }

  /** `insertAll([])` changes nothing. */
  lemma InsertNothing(t: Table)
    ensures InsertRows(t, []) == t
  {
  }

  /** Rows whose ids the batch does not name are untouched: a batch only ever
      adds or replaces rows under its own explicit ids or under fresh ones. */
  lemma {:induction false} OtherRowsUntouched(t: Table, xs: seq<DogEntity>, k: int)
    requires TableInv(t) && k in Ids(t.rows)
    requires forall x :: x in xs ==> x.id != k
    ensures k in Ids(InsertRows(t, xs).rows)
    ensures Lookup(InsertRows(t, xs).rows, k) == Lookup(t.rows, k)
  {
    if xs != [] {
      var front := xs[..|xs| - 1];
      var before := InsertRows(t, front);
      assert forall x :: x in front ==> x in xs;
      OtherRowsUntouched(t, front, k);
      InsertRowsKeepsInv(t, front);
      var stored := WithId(before, xs[|xs| - 1]);
      assert stored.id != k by {
        var i :| 0 <= i < |before.rows| && before.rows[i].id == k;
      }
      PlaceFacts(before.rows, stored);
    }
  }

  /** Re-inserting an existing id replaces the whole row and keeps the count. */
  lemma ReplaceOnClash(t: Table, e: DogEntity)
    requires TableInv(t) && e.id != Unassigned && e.id in Ids(t.rows)
    ensures |InsertRows(t, [e]).rows| == |t.rows|
    ensures Ids(InsertRows(t, [e]).rows) == Ids(t.rows)
    ensures Lookup(InsertRows(t, [e]).rows, e.id) == Some(e)
  {
    assert [e][..0] == [];
    PlaceFacts(t.rows, e);
  }

  /** No two rows of a batch share an id. */
  ghost predicate DistinctIds(xs: seq<DogEntity>) {
    forall i, j :: 0 <= i < j < |xs| ==> xs[i].id != xs[j].id
  }

  lemma LastIdIsNew(xs: seq<DogEntity>)
    requires DistinctIds(xs) && xs != []
    ensures xs[|xs| - 1].id !in Ids(xs[..|xs| - 1])
  {
    var n := |xs| - 1;
    forall k | k in Ids(xs[..n]) ensures k != xs[n].id {
      var i :| 0 <= i < n && xs[..n][i].id == k;
      assert xs[i].id == k;
    }
  }

  /** A batch of new, distinct, explicit ids accumulates: every row of the
      batch is stored as given, the id set is the union and the count the sum. */
  lemma {:induction false} FreshBatchAccumulates(t: Table, xs: seq<DogEntity>)
    requires TableInv(t) && DistinctIds(xs)
    requires forall i :: 0 <= i < |xs| ==> xs[i].id != Unassigned && xs[i].id !in Ids(t.rows)
    ensures |InsertRows(t, xs).rows| == |t.rows| + |xs|
    ensures Ids(InsertRows(t, xs).rows) == Ids(t.rows) + Ids(xs)
    ensures forall i :: 0 <= i < |xs| ==> Lookup(InsertRows(t, xs).rows, xs[i].id) == Some(xs[i])
  {
    if xs != [] {
      var n := |xs| - 1;
      var front, last := xs[..n], xs[n];
      assert DistinctIds(front);
      FreshBatchAccumulates(t, front);
      InsertRowsKeepsInv(t, front);
      var before := InsertRows(t, front);
      assert InsertRows(t, xs) == InsertOne(before, last);
      assert WithId(before, last) == last;
      IdsSnoc(xs);
      LastIdIsNew(xs);
      PlaceLength(before.rows, last);
      PlaceIds(before.rows, last);
      forall i | 0 <= i < |xs| ensures Lookup(InsertRows(t, xs).rows, xs[i].id) == Some(xs[i]) {
        PlaceLookup(before.rows, last, xs[i].id);
        if i < n { assert xs[i] == front[i]; }
      }
    }
  }

  /** An unassigned row goes after every stored row, under counter + 1. */
  lemma UnassignedRowAppends(t: Table, e: DogEntity)
    requires TableInv(t) && e.id == Unassigned
    ensures InsertOne(t, e) == Table(t.rows + [e.(id := t.lastId + 1)], t.lastId + 1)
  {
    PlaceAfterAll(t.rows, WithId(t, e));
  }

  /** An all-unassigned batch (what the repository writes) is appended after
      the existing rows, numbered consecutively from one above the counter. */
  lemma {:induction false} UnassignedBatchAppends(t: Table, xs: seq<DogEntity>)
    requires TableInv(t)
    requires forall i :: 0 <= i < |xs| ==> xs[i].id == Unassigned
    ensures InsertRows(t, xs) == Table(t.rows + Numbered(xs, t.lastId + 1), t.lastId + |xs|)
  {
    if xs != [] {
      var n := |xs| - 1;
      var front := xs[..n];
      UnassignedBatchAppends(t, front);
      InsertRowsKeepsInv(t, front);
      var before := InsertRows(t, front);
      assert InsertRows(t, xs) == InsertOne(before, xs[n]);
      UnassignedRowAppends(before, xs[n]);
      var numbered := Numbered(xs, t.lastId + 1);
      assert numbered == Numbered(front, t.lastId + 1) + [xs[n].(id := t.lastId + 1 + n)] by {
        assert numbered[..n] == Numbered(front, t.lastId + 1);
        assert numbered == numbered[..n] + [numbered[n]];
      }
    }
  }

  /** The DAO test that inserts ids 3, 1, 2 reads them back as 1, 2, 3. */
  lemma AscendingWhateverInsertionOrder()
    ensures
      var third := DogEntity(3, "Third", "Third dog", 3, "url3");
      var first := DogEntity(1, "First", "First dog", 1, "url1");
      var second := DogEntity(2, "Second", "Second dog", 2, "url2");
      InsertRows(EmptyTable, [third, first, second]).rows == [first, second, third]
  {
    var third := DogEntity(3, "Third", "Third dog", 3, "url3");
    var first := DogEntity(1, "First", "First dog", 1, "url1");
    var second := DogEntity(2, "Second", "Second dog", 2, "url2");
    var xs := [third, first, second];
    assert xs[..2] == [third, first] && xs[..2][..1] == [third] && xs[..1] == [third];
    assert InsertRows(EmptyTable, [third]).rows == [third];
    assert InsertRows(EmptyTable, [third, first]).rows == [first, third];
  }

  // ---------------------------------------------------------------------
  // The DAO itself

  class DogDao {
    var rows: seq<DogEntity>
    var lastId: int
    /** How many times `getAllDogs` has been called. */
    ghost var getAllDogsCalls: nat
    /** The batch of every `insertAll` call so far, in call order, whether it
        succeeded or not. */
    ghost var insertAllBatches: seq<seq<DogEntity>>

    /** The table as a value: its rows and its sequence counter. */
    function Contents(): Table
      reads this
    {
      Table(rows, lastId)
    }

    ghost predicate Valid()
      reads this
    {
      TableInv(Contents())
    }

    /** A freshly created database: no rows, the counter at 0, no calls yet. */
    constructor ()
      ensures Valid() && Contents() == EmptyTable
      ensures getAllDogsCalls == 0 && insertAllBatches == []
    {
      rows := [];
      lastId := 0;
      getAllDogsCalls := 0;
      insertAllBatches := [];
    }

    /** `SELECT * FROM dogs`: every row in ascending id order, or the failure
        of the read. Reading changes no row. */
    method GetAllDogs(fault: Option<Failure>) returns (r: Result<seq<DogEntity>>)
      requires Valid()
      modifies this`getAllDogsCalls
      ensures Valid() && Contents() == old(Contents())
      ensures getAllDogsCalls == old(getAllDogsCalls) + 1
      ensures fault.Some? ==> r == Err(fault.value)
      ensures fault.None? ==> r == Ok(rows) && Ascending(r.value)
      ensures fault.None? && rows == [] ==> r == Ok([])
    {
      getAllDogsCalls := getAllDogsCalls + 1;
      if fault.Some? {
        return Err(fault.value);
      }
      r := Ok(rows);
    }

    /** `@Insert(onConflict = REPLACE)` over a list, row by row in one
        transaction: on a failure nothing is written. */
    method InsertAll(dogs: seq<DogEntity>, fault: Option<Failure>) returns (r: Result<()>)
      requires Valid()
      modifies this
      ensures Valid()
      ensures getAllDogsCalls == old(getAllDogsCalls) && insertAllBatches == old(insertAllBatches) + [dogs]
      ensures fault.Some? ==> r == Err(fault.value) && Contents() == old(Contents())
      ensures fault.None? ==> r == Ok(()) && Contents() == InsertRows(old(Contents()), dogs)
    {
      insertAllBatches := insertAllBatches + [dogs];
      if fault.Some? {
        return Err(fault.value);
      }
      var i := 0;
      while i < |dogs|
        invariant 0 <= i <= |dogs|
        invariant Valid()
        invariant getAllDogsCalls == old(getAllDogsCalls) && insertAllBatches == old(insertAllBatches) + [dogs]
        invariant Contents() == InsertRows(old(Contents()), dogs[..i])
      {
        assert dogs[..i + 1][..i] == dogs[..i];
        InsertOneKeepsInv(Contents(), dogs[i]);
        var stored := WithId(Contents(), dogs[i]);
        rows := Place(rows, stored);
        if stored.id > lastId {
          lastId := stored.id;
        }
        i := i + 1;
      }
      assert dogs[..i] == dogs;
      r := Ok(());
    }
  }
}
