/** The database as the handlers see it through the ORM: each table is a
    sequence of rows in ascending primary-key order, each row carrying the
    soft-delete marker. A query is either scoped (the ORM's default, which
    hides soft-deleted rows) or unscoped (`Unscoped()`, which shows them). */
module Tables {
  import opened Base

  /** A row of a model that embeds the ORM's base model: UUID primary key, the two
      timestamps the ORM maintains, the soft-delete marker (None while the row is
      live) and the model's own columns. */
  datatype Row<T> = Row(id: Uuid, createdAt: int, updatedAt: int, deletedAt: Option<int>, fields: T)
  {
    predicate Live() { deletedAt.None? }
  }

  datatype Scope = Scoped | Unscoped

  /** Whether a query with the given scope sees the row. */
  predicate Visible<T>(r: Row<T>, scope: Scope)
  {
    scope.Unscoped? || r.Live()
  }

  /** Whether the row is one the query `WHERE p` under `scope` returns. */
  predicate Hit<T>(r: Row<T>, scope: Scope, p: Row<T> -> bool)
  {
    Visible(r, scope) && p(r)
  }

  type Table<T> = seq<Row<T>>

  /** Rows are kept in strictly ascending id order; so ids are unique. */
  ghost predicate Ordered<T>(t: Table<T>)
  {
    forall i, j :: 0 <= i < j < |t| ==> IdLess(t[i].id, t[j].id)
  }

  predicate HasId<T>(t: Table<T>, id: string)
  {
    exists i :: 0 <= i < |t| && t[i].id == id
  }

  /** The query `WHERE id = ?`. */
  function ById<T>(id: string): Row<T> -> bool
  {
    (r: Row<T>) => r.id == id
  }

  /** Position of the row `First` returns: the first hit in primary-key order. */
  function FirstIndex<T>(t: Table<T>, scope: Scope, p: Row<T> -> bool): (r: Option<nat>)
    ensures r.Some? ==> r.value < |t| && Hit(t[r.value], scope, p)
    ensures r.Some? ==> forall j :: 0 <= j < r.value ==> !Hit(t[j], scope, p)
    ensures r.None? <==> forall j :: 0 <= j < |t| ==> !Hit(t[j], scope, p)
    decreases |t|
  {
    if |t| == 0 then None
    else if Hit(t[0], scope, p) then Some(0)
    else match FirstIndex(t[1..], scope, p)
      case None => None
      case Some(i) => Some(i + 1)
  }

  /** The first hit is where `FirstIndex` points. */
  lemma FirstIndexAt<T>(t: Table<T>, scope: Scope, p: Row<T> -> bool, i: int)
    requires 0 <= i < |t| && Hit(t[i], scope, p) && forall j :: 0 <= j < i ==> !Hit(t[j], scope, p)
    ensures FirstIndex(t, scope, p) == Some(i)
  {
  }

  /** `First`: the first row in primary-key order that the query returns, if any. */
  function First<T>(t: Table<T>, scope: Scope, p: Row<T> -> bool): (r: Option<Row<T>>)
    ensures r.None? <==> forall j :: 0 <= j < |t| ==> !Hit(t[j], scope, p)
    ensures r.Some? ==> exists i :: 0 <= i < |t| && t[i] == r.value && Hit(t[i], scope, p)
                                    && forall j :: 0 <= j < i ==> !Hit(t[j], scope, p)
  {
    match FirstIndex(t, scope, p)
    case None => None
    case Some(i) => Some(t[i])
  }

  /** `Find`: every row the query returns. The query has no `ORDER BY`, so the
      order is the store's; this model yields the rows in table order, and no
      contract depends on it. */
  function FindAll<T>(t: Table<T>, scope: Scope, p: Row<T> -> bool): (r: Table<T>)
    ensures forall i :: 0 <= i < |r| ==> r[i] in t && Hit(r[i], scope, p)
    ensures forall j :: 0 <= j < |t| && Hit(t[j], scope, p) ==> t[j] in r
    ensures |r| <= |t|
    decreases |t|
  {
    if |t| == 0 then []
    else if Hit(t[0], scope, p) then [t[0]] + FindAll(t[1..], scope, p)
    else FindAll(t[1..], scope, p)
  }

  /** `views` lists the rows the query returns, each rendered by `f`: every entry
      renders some returned row, and every returned row is rendered by some entry. */
  ghost predicate Lists<T, V>(t: Table<T>, scope: Scope, p: Row<T> -> bool, f: Row<T> -> V, views: seq<V>)
  {
    && (forall j :: 0 <= j < |views| ==> exists i :: 0 <= i < |t| && Hit(t[i], scope, p) && views[j] == f(t[i]))
    && (forall i :: 0 <= i < |t| && Hit(t[i], scope, p) ==> exists j :: 0 <= j < |views| && views[j] == f(t[i]))
  }

  /** `Find` followed by rendering each row, in the order `Find` returns them. */
  function Select<T, V>(t: Table<T>, scope: Scope, p: Row<T> -> bool, f: Row<T> -> V): (r: seq<V>)
    ensures Lists(t, scope, p, f, r)
    ensures |r| <= |t|
  {
    var found := FindAll(t, scope, p);
    var r := seq(|found|, j requires 0 <= j < |found| => f(found[j]));
    RenderedListsFound(t, scope, p, f, found, r);
    r
  }

  lemma RenderedListsFound<T, V>(t: Table<T>, scope: Scope, p: Row<T> -> bool, f: Row<T> -> V,
                                 found: Table<T>, r: seq<V>)
    requires found == FindAll(t, scope, p)
    requires |r| == |found| && forall j :: 0 <= j < |found| ==> r[j] == f(found[j])
    ensures Lists(t, scope, p, f, r)
  {
    forall j | 0 <= j < |r|
      ensures exists i :: 0 <= i < |t| && Hit(t[i], scope, p) && r[j] == f(t[i])
    {
      var i := FoundAt(t, scope, p, j);
      assert 0 <= i < |t| && Hit(t[i], scope, p) && r[j] == f(t[i]);
    }
    forall i | 0 <= i < |t| && Hit(t[i], scope, p)
      ensures exists j :: 0 <= j < |r| && r[j] == f(t[i])
    {
      var j := PlaceInFound(t, scope, p, i);
      assert 0 <= j < |r| && r[j] == f(t[i]);
    }
  }

  /** Each row `Find` returns sits at some position of the table. */
  lemma FoundAt<T>(t: Table<T>, scope: Scope, p: Row<T> -> bool, j: int) returns (i: int)
    requires 0 <= j < |FindAll(t, scope, p)|
    ensures 0 <= i < |t| && t[i] == FindAll(t, scope, p)[j] && Hit(t[i], scope, p)
  {
    var found := FindAll(t, scope, p);
    assert found[j] in t;
    i :| 0 <= i < |t| && t[i] == found[j];
  }

  /** Each row the query selects is among those `Find` returns. */
  lemma PlaceInFound<T>(t: Table<T>, scope: Scope, p: Row<T> -> bool, i: int) returns (j: int)
    requires 0 <= i < |t| && Hit(t[i], scope, p)
    ensures 0 <= j < |FindAll(t, scope, p)| && FindAll(t, scope, p)[j] == t[i]
  {
    var found := FindAll(t, scope, p);
    assert t[i] in found;
    j :| 0 <= j < |found| && found[j] == t[i];
  }

  /** Rendering rows one by one where a rendering can fail: the first failure
      aborts the whole listing. */
  function MapAll<T, V>(rows: seq<Row<T>>, f: Row<T> -> Option<V>): (r: Option<seq<V>>)
    ensures r.None? <==> exists i :: 0 <= i < |rows| && f(rows[i]).None?
    ensures r.Some? ==> |r.value| == |rows| && forall i :: 0 <= i < |rows| ==> f(rows[i]) == Some(r.value[i])
    decreases |rows|
  {
    if |rows| == 0 then Some([])
    else
      assert forall i :: 1 <= i < |rows| ==> rows[1..][i - 1] == rows[i];
      match f(rows[0])
      case None => None
      case Some(v) =>
        match MapAll(rows[1..], f)
        case None => None
        case Some(rest) => Some([v] + rest)
  }

  /** Every entry of `views` renders, by the partial `f`, a row the query returns. */
  ghost predicate ListsOnly<T, V>(t: Table<T>, scope: Scope, p: Row<T> -> bool, f: Row<T> -> Option<V>, views: seq<V>)
  {
    forall j :: 0 <= j < |views| ==> exists i :: 0 <= i < |t| && Hit(t[i], scope, p) && f(t[i]) == Some(views[j])
  }

  /** Every row the query returns is rendered by some entry of `views`. */
  ghost predicate ListsEvery<T, V>(t: Table<T>, scope: Scope, p: Row<T> -> bool, f: Row<T> -> Option<V>, views: seq<V>)
  {
    forall i :: 0 <= i < |t| && Hit(t[i], scope, p) ==> exists j :: 0 <= j < |views| && f(t[i]) == Some(views[j])
  }

  /** `views` lists exactly the rows the query returns, each rendered by the partial `f`. */
  ghost predicate ListsAll<T, V>(t: Table<T>, scope: Scope, p: Row<T> -> bool, f: Row<T> -> Option<V>, views: seq<V>)
  {
    ListsOnly(t, scope, p, f, views) && ListsEvery(t, scope, p, f, views)
  }

  /** The entry of `views` that renders a row the query selects. */
  lemma EntryOf<T, V>(t: Table<T>, scope: Scope, p: Row<T> -> bool, f: Row<T> -> Option<V>, views: seq<V>, i: int)
    returns (j: int)
    requires ListsEvery(t, scope, p, f, views)
    requires 0 <= i < |t| && Hit(t[i], scope, p)
    ensures 0 <= j < |views| && f(t[i]) == Some(views[j])
  {
    j :| 0 <= j < |views| && f(t[i]) == Some(views[j]);
  }

  /** `Find`, then render every returned row, failing as soon as one rendering fails. */
  function SelectAll<T, V>(t: Table<T>, scope: Scope, p: Row<T> -> bool, f: Row<T> -> Option<V>): (r: Option<seq<V>>)
    ensures r.None? <==> exists i :: 0 <= i < |t| && Hit(t[i], scope, p) && f(t[i]).None?
    ensures r.Some? ==> ListsAll(t, scope, p, f, r.value)
  {
    var found := FindAll(t, scope, p);
    var r := MapAll(found, f);
    SelectAllFails(t, scope, p, f);
    if r.Some? then
      SelectAllSound(t, scope, p, f, r.value);
      SelectAllComplete(t, scope, p, f, r.value);
      r
    else r
  }

  lemma SelectAllFails<T, V>(t: Table<T>, scope: Scope, p: Row<T> -> bool, f: Row<T> -> Option<V>)
    ensures MapAll(FindAll(t, scope, p), f).None? <==> exists i :: 0 <= i < |t| && Hit(t[i], scope, p) && f(t[i]).None?
  {
    var found := FindAll(t, scope, p);
    if MapAll(found, f).None? {
      var j :| 0 <= j < |found| && f(found[j]).None?;
      var i := FoundAt(t, scope, p, j);
      assert 0 <= i < |t| && Hit(t[i], scope, p) && f(t[i]).None?;
    } else {
      forall i | 0 <= i < |t| && Hit(t[i], scope, p)
        ensures f(t[i]).Some?
      {
        var j := PlaceInFound(t, scope, p, i);
      }
    }
  }

  lemma SelectAllSound<T, V>(t: Table<T>, scope: Scope, p: Row<T> -> bool, f: Row<T> -> Option<V>, r: seq<V>)
    requires MapAll(FindAll(t, scope, p), f) == Some(r)
    ensures ListsOnly(t, scope, p, f, r)
  {
    forall j | 0 <= j < |r|
      ensures exists i :: 0 <= i < |t| && Hit(t[i], scope, p) && f(t[i]) == Some(r[j])
    {
      var i := FoundAt(t, scope, p, j);
      assert 0 <= i < |t| && Hit(t[i], scope, p) && f(t[i]) == Some(r[j]);
    }
  }

  lemma SelectAllComplete<T, V>(t: Table<T>, scope: Scope, p: Row<T> -> bool, f: Row<T> -> Option<V>, r: seq<V>)
    requires MapAll(FindAll(t, scope, p), f) == Some(r)
    ensures ListsEvery(t, scope, p, f, r)
  {
    forall i | 0 <= i < |t| && Hit(t[i], scope, p)
      ensures exists j :: 0 <= j < |r| && f(t[i]) == Some(r[j])
    {
      var j := PlaceInFound(t, scope, p, i);
      assert 0 <= j < |r| && f(t[i]) == Some(r[j]);
    }
  }

  /** `INSERT`: the new row takes its place in primary-key order. */
  function Insert<T>(t: Table<T>, row: Row<T>): (r: Table<T>)
    ensures multiset(r) == multiset(t) + multiset{row}
    decreases |t|
  {
    if |t| == 0 then [row]
    else if IdLess(row.id, t[0].id) then [row] + t
    else
      assert t == [t[0]] + t[1..];
      [t[0]] + Insert(t[1..], row)
  }

  /** `UPDATE ... WHERE p` under `scope`: every returned row is rewritten by `f`,
      every other row is left as it was. */
  function Modify<T>(t: Table<T>, scope: Scope, p: Row<T> -> bool, f: Row<T> -> Row<T>): (r: Table<T>)
    ensures |r| == |t|
    ensures forall i :: 0 <= i < |t| && Hit(t[i], scope, p) ==> r[i] == f(t[i])
    ensures forall i :: 0 <= i < |t| && !Hit(t[i], scope, p) ==> r[i] == t[i]
  {
    seq(|t|, i requires 0 <= i < |t| => if Hit(t[i], scope, p) then f(t[i]) else t[i])
  }

  lemma OrderedIdsDistinct<T>(t: Table<T>, i: int, j: int)
    requires Ordered(t) && 0 <= i < |t| && 0 <= j < |t| && i != j
    ensures t[i].id != t[j].id
  {
    if i < j {
      IdLessIrreflexive(t[i].id);
    } else {
      IdLessIrreflexive(t[j].id);
    }
  }

  /** In an ordered table a row is the only one with its id, so `First` by id
      returns it exactly when the scope lets the query see it. */
  lemma FirstById<T>(t: Table<T>, scope: Scope, k: int)
    requires Ordered(t) && 0 <= k < |t|
    ensures First(t, scope, ById(t[k].id)) == if Visible(t[k], scope) then Some(t[k]) else None
  {
    forall j | 0 <= j < |t| && j != k
      ensures !Hit(t[j], scope, ById(t[k].id))
    {
      OrderedIdsDistinct(t, j, k);
    }
  }

  lemma {:induction false} InsertOrdered<T>(t: Table<T>, row: Row<T>)
    requires Ordered(t) && !HasId(t, row.id)
    ensures Ordered(Insert(t, row))
    decreases |t|
  {
    if |t| == 0 {
    } else if IdLess(row.id, t[0].id) {
      var r := [row] + t;
      forall i, j | 0 <= i < j < |r|
        ensures IdLess(r[i].id, r[j].id)
      {
        if i == 0 && j > 1 {
          IdLessTransitive(row.id, t[0].id, t[j - 1].id);
        }
      }
    } else {
      var tail := t[1..];
      assert Ordered(tail);
      assert !HasId(tail, row.id) by {
        forall k | 0 <= k < |tail| ensures tail[k].id != row.id {
          assert tail[k] == t[k + 1];
        }
      }
      InsertOrdered(tail, row);
      var rest := Insert(tail, row);
      assert t[0].id != row.id;
      IdLessTotal(row.id, t[0].id);
      var r := [t[0]] + rest;
      forall i, j | 0 <= i < j < |r|
        ensures IdLess(r[i].id, r[j].id)
      {
        if i == 0 {
          var x := rest[j - 1];
          assert x in multiset(rest);
          if x != row {
            assert x in multiset(tail);
            var k :| 0 <= k < |tail| && tail[k] == x;
            assert x == t[k + 1];
          }
        } else {
          assert r[i] == rest[i - 1] && r[j] == rest[j - 1];
        }
      }
    }
  }

  /** Insertion places the new row at one position and shifts the rest. */
  lemma {:induction false} InsertSplit<T>(t: Table<T>, row: Row<T>) returns (m: int)
    ensures 0 <= m <= |t| && Insert(t, row) == t[..m] + [row] + t[m..]
    decreases |t|
  {
    if |t| == 0 || IdLess(row.id, t[0].id) {
      m := 0;
    } else {
      var m' := InsertSplit(t[1..], row);
      m := m' + 1;
      assert t[1..][..m'] == t[1..m];
      assert t[1..][m'..] == t[m..];
      assert [t[0]] + t[1..m] == t[..m];
    }
  }

  lemma InsertMember<T>(t: Table<T>, row: Row<T>, x: Row<T>)
    ensures x in Insert(t, row) <==> x == row || x in t
  {
    assert x in Insert(t, row) <==> x in multiset(Insert(t, row));
    assert x in t <==> x in multiset(t);
  }

  lemma ModifyOrdered<T>(t: Table<T>, scope: Scope, p: Row<T> -> bool, f: Row<T> -> Row<T>)
    requires forall i :: 0 <= i < |t| ==> f(t[i]).id == t[i].id
    ensures Ordered(t) ==> Ordered(Modify(t, scope, p, f))
  {
  }

  /** A new row with a fresh id is the only row of the grown table with that id. */
  lemma InsertHasId<T>(t: Table<T>, row: Row<T>, id: string)
    ensures HasId(Insert(t, row), id) <==> HasId(t, id) || row.id == id
  {
    var r := Insert(t, row);
    if HasId(r, id) {
      var k :| 0 <= k < |r| && r[k].id == id;
      assert r[k] in multiset(r);
      if r[k] != row {
        assert r[k] in multiset(t);
        assert r[k] in t;
      }
    }
    if HasId(t, id) {
      var k :| 0 <= k < |t| && t[k].id == id;
      assert t[k] in multiset(r);
      assert t[k] in r;
    }
    if row.id == id {
      assert row in multiset(r);
      assert row in r;
    }
  }
}
