/** Counting the rows of supported tables, and what a listing shows of them:
    internal/dokploydb/postgres.go. */
module Tallies {
  import opened Wrappers
  import opened Text
  import opened Model
  import opened Sorting
  import opened Tables
  import opened Rendering
  import opened Retarget
  import opened Listing

  // -------------------------------------------------------------- counting rows

  type Test = (SupportedTable, Row) -> bool

  function Indices(test: Test, table: SupportedTable, rows: seq<Row>): set<nat> {
    set i: nat | i < |rows| && test(table, rows[i])
  }

  /** How many rows of the given tables pass a test. */
  function Tally(db: Dokploy, tables: seq<SupportedTable>, test: Test): nat {
    if tables == [] then 0
    else
      var n := |tables| - 1;
      Tally(db, tables[..n], test) + |Indices(test, tables[n], RowsOf(db, tables[n].name))|
  }

  function HeldBy(slot: Option<string>): Test {
    (_, row) => Cell(row, SERVER_COLUMN) == slot
  }

  /** The row is on the server and its listing entry, passed through `g`, is `x`. */
  function Shows<X(==)>(slot: Option<string>, serverID: string, g: Resource -> X, x: X): Test {
    (table, row) => Cell(row, SERVER_COLUMN) == slot && g(Render(table, row, serverID)) == x
  }

  lemma {:induction false} TallyZero(db: Dokploy, tables: seq<SupportedTable>, test: Test, t: SupportedTable, i: nat)
    requires Tally(db, tables, test) == 0 && t in tables && i < |RowsOf(db, t.name)|
    ensures !test(t, RowsOf(db, t.name)[i])
  {
    var n := |tables| - 1;
    if t == tables[n] {
      assert Indices(test, t, RowsOf(db, t.name)) == {};
      assert test(t, RowsOf(db, t.name)[i]) ==> i in Indices(test, t, RowsOf(db, t.name));
    } else {
      TallyZero(db, tables[..n], test, t, i);
    }
  }

  lemma {:induction false} TallyNone(db: Dokploy, tables: seq<SupportedTable>, test: Test)
    requires forall t <- tables, i | 0 <= i < |RowsOf(db, t.name)| :: !test(t, RowsOf(db, t.name)[i])
    ensures Tally(db, tables, test) == 0
  {
    if tables != [] {
      var n := |tables| - 1;
      TallyNone(db, tables[..n], test);
      assert Indices(test, tables[n], RowsOf(db, tables[n].name)) == {};
    }
  }

  lemma {:induction false} TallyWitness(db: Dokploy, tables: seq<SupportedTable>, test: Test)
    returns (t: SupportedTable, i: nat)
    requires Tally(db, tables, test) > 0
    ensures t in tables && i < |RowsOf(db, t.name)| && test(t, RowsOf(db, t.name)[i])
  {
    var n := |tables| - 1;
    var here := Indices(test, tables[n], RowsOf(db, tables[n].name));
    if |here| > 0 {
      t := tables[n];
      i :| i in here;
    } else {
      t, i := TallyWitness(db, tables[..n], test);
    }
  }

  /** A test that picks only one fixed row of distinctly named tables counts at most one. */
  lemma {:induction false} TallyAtMostOne(
    db: Dokploy, tables: seq<SupportedTable>, test: Test, t: SupportedTable, i: nat)
    requires DistinctNames(tables)
    requires forall u, j: nat | u in tables && j < |RowsOf(db, u.name)| && test(u, RowsOf(db, u.name)[j]) :: u == t && j == i
    ensures Tally(db, tables, test) <= 1
    ensures t !in tables ==> Tally(db, tables, test) == 0
  {
    if tables != [] {
      var n := |tables| - 1;
      TallyAtMostOne(db, tables[..n], test, t, i);
      var here := Indices(test, tables[n], RowsOf(db, tables[n].name));
      if tables[n] == t {
        if here != {} {
          assert here == {i};
        }
        assert t !in tables[..n];
      } else {
        assert here == {};
      }
    }
  }

  lemma {:induction false} TallySplits(
    db: Dokploy, after: Dokploy, tables: seq<SupportedTable>, test: Test, a: Test, b: Test)
    requires forall t <- tables :: |RowsOf(after, t.name)| == |RowsOf(db, t.name)|
    requires forall t <- tables, i | 0 <= i < |RowsOf(db, t.name)| ::
      && (test(t, RowsOf(after, t.name)[i]) <==> a(t, RowsOf(db, t.name)[i]) || b(t, RowsOf(db, t.name)[i]))
      && !(a(t, RowsOf(db, t.name)[i]) && b(t, RowsOf(db, t.name)[i]))
    ensures Tally(after, tables, test) == Tally(db, tables, a) + Tally(db, tables, b)
  {
    if tables != [] {
      var n := |tables| - 1;
      TallySplits(db, after, tables[..n], test, a, b);
      var t, rows, rows' := tables[n], RowsOf(db, tables[n].name), RowsOf(after, tables[n].name);
      var x, y := Indices(a, t, rows), Indices(b, t, rows);
      assert Indices(test, t, rows') == x + y;
      assert x !! y;
    }
  }

  lemma {:induction false} TallySame(
    db: Dokploy, after: Dokploy, tables: seq<SupportedTable>, test: Test, other: Test)
    requires forall t <- tables :: |RowsOf(after, t.name)| == |RowsOf(db, t.name)|
    requires forall t <- tables, i | 0 <= i < |RowsOf(db, t.name)| ::
      other(t, RowsOf(after, t.name)[i]) <==> test(t, RowsOf(db, t.name)[i])
    ensures Tally(after, tables, other) == Tally(db, tables, test)
  {
    if tables != [] {
      var n := |tables| - 1;
      TallySame(db, after, tables[..n], test, other);
      var t := tables[n];
      assert Indices(other, t, RowsOf(after, t.name)) == Indices(test, t, RowsOf(db, t.name));
    }
  }

  // -------------------------------------------------------------- completeness

  function Matching<X(==)>(p: Row -> bool, rows: seq<Row>, f: Row -> X, x: X): set<nat> {
    set i: nat | i < |rows| && p(rows[i]) && f(rows[i]) == x
  }

  lemma {:induction false} CountFiltered<X>(p: Row -> bool, rows: seq<Row>, f: Row -> X, x: X)
    ensures multiset(Map(f, Filter(p, rows)))[x] == |Matching(p, rows, f, x)|
  {
    if rows == [] {
      assert Matching(p, rows, f, x) == {};
    } else {
      var n := |rows| - 1;
      CountFiltered(p, rows[..n], f, x);
      FilteredOneMore(p, rows, f, x);
      MatchingOneMore(p, rows, f, x);
    }
  }

  function CountOf(b: bool): nat {
    if b then 1 else 0
  }

  lemma FilterOneMore(p: Row -> bool, rows: seq<Row>)
    requires rows != []
    ensures var n := |rows| - 1;
      Filter(p, rows) == if p(rows[n]) then Filter(p, rows[..n]) + [rows[n]] else Filter(p, rows[..n])
  {
  }

  lemma CountOneMore<X>(f: Row -> X, kept: seq<Row>, last: Row, x: X)
    ensures multiset(Map(f, kept + [last]))[x] == multiset(Map(f, kept))[x] + CountOf(f(last) == x)
  {
    MapSnoc(f, kept, last);
    CountSnoc(Map(f, kept), f(last), x);
  }

  lemma FilteredOneMore<X>(p: Row -> bool, rows: seq<Row>, f: Row -> X, x: X)
    requires rows != []
    ensures var n := |rows| - 1;
      multiset(Map(f, Filter(p, rows)))[x]
      == multiset(Map(f, Filter(p, rows[..n])))[x] + CountOf(p(rows[n]) && f(rows[n]) == x)
  {
    var n := |rows| - 1;
    FilterOneMore(p, rows);
    CountOneMore(f, Filter(p, rows[..n]), rows[n], x);
  }

  lemma MatchingOneMore<X>(p: Row -> bool, rows: seq<Row>, f: Row -> X, x: X)
    requires rows != []
    ensures var n := |rows| - 1;
      |Matching(p, rows, f, x)| == |Matching(p, rows[..n], f, x)| + CountOf(p(rows[n]) && f(rows[n]) == x)
  {
    var n := |rows| - 1;
    var before, all := Matching(p, rows[..n], f, x), Matching(p, rows, f, x);
    assert n !in before;
    assert all == if p(rows[n]) && f(rows[n]) == x then before + {n} else before;
  }

  lemma CountSnoc<X>(s: seq<X>, last: X, x: X)
    ensures multiset(s + [last])[x] == multiset(s)[x] + CountOf(last == x)
  {
  }

  lemma MapSnoc<A, B>(f: A -> B, s: seq<A>, last: A)
    ensures Map(f, s + [last]) == Map(f, s) + [f(last)]
  {
  }

  lemma MapJoin<A, B>(f: A -> B, s: seq<A>, t: seq<A>)
    ensures Map(f, s + t) == Map(f, s) + Map(f, t)
  {
  }

  /** One table's listing shows each of its rows on the server exactly once. */
  lemma ListedOnce<X>(db: Dokploy, table: SupportedTable, serverID: string, g: Resource -> X, x: X)
    requires ScanResources(table, QueryRows(db, table, serverID), serverID).Some?
    ensures var listed := ScanResources(table, QueryRows(db, table, serverID), serverID).value;
      multiset(Map(g, listed))[x]
      == |Indices(Shows(Slot(serverID), serverID, g, x), table, RowsOf(db, table.name))|
  {
    var p, rows := OnSlot(Slot(serverID)), RowsOf(db, table.name);
    var f := (row: Row) => g(Render(table, row, serverID));
    var queried := QueryRows(db, table, serverID);
    var listed := ScanResources(table, queried, serverID).value;
    StableSortKeeps(ByID(table.idColumn), Filter(p, rows));
    MapPermutes(f, queried, Filter(p, rows));
    assert Map(g, listed) == Map(f, queried);
    CountFiltered(p, rows, f, x);
    assert Indices(Shows(Slot(serverID), serverID, g, x), table, rows)
      == Matching(p, rows, f, x);
  }

  lemma {:induction false} TablesListedOnce<X>(
    db: Dokploy, tables: seq<SupportedTable>, serverID: string, g: Resource -> X, x: X)
    requires ListTables(db, tables, serverID).Some?
    ensures multiset(Map(g, ListTables(db, tables, serverID).value))[x]
            == Tally(db, tables, Shows(Slot(serverID), serverID, g, x))
  {
    if tables != [] {
      var n := |tables| - 1;
      TablesListedOnce(db, tables[..n], serverID, g, x);
      ListedOnce(db, tables[n], serverID, g, x);
      var front := ListTables(db, tables[..n], serverID).value;
      var last := ScanResources(tables[n], QueryRows(db, tables[n], serverID), serverID).value;
      MapJoin(g, front, last);
    }
  }

  /** The tables' listing is as long as the server's share of their rows. */
  lemma TablesListingLength(db: Dokploy, tables: seq<SupportedTable>, serverID: string)
    requires ListTables(db, tables, serverID).Some?
    ensures |ListTables(db, tables, serverID).value| == Tally(db, tables, HeldBy(Slot(serverID)))
  {
    var g := (_: Resource) => true;
    TablesListedOnce(db, tables, serverID, g, true);
    AllTrue(Map(g, ListTables(db, tables, serverID).value));
    TallySame(db, db, tables, HeldBy(Slot(serverID)), Shows(Slot(serverID), serverID, g, true));
  }

  lemma {:induction false} AllTrue(s: seq<bool>)
    requires forall i | 0 <= i < |s| :: s[i]
    ensures multiset(s)[true] == |s|
  {
    if s != [] {
      assert s == s[..|s| - 1] + [s[|s| - 1]];
      AllTrue(s[..|s| - 1]);
    }
  }

  lemma {:induction false} ListTablesSucceeds(db: Dokploy, tables: seq<SupportedTable>, serverID: string)
    ensures ListTables(db, tables, serverID).Some? <==>
      forall t <- tables, i | 0 <= i < |RowsOf(db, t.name)| ::
        Cell(RowsOf(db, t.name)[i], SERVER_COLUMN) == Slot(serverID) ==>
          Cell(RowsOf(db, t.name)[i], t.idColumn).Some?
  {
    if tables != [] {
      var n := |tables| - 1;
      assert tables == tables[..n] + [tables[n]];
      ListTablesSucceeds(db, tables[..n], serverID);
      ScanSucceeds(db, tables[n], serverID);
    }
  }

  lemma ScanSucceeds(db: Dokploy, t: SupportedTable, serverID: string)
    ensures ScanResources(t, QueryRows(db, t, serverID), serverID).Some? <==>
      forall i | 0 <= i < |RowsOf(db, t.name)| ::
        Cell(RowsOf(db, t.name)[i], SERVER_COLUMN) == Slot(serverID) ==>
          Cell(RowsOf(db, t.name)[i], t.idColumn).Some?
  {
    var rows, kept := RowsOf(db, t.name), Filter(OnSlot(Slot(serverID)), RowsOf(db, t.name));
    FilterMeaning(OnSlot(Slot(serverID)), rows);
    StableSortKeeps(ByID(t.idColumn), kept);
    SameElements(QueryRows(db, t, serverID), kept);
    forall i | 0 <= i < |rows| && Cell(rows[i], SERVER_COLUMN) == Slot(serverID)
      ensures rows[i] in QueryRows(db, t, serverID)
    {
      assert rows[i] in rows;
    }
  }

  lemma {:induction false} FilterMeaning(p: Row -> bool, rows: seq<Row>)
    ensures forall row: Row :: row in Filter(p, rows) <==> row in rows && p(row)
  {
    if rows != [] {
      var n := |rows| - 1;
      assert rows == rows[..n] + [rows[n]];
      FilterMeaning(p, rows[..n]);
    }
  }
}
