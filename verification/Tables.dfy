/** A Dokploy database as tables of rows, and the theory of guarded moves on it.
    A move changes one row's server, only if the row is still where the move
    expects it; a transaction performs moves one after another and is kept only
    if each of them found exactly one row. */
module Tables {
  import opened Wrappers
  import opened Sorting

  const SERVER_COLUMN := "serverId"

  /** One database row: a value per column, None for NULL. */
  type Row = map<string, Option<string>>

  datatype Table = Table(columns: set<string>, rows: seq<Row>)

  /** `fingerprint` is the opaque hash of the column list of the supported tables. */
  datatype Dokploy = Dokploy(fingerprint: string, tables: map<string, Table>)

  predicate WellFormed(db: Dokploy) {
    forall t <- db.tables :: forall row <- db.tables[t].rows :: row.Keys == db.tables[t].columns
  }

  function Cell(row: Row, column: string): Option<string> {
    if column in row then row[column] else None
  }

  function RowsOf(db: Dokploy, table: string): seq<Row> {
    if table in db.tables then db.tables[table].rows else []
  }

  /** Move the row of `table` whose `idColumn` holds `id` from server `source` to `target`. */
  datatype Move = Move(table: string, idColumn: string, id: string, source: Option<string>, target: Option<string>)

  predicate Carries(m: Move, row: Row) {
    Cell(row, m.idColumn) == Some(m.id)
  }

  predicate Guard(m: Move, row: Row) {
    Carries(m, row) && Cell(row, SERVER_COLUMN) == m.source
  }

  function Rewrite(m: Move, row: Row): Row {
    if Guard(m, row) then row[SERVER_COLUMN := m.target] else row
  }

  function Hits(m: Move, rows: seq<Row>): set<nat> {
    set i: nat | i < |rows| && Guard(m, rows[i])
  }

  predicate HasColumns(db: Dokploy, m: Move) {
    && m.table in db.tables
    && m.idColumn in db.tables[m.table].columns
    && SERVER_COLUMN in db.tables[m.table].columns
  }

  /** The move's statement runs and reports exactly one affected row. */
  predicate CanMove(db: Dokploy, m: Move) {
    HasColumns(db, m) && |Hits(m, RowsOf(db, m.table))| == 1
  }

  function DoMove(db: Dokploy, m: Move): Dokploy
    requires m.table in db.tables
  {
    var table := db.tables[m.table];
    var rows := seq(|table.rows|, i requires 0 <= i < |table.rows| => Rewrite(m, table.rows[i]));
    db.(tables := db.tables[m.table := table.(rows := rows)])
  }

  /** A transaction: every move must find exactly one row, or nothing is kept. */
  function Perform(db: Dokploy, ms: seq<Move>): Option<Dokploy>
    decreases |ms|
  {
    if ms == [] then Some(db)
    else if CanMove(db, ms[0]) then Perform(DoMove(db, ms[0]), ms[1..])
    else None
  }

  lemma {:induction false} PerformAppend(db: Dokploy, a: seq<Move>, b: seq<Move>)
    ensures Perform(db, a + b) ==
            (match Perform(db, a) case None => None case Some(mid) => Perform(mid, b))
    decreases |a|
  {
    if a == [] {
      assert a + b == b;
    } else {
      assert (a + b)[0] == a[0] && (a + b)[1..] == a[1..] + b;
      if CanMove(db, a[0]) {
        PerformAppend(DoMove(db, a[0]), a[1..], b);
      }
    }
  }

  /** `after` has the tables, columns, rows and cells of `db`, up to the server column. */
  ghost predicate SameButServers(db: Dokploy, after: Dokploy) {
    && after.fingerprint == db.fingerprint
    && after.tables.Keys == db.tables.Keys
    && forall t <- db.tables ::
      && after.tables[t].columns == db.tables[t].columns
      && |after.tables[t].rows| == |db.tables[t].rows|
      && forall i | 0 <= i < |db.tables[t].rows| ::
        && (WellFormed(db) ==> after.tables[t].rows[i].Keys == db.tables[t].rows[i].Keys)
        && forall c: string | c != SERVER_COLUMN ::
          Cell(after.tables[t].rows[i], c) == Cell(db.tables[t].rows[i], c)
  }

  lemma EqualDatabases(a: Dokploy, b: Dokploy)
    requires a.fingerprint == b.fingerprint && a.tables.Keys == b.tables.Keys
    requires forall t <- a.tables ::
      && a.tables[t].columns == b.tables[t].columns
      && |a.tables[t].rows| == |b.tables[t].rows|
      && forall i | 0 <= i < |a.tables[t].rows| :: a.tables[t].rows[i] == b.tables[t].rows[i]
    ensures a == b
  {
    forall t <- a.tables ensures a.tables[t] == b.tables[t] {
      assert a.tables[t].rows == b.tables[t].rows;
    }
    assert a.tables == b.tables;
  }

  lemma OneHit(m: Move, rows: seq<Row>) returns (i: nat)
    requires |Hits(m, rows)| == 1
    ensures i < |rows| && Guard(m, rows[i])
    ensures forall j: nat | j < |rows| && Guard(m, rows[j]) :: j == i
  {
    var hits := Hits(m, rows);
    i :| i in hits;
    assert |hits - {i}| == 0;
    forall j: nat | j < |rows| && Guard(m, rows[j]) ensures j == i {
      assert j in hits;
      assert j == i || j in hits - {i};
    }
  }

  lemma HitsOne(m: Move, rows: seq<Row>, i: nat)
    requires i < |rows| && Guard(m, rows[i])
    requires forall j: nat | j < |rows| && Guard(m, rows[j]) :: j == i
    ensures |Hits(m, rows)| == 1
  {
    assert Hits(m, rows) == {i};
  }

  lemma DoMoveFrame(db: Dokploy, m: Move)
    requires HasColumns(db, m)
    ensures SameButServers(db, DoMove(db, m))
    ensures WellFormed(db) ==> WellFormed(DoMove(db, m))
    ensures forall t <- db.tables | t != m.table :: DoMove(db, m).tables[t] == db.tables[t]
  {
  }

  lemma {:induction false} PerformFrame(db: Dokploy, ms: seq<Move>)
    requires WellFormed(db) && Perform(db, ms).Some?
    ensures WellFormed(Perform(db, ms).value)
    ensures SameButServers(db, Perform(db, ms).value)
    decreases |ms|
  {
    if ms != [] {
      var next := DoMove(db, ms[0]);
      DoMoveFrame(db, ms[0]);
      PerformFrame(next, ms[1..]);
      var after := Perform(db, ms).value;
      forall t <- db.tables, i | 0 <= i < |db.tables[t].rows|
        ensures after.tables[t].rows[i].Keys == db.tables[t].rows[i].Keys
        ensures forall c: string | c != SERVER_COLUMN ::
          Cell(after.tables[t].rows[i], c) == Cell(db.tables[t].rows[i], c)
      {
        assert after.tables[t].rows[i].Keys == next.tables[t].rows[i].Keys;
      }
    }
  }

  // ---------------------------------------------------------------- exactness

  /** All moves go from `source` to `target` and find their row by a column other than the server. */
  predicate Batch(ms: seq<Move>, source: Option<string>, target: Option<string>) {
    forall m <- ms :: m.source == source && m.target == target && m.idColumn != SERVER_COLUMN
  }

  /** At most one row of the move's table carries the move's id. */
  predicate UniqueID(db: Dokploy, m: Move) {
    forall i, j | 0 <= i < |RowsOf(db, m.table)| && 0 <= j < |RowsOf(db, m.table)|
      && Carries(m, RowsOf(db, m.table)[i]) && Carries(m, RowsOf(db, m.table)[j]) :: i == j
  }

  predicate UniqueIDs(db: Dokploy, ms: seq<Move>) {
    forall m <- ms :: UniqueID(db, m)
  }

  /** The move's table and columns exist and some row it names is on its old server. */
  predicate Placed(db: Dokploy, m: Move) {
    HasColumns(db, m) && exists i | 0 <= i < |RowsOf(db, m.table)| :: Guard(m, RowsOf(db, m.table)[i])
  }

  /** Two moves name the same database row. */
  predicate Clash(db: Dokploy, a: Move, b: Move) {
    && a.table == b.table
    && exists i | 0 <= i < |RowsOf(db, a.table)| ::
      Carries(a, RowsOf(db, a.table)[i]) && Carries(b, RowsOf(db, a.table)[i])
  }

  /** Every move finds its row in place, and no two moves name one row. */
  predicate Ready(db: Dokploy, ms: seq<Move>) {
    && (forall m <- ms :: Placed(db, m))
    && (forall j, k | 0 <= j < k < |ms| :: !Clash(db, ms[j], ms[k]))
  }

  /** Some move of the batch selects this row of table `t`. */
  predicate Selected(ms: seq<Move>, t: string, row: Row) {
    exists m <- ms :: m.table == t && Guard(m, row)
  }

  function Moved(ms: seq<Move>, target: Option<string>, t: string, row: Row): Row {
    if Selected(ms, t, row) then row[SERVER_COLUMN := target] else row
  }

  /** The whole batch at once: every selected row gets the new server, all else stays. */
  function MoveAll(db: Dokploy, ms: seq<Move>, target: Option<string>): Dokploy {
    db.(tables := map t | t in db.tables ::
      db.tables[t].(rows := seq(|db.tables[t].rows|, i requires 0 <= i < |db.tables[t].rows| =>
        Moved(ms, target, t, db.tables[t].rows[i]))))
  }

  /** What doing the first move of a batch changes for the others. */
  lemma FirstMove(db: Dokploy, m: Move, i: nat)
    requires HasColumns(db, m) && m.idColumn != SERVER_COLUMN
    requires i < |RowsOf(db, m.table)| && Guard(m, RowsOf(db, m.table)[i])
    requires forall j: nat | j < |RowsOf(db, m.table)| && Guard(m, RowsOf(db, m.table)[j]) :: j == i
    ensures forall t <- db.tables, j | 0 <= j < |db.tables[t].rows| ::
      DoMove(db, m).tables[t].rows[j] ==
      if t == m.table && j == i then db.tables[t].rows[j][SERVER_COLUMN := m.target] else db.tables[t].rows[j]
  {
  }

  lemma CarriesKept(db: Dokploy, m: Move, a: Move)
    requires HasColumns(db, m) && a.idColumn != SERVER_COLUMN
    ensures |RowsOf(DoMove(db, m), a.table)| == |RowsOf(db, a.table)|
    ensures forall i | 0 <= i < |RowsOf(db, a.table)| ::
      Carries(a, RowsOf(DoMove(db, m), a.table)[i]) <==> Carries(a, RowsOf(db, a.table)[i])
  {
  }

  /** After the first move of a batch, a later one is in place exactly when it was
      in place before and does not name the row just moved. */
  lemma PlacedAfterFirst(db: Dokploy, m: Move, a: Move, i: nat)
    requires Batch([m, a], m.source, m.target) && m.source != m.target && UniqueID(db, a)
    requires HasColumns(db, m)
    requires i < |RowsOf(db, m.table)| && Guard(m, RowsOf(db, m.table)[i])
    requires forall j: nat | j < |RowsOf(db, m.table)| && Guard(m, RowsOf(db, m.table)[j]) :: j == i
    requires UniqueID(db, m)
    ensures Placed(DoMove(db, m), a) <==> Placed(db, a) && !Clash(db, m, a)
  {
    var next := DoMove(db, m);
    assert a in [m, a] && m in [m, a];
    FirstMove(db, m, i);
    CarriesKept(db, m, a);
    if Placed(next, a) {
      var j :| 0 <= j < |RowsOf(next, a.table)| && Guard(a, RowsOf(next, a.table)[j]);
      assert !(a.table == m.table && j == i);
      assert Guard(a, RowsOf(db, a.table)[j]);
    }
    if Placed(db, a) && !Clash(db, m, a) {
      var j :| 0 <= j < |RowsOf(db, a.table)| && Guard(a, RowsOf(db, a.table)[j]);
      assert !(a.table == m.table && j == i);
      assert RowsOf(next, a.table)[j] == RowsOf(db, a.table)[j];
    }
  }

  lemma ClashKept(db: Dokploy, m: Move, a: Move, b: Move)
    requires HasColumns(db, m) && a.idColumn != SERVER_COLUMN && b.idColumn != SERVER_COLUMN
    ensures Clash(DoMove(db, m), a, b) <==> Clash(db, a, b)
  {
    CarriesKept(db, m, a);
    CarriesKept(db, m, b);
    if Clash(db, a, b) {
      var i :| 0 <= i < |RowsOf(db, a.table)| && Carries(a, RowsOf(db, a.table)[i]) && Carries(b, RowsOf(db, a.table)[i]);
      assert Carries(a, RowsOf(DoMove(db, m), a.table)[i]) && Carries(b, RowsOf(DoMove(db, m), a.table)[i]);
    }
  }

  lemma ReadyAfterFirst(db: Dokploy, ms: seq<Move>, i: nat)
    requires ms != [] && Batch(ms, ms[0].source, ms[0].target) && ms[0].source != ms[0].target && UniqueIDs(db, ms)
    requires HasColumns(db, ms[0])
    requires i < |RowsOf(db, ms[0].table)| && Guard(ms[0], RowsOf(db, ms[0].table)[i])
    ensures CanMove(db, ms[0])
    ensures UniqueIDs(DoMove(db, ms[0]), ms[1..])
    ensures Ready(DoMove(db, ms[0]), ms[1..]) <==> Ready(db, ms)
  {
    var m, rest, next := ms[0], ms[1..], DoMove(db, ms[0]);
    assert UniqueID(db, m);
    HitsOne(m, RowsOf(db, m.table), i);
    forall a <- rest
      ensures a in ms && UniqueID(next, a)
      ensures Placed(next, a) <==> Placed(db, a) && !Clash(db, m, a)
    {
      CarriesKept(db, m, a);
      PlacedAfterFirst(db, m, a, i);
    }
    forall j, k | 0 <= j < k < |rest| ensures Clash(next, rest[j], rest[k]) <==> Clash(db, ms[j + 1], ms[k + 1]) {
      ClashKept(db, m, rest[j], rest[k]);
    }
    if Ready(next, rest) {
      forall j, k | 0 <= j < k < |ms| ensures !Clash(db, ms[j], ms[k]) {
        if j == 0 {
          assert Placed(next, rest[k - 1]);
        } else {
          assert !Clash(next, rest[j - 1], rest[k - 1]);
        }
      }
      forall a <- ms ensures Placed(db, a) {
        assert a == m || a in rest;
      }
    }
    if Ready(db, ms) {
      forall a <- rest ensures Placed(next, a) {
        var k :| 0 <= k < |rest| && rest[k] == a;
        assert !Clash(db, ms[0], ms[k + 1]);
      }
    }
  }

  lemma MoveAllFirst(db: Dokploy, ms: seq<Move>)
    requires ms != [] && Batch(ms, ms[0].source, ms[0].target) && ms[0].source != ms[0].target && UniqueIDs(db, ms)
    requires CanMove(db, ms[0]) && Ready(db, ms)
    ensures MoveAll(db, ms, ms[0].target) == MoveAll(DoMove(db, ms[0]), ms[1..], ms[0].target)
  {
    var m, rest, next := ms[0], ms[1..], DoMove(db, ms[0]);
    var a, b := MoveAll(db, ms, m.target), MoveAll(next, rest, m.target);
    forall t <- db.tables, i | 0 <= i < |db.tables[t].rows| ensures a.tables[t].rows[i] == b.tables[t].rows[i] {
      var row := db.tables[t].rows[i];
      var row' := next.tables[t].rows[i];
      assert ms == [m] + rest;
      if t == m.table && Guard(m, row) {
        assert row' == row[SERVER_COLUMN := m.target];
        assert Selected(ms, t, row);
        assert !Selected(rest, t, row');
      } else {
        assert row' == row;
        assert Selected(ms, t, row) <==> Selected(rest, t, row);
      }
    }
    EqualDatabases(a, b);
  }

  /** A batch commits exactly when it is ready, and then its effect is the
      simultaneous move of the selected rows. */
  lemma {:induction false} PerformExact(db: Dokploy, ms: seq<Move>, source: Option<string>, target: Option<string>)
    requires Batch(ms, source, target) && source != target && UniqueIDs(db, ms)
    ensures Perform(db, ms).Some? <==> Ready(db, ms)
    ensures Ready(db, ms) ==> Perform(db, ms) == Some(MoveAll(db, ms, target))
    decreases |ms|
  {
    if ms == [] {
      EqualDatabases(db, MoveAll(db, ms, target));
    } else {
      var m := ms[0];
      assert m in ms;
      if CanMove(db, m) {
        var i := OneHit(m, RowsOf(db, m.table));
        ReadyAfterFirst(db, ms, i);
        PerformExact(DoMove(db, m), ms[1..], source, target);
        if Ready(db, ms) {
          MoveAllFirst(db, ms);
        }
      } else if Ready(db, ms) {
        assert Placed(db, m);
        var i :| 0 <= i < |RowsOf(db, m.table)| && Guard(m, RowsOf(db, m.table)[i]);
        ReadyAfterFirst(db, ms, i);
      }
    }
  }

  // ------------------------------------------------------------------- order

  lemma ReadyPermutes(db: Dokploy, ms: seq<Move>, other: seq<Move>)
    requires multiset(ms) == multiset(other) && Ready(db, ms)
    ensures Ready(db, other)
  {
    forall m <- other ensures m in ms && Placed(db, m) {
      assert m in multiset(other);
      assert m in multiset(ms);
    }
    forall j, k | 0 <= j < k < |other| ensures !Clash(db, other[j], other[k]) {
      if other[j] == other[k] {
        TwoPlacesMeanTwice(other, j, k);
        var a, b := TwiceMeansTwoPlaces(ms, other[j]);
        assert !Clash(db, ms[a], ms[b]);
      } else {
        var a :| 0 <= a < |ms| && ms[a] == other[j];
        var b :| 0 <= b < |ms| && ms[b] == other[k];
        assert a < b || b < a;
        if b < a {
          assert !Clash(db, ms[b], ms[a]);
        }
      }
    }
  }

  lemma MoveAllPermutes(db: Dokploy, ms: seq<Move>, other: seq<Move>, target: Option<string>)
    requires multiset(ms) == multiset(other)
    ensures MoveAll(db, ms, target) == MoveAll(db, other, target)
  {
    SameElements(ms, other);
    var a, b := MoveAll(db, ms, target), MoveAll(db, other, target);
    forall t <- db.tables, i | 0 <= i < |db.tables[t].rows| ensures a.tables[t].rows[i] == b.tables[t].rows[i] {
      var row := db.tables[t].rows[i];
      assert Selected(ms, t, row) <==> Selected(other, t, row);
    }
    EqualDatabases(a, b);
  }

  /** The order of the moves in a batch changes neither the outcome nor the result. */
  lemma PerformOrderIrrelevant(
    db: Dokploy, ms: seq<Move>, other: seq<Move>, source: Option<string>, target: Option<string>)
    requires multiset(ms) == multiset(other)
    requires Batch(ms, source, target) && source != target && UniqueIDs(db, ms)
    ensures Perform(db, other) == Perform(db, ms)
  {
    SameElements(ms, other);
    PerformExact(db, ms, source, target);
    PerformExact(db, other, source, target);
    MoveAllPermutes(db, ms, other, target);
    if Ready(db, ms) {
      ReadyPermutes(db, ms, other);
    } else if Ready(db, other) {
      ReadyPermutes(db, other, ms);
    }
  }

  // ------------------------------------------------------------------ undoing

  function Swap(m: Move): Move {
    m.(source := m.target, target := m.source)
  }

  /** The moves in reverse order, each with its servers exchanged. */
  function Undo(ms: seq<Move>): seq<Move> {
    if ms == [] then [] else Undo(ms[1..]) + [Swap(ms[0])]
  }

  /** When each move runs, no row with its id already sits on its new server. */
  predicate NoTwin(db: Dokploy, ms: seq<Move>)
    requires Perform(db, ms).Some?
    decreases |ms|
  {
    ms != [] ==>
      && Hits(Swap(ms[0]), RowsOf(db, ms[0].table)) == {}
      && NoTwin(DoMove(db, ms[0]), ms[1..])
  }

  lemma UndoOne(db: Dokploy, m: Move)
    requires WellFormed(db) && CanMove(db, m) && m.idColumn != SERVER_COLUMN && m.source != m.target
    ensures CanMove(DoMove(db, m), Swap(m)) <==> Hits(Swap(m), RowsOf(db, m.table)) == {}
    ensures Hits(Swap(m), RowsOf(db, m.table)) == {} ==> DoMove(DoMove(db, m), Swap(m)) == db
  {
    var rows := RowsOf(db, m.table);
    var next := DoMove(db, m);
    var rows' := RowsOf(next, m.table);
    var i := OneHit(m, rows);
    FirstMove(db, m, i);
    var back := Swap(m);
    assert rows[i] in db.tables[m.table].rows;
    assert Guard(back, rows'[i]);
    assert Hits(back, rows') == Hits(back, rows) + {i};
    assert i !in Hits(back, rows);
    if Hits(back, rows) == {} {
      assert forall j: nat | j < |rows'| && Guard(back, rows'[j]) :: j in Hits(back, rows');
      FirstMove(next, back, i);
      assert rows[i][SERVER_COLUMN := m.target][SERVER_COLUMN := m.source] == rows[i];
      EqualDatabases(DoMove(next, back), db);
    } else {
      assert |Hits(back, rows')| == |Hits(back, rows)| + 1;
    }
  }

  /** Undoing a committed transaction commits exactly when no move had a twin on
      its new server, and then it restores the database. */
  lemma {:induction false} UndoExact(db: Dokploy, ms: seq<Move>)
    requires WellFormed(db) && Perform(db, ms).Some?
    requires forall m <- ms :: m.idColumn != SERVER_COLUMN && m.source != m.target
    ensures Perform(Perform(db, ms).value, Undo(ms)).Some? <==> NoTwin(db, ms)
    ensures NoTwin(db, ms) ==> Perform(Perform(db, ms).value, Undo(ms)) == Some(db)
    decreases |ms|
  {
    if ms != [] {
      var m, rest, next := ms[0], ms[1..], DoMove(db, ms[0]);
      DoMoveFrame(db, m);
      UndoExact(next, rest);
      UndoOne(db, m);
      PerformAppend(Perform(db, ms).value, Undo(rest), [Swap(m)]);
      if NoTwin(next, rest) {
        assert [Swap(m)][1..] == [];
      }
    }
  }

  lemma {:induction false} UniqueIDsHaveNoTwin(db: Dokploy, ms: seq<Move>, source: Option<string>, target: Option<string>)
    requires Batch(ms, source, target) && source != target && UniqueIDs(db, ms) && Perform(db, ms).Some?
    ensures NoTwin(db, ms)
    decreases |ms|
  {
    if ms != [] {
      var m := ms[0];
      assert m in ms;
      var i := OneHit(m, RowsOf(db, m.table));
      ReadyAfterFirst(db, ms, i);
      assert Hits(Swap(m), RowsOf(db, m.table)) == {};
      UniqueIDsHaveNoTwin(DoMove(db, m), ms[1..], source, target);
    }
  }

  /** The same condition on the database before anything runs: no row carrying a
      move's id is on the new server, and none is moved by an earlier move. */
  predicate TwinFree(db: Dokploy, ms: seq<Move>) {
    && (forall m <- ms :: Hits(Swap(m), RowsOf(db, m.table)) == {})
    && (forall j, k | 0 <= j < k < |ms| :: !Chase(db, ms[j], ms[k]))
  }

  /** Move `a` takes away a row that also carries the id of move `b`. */
  predicate Chase(db: Dokploy, a: Move, b: Move) {
    && a.table == b.table
    && exists i | 0 <= i < |RowsOf(db, a.table)| ::
      Guard(a, RowsOf(db, a.table)[i]) && Carries(b, RowsOf(db, a.table)[i])
  }

  /** The first move's only row, in a batch. */
  predicate FirstRow(db: Dokploy, ms: seq<Move>, i: nat) {
    && ms != [] && Batch(ms, ms[0].source, ms[0].target) && ms[0].source != ms[0].target
    && HasColumns(db, ms[0])
    && i < |RowsOf(db, ms[0].table)| && Guard(ms[0], RowsOf(db, ms[0].table)[i])
    && forall j: nat | j < |RowsOf(db, ms[0].table)| && Guard(ms[0], RowsOf(db, ms[0].table)[j]) :: j == i
  }

  lemma TwinFreeRest(db: Dokploy, ms: seq<Move>, i: nat)
    requires FirstRow(db, ms, i) && TwinFree(db, ms)
    ensures TwinFree(DoMove(db, ms[0]), ms[1..])
  {
    var m, rest, next := ms[0], ms[1..], DoMove(db, ms[0]);
    assert m in ms;
    forall a <- rest ensures Hits(Swap(a), RowsOf(next, a.table)) == {} {
      assert a in ms;
      var k :| 0 <= k < |rest| && rest[k] == a;
      assert !Chase(db, ms[0], ms[k + 1]);
      TwinsAfterFirst(db, m, a, i);
    }
    forall j, k | 0 <= j < k < |rest| ensures !Chase(next, rest[j], rest[k]) {
      assert rest[j] in ms && rest[k] in ms;
      assert !Chase(db, ms[j + 1], ms[k + 1]);
      ChaseAfterFirst(db, m, rest[j], rest[k], i);
    }
  }

  lemma TwinFreeWhole(db: Dokploy, ms: seq<Move>, i: nat)
    requires FirstRow(db, ms, i)
    requires Hits(Swap(ms[0]), RowsOf(db, ms[0].table)) == {} && TwinFree(DoMove(db, ms[0]), ms[1..])
    ensures TwinFree(db, ms)
  {
    var m, rest, next := ms[0], ms[1..], DoMove(db, ms[0]);
    assert m in ms && ms == [m] + rest;
    forall a <- rest ensures Hits(Swap(a), RowsOf(db, a.table)) == {} && !Chase(db, m, a) {
      assert a in ms;
      TwinsAfterFirst(db, m, a, i);
    }
    forall j, k | 0 <= j < k < |ms| ensures !Chase(db, ms[j], ms[k]) {
      assert ms[k] == rest[k - 1] && rest[k - 1] in rest;
      if j > 0 {
        assert ms[j] in ms && ms[k] in ms;
        assert !Chase(next, rest[j - 1], rest[k - 1]);
        ChaseAfterFirst(db, m, ms[j], ms[k], i);
      }
    }
  }

  lemma TwinsAfterFirst(db: Dokploy, m: Move, a: Move, i: nat)
    requires a.source == m.source && a.target == m.target && m.source != m.target
    requires a.idColumn != SERVER_COLUMN && m.idColumn != SERVER_COLUMN && HasColumns(db, m)
    requires i < |RowsOf(db, m.table)| && Guard(m, RowsOf(db, m.table)[i])
    requires forall j: nat | j < |RowsOf(db, m.table)| && Guard(m, RowsOf(db, m.table)[j]) :: j == i
    ensures Hits(Swap(a), RowsOf(DoMove(db, m), a.table)) == {} <==>
            Hits(Swap(a), RowsOf(db, a.table)) == {} && !Chase(db, m, a)
  {
    var next := DoMove(db, m);
    FirstMove(db, m, i);
    CarriesKept(db, m, a);
    var rows, rows' := RowsOf(db, a.table), RowsOf(next, a.table);
    forall j: nat | j < |rows|
      ensures Guard(Swap(a), rows'[j]) <==>
              Guard(Swap(a), rows[j]) || (a.table == m.table && j == i && Carries(a, rows[j]))
    {
    }
    if Chase(db, m, a) {
      assert i in Hits(Swap(a), rows');
    }
    if j: nat :| j in Hits(Swap(a), rows) {
      assert j in Hits(Swap(a), rows');
    }
    if j: nat :| j in Hits(Swap(a), rows') {
      assert j in Hits(Swap(a), rows) || Chase(db, m, a);
    }
  }

  lemma ChaseAfterFirst(db: Dokploy, m: Move, a: Move, b: Move, i: nat)
    requires a.source == m.source && m.source != m.target
    requires a.idColumn != SERVER_COLUMN && b.idColumn != SERVER_COLUMN
    requires m.idColumn != SERVER_COLUMN && HasColumns(db, m)
    requires i < |RowsOf(db, m.table)| && Guard(m, RowsOf(db, m.table)[i])
    requires forall j: nat | j < |RowsOf(db, m.table)| && Guard(m, RowsOf(db, m.table)[j]) :: j == i
    ensures Chase(DoMove(db, m), a, b) ==> Chase(db, a, b)
    ensures Chase(db, a, b) ==> Chase(DoMove(db, m), a, b) || Chase(db, m, b)
  {
    var next := DoMove(db, m);
    FirstMove(db, m, i);
    CarriesKept(db, m, b);
    var rows, rows' := RowsOf(db, a.table), RowsOf(next, a.table);
    if Chase(next, a, b) {
      var j :| 0 <= j < |rows'| && Guard(a, rows'[j]) && Carries(b, rows'[j]);
      assert Guard(a, rows[j]) && Carries(b, rows[j]);
    }
    if Chase(db, a, b) {
      var j :| 0 <= j < |rows| && Guard(a, rows[j]) && Carries(b, rows[j]);
      if !(a.table == m.table && j == i) {
        assert Guard(a, rows'[j]) && Carries(b, rows'[j]);
      }
    }
  }

  lemma {:induction false} NoTwinIsTwinFree(db: Dokploy, ms: seq<Move>, source: Option<string>, target: Option<string>)
    requires Batch(ms, source, target) && source != target && Perform(db, ms).Some?
    ensures NoTwin(db, ms) <==> TwinFree(db, ms)
    decreases |ms|
  {
    if ms != [] {
      var m := ms[0];
      assert m in ms;
      var i := OneHit(m, RowsOf(db, m.table));
      NoTwinIsTwinFree(DoMove(db, m), ms[1..], source, target);
      if TwinFree(db, ms) {
        TwinFreeRest(db, ms, i);
      } else if NoTwin(db, ms) {
        TwinFreeWhole(db, ms, i);
      }
    }
  }
}
