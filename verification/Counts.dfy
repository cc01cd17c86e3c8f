/** How many resources each server holds: the counts shown to the operator, and how a
    committed plan moves them: internal/dokploydb/postgres.go. */
module Counts {
  import opened Wrappers
  import opened Text
  import opened Model
  import opened Tables
  import opened Rendering
  import opened Retarget
  import opened Listing
  import opened Tallies
  import opened DryRun

  /** How many supported resources are stored under a server. */
  function Held(db: Dokploy, serverID: string): nat {
    Tally(db, SupportedTables(db), HeldBy(Slot(serverID)))
  }

  // -------------------------------------------------------------- conservation

  predicate Covers(tables: seq<SupportedTable>, name: string) {
    exists t <- tables :: t.name == name
  }

  /** A test of the stored server alone. */
  function OnServer(p: Option<string> -> bool): Test {
    (_, row) => p(Cell(row, SERVER_COLUMN))
  }

  function One(b: bool): int {
    if b then 1 else 0
  }

  /** By how much a move from `source` to `target` changes the number of servers passing a test. */
  function Gain(p: Option<string> -> bool, source: Option<string>, target: Option<string>): int {
    One(p(target)) - One(p(source))
  }

  lemma SetWithout(s: set<nat>, i: nat)
    ensures |s| == |s - {i}| + One(i in s)
  {
    if i in s {
      assert s == (s - {i}) + {i};
    } else {
      assert s == s - {i};
    }
  }

  /** Changing one row changes a count by that row alone. */
  lemma OneCellShifts(test: Test, t: SupportedTable, rows: seq<Row>, rows': seq<Row>, i: nat)
    requires |rows'| == |rows| && i < |rows|
    requires forall k: nat | k < |rows| && k != i :: test(t, rows'[k]) <==> test(t, rows[k])
    ensures |Indices(test, t, rows')| == |Indices(test, t, rows)| + One(test(t, rows'[i])) - One(test(t, rows[i]))
  {
    var before, after := Indices(test, t, rows), Indices(test, t, rows');
    assert after - {i} == before - {i};
    SetWithout(before, i);
    SetWithout(after, i);
  }

  lemma MoveShiftsTable(db: Dokploy, t: SupportedTable, m: Move, p: Option<string> -> bool)
    requires CanMove(db, m) && m.source != m.target && t.name == m.table
    ensures |Indices(OnServer(p), t, RowsOf(DoMove(db, m), t.name))|
            == |Indices(OnServer(p), t, RowsOf(db, t.name))| + Gain(p, m.source, m.target)
  {
    var rows, rows' := RowsOf(db, t.name), RowsOf(DoMove(db, m), t.name);
    var i := OneHit(m, rows);
    forall k: nat | k < |rows|
      ensures Cell(rows'[k], SERVER_COLUMN) == if k == i then m.target else Cell(rows[k], SERVER_COLUMN)
    {
    }
    OneCellShifts(OnServer(p), t, rows, rows', i);
  }

  lemma {:induction false} MoveShifts(db: Dokploy, tables: seq<SupportedTable>, m: Move, p: Option<string> -> bool)
    requires DistinctNames(tables) && CanMove(db, m) && m.source != m.target
    ensures Tally(DoMove(db, m), tables, OnServer(p))
            == Tally(db, tables, OnServer(p)) + if Covers(tables, m.table) then Gain(p, m.source, m.target) else 0
  {
    if tables != [] {
      var n := |tables| - 1;
      assert tables == tables[..n] + [tables[n]];
      MoveShifts(db, tables[..n], m, p);
      if tables[n].name == m.table {
        MoveShiftsTable(db, tables[n], m, p);
        assert !Covers(tables[..n], m.table);
      } else {
        assert RowsOf(DoMove(db, m), tables[n].name) == RowsOf(db, tables[n].name);
      }
    }
  }

  lemma {:induction false} PerformShifts(
    db: Dokploy, ms: seq<Move>, tables: seq<SupportedTable>, source: Option<string>, target: Option<string>,
    p: Option<string> -> bool)
    requires DistinctNames(tables) && Batch(ms, source, target) && source != target
    requires Perform(db, ms).Some? && forall m <- ms :: Covers(tables, m.table)
    ensures Tally(Perform(db, ms).value, tables, OnServer(p))
            == Tally(db, tables, OnServer(p)) + (if p(target) then |ms| else 0) - (if p(source) then |ms| else 0)
    decreases |ms|
  {
    if ms != [] {
      assert ms[0] in ms;
      MoveShifts(db, tables, ms[0], p);
      PerformShifts(DoMove(db, ms[0]), ms[1..], tables, source, target, p);
    }
  }

  /** A table the apply can write to is one the dry-run lists. */
  lemma WritableTableIsSupported(db: Dokploy, row: PlanRow)
    requires AllowedRow(row) && HasColumns(db, MoveOf(row))
    ensures Covers(SupportedTables(db), row.table)
  {
    var columns := db.tables[row.table].columns;
    ListedColumnIsApplicable(row.table, columns);
    ValidatedIDColumnExact(row.table, MoveOf(row).idColumn);
    assert MoveOf(row).idColumn in columns;
    SupportedTablesExact(db);
    assert Describe(db, row.table).value in SupportedTables(db);
  }

  lemma {:induction false} PerformedHadColumns(db: Dokploy, ms: seq<Move>)
    requires Perform(db, ms).Some?
    ensures forall m <- ms :: HasColumns(db, m)
    decreases |ms|
  {
    if ms != [] {
      assert ms == [ms[0]] + ms[1..];
      PerformedHadColumns(DoMove(db, ms[0]), ms[1..]);
    }
  }

  lemma CommittedTablesSupported(db: Dokploy, allowed: set<string>, plan: MigrationPlan, approval: string)
    requires Committed(db, allowed, plan, approval).Some?
    ensures forall m <- Moves(plan.rows) :: Covers(SupportedTables(db), m.table)
  {
    PerformedHadColumns(db, Moves(plan.rows));
    forall m <- Moves(plan.rows) ensures Covers(SupportedTables(db), m.table) {
      var k :| 0 <= k < |plan.rows| && Moves(plan.rows)[k] == m;
      assert plan.rows[k] in plan.rows;
      WritableTableIsSupported(db, plan.rows[k]);
    }
  }

  /** How a committed plan changes the number of resources on one server. */
  function Balance(plan: MigrationPlan, serverID: string): int {
    if serverID == plan.sourceServerID then -|plan.rows|
    else if serverID == plan.targetServerID then |plan.rows|
    else 0
  }

  /** A committed plan of k rows adds k to the tables' rows whose server passes a test if
      the target passes it, and takes k away if the source does. */
  lemma CommitShiftsTally(
    db: Dokploy, allowed: set<string>, plan: MigrationPlan, approval: string, p: Option<string> -> bool)
    requires WellFormed(db) && Committed(db, allowed, plan, approval).Some?
    ensures var after, k := Committed(db, allowed, plan, approval).value, |plan.rows|;
      && SupportedTables(after) == SupportedTables(db)
      && Tally(after, SupportedTables(db), OnServer(p)) == Tally(db, SupportedTables(db), OnServer(p))
         + (if p(Slot(plan.targetServerID)) then k else 0) - (if p(Slot(plan.sourceServerID)) then k else 0)
  {
    PlanIsBatch(plan);
    PerformFrame(db, Moves(plan.rows));
    SupportedTablesSame(db, Committed(db, allowed, plan, approval).value);
    SupportedTablesExact(db);
    CommittedTablesSupported(db, allowed, plan, approval);
    PerformShifts(
      db, Moves(plan.rows), SupportedTables(db), Slot(plan.sourceServerID), Slot(plan.targetServerID), p);
  }

  lemma HeldIsOnServer(db: Dokploy, serverID: string)
    ensures Held(db, serverID) == Tally(db, SupportedTables(db), OnServer(stored => stored == Slot(serverID)))
  {
    TallySame(db, db, SupportedTables(db), HeldBy(Slot(serverID)), OnServer(stored => stored == Slot(serverID)));
  }

  /** A committed plan of k rows takes k resources from the source's listing, gives k to
      the target's, and leaves every other server's alone; ids need not be unique. */
  lemma CommitConserves(
    db: Dokploy, allowed: set<string>, plan: MigrationPlan, approval: string, serverID: string)
    requires WellFormed(db) && Committed(db, allowed, plan, approval).Some?
    ensures Held(Committed(db, allowed, plan, approval).value, serverID) == Held(db, serverID) + Balance(plan, serverID)
  {
    CommitShiftsTally(db, allowed, plan, approval, stored => stored == Slot(serverID));
    HeldIsOnServer(db, serverID);
    HeldIsOnServer(Committed(db, allowed, plan, approval).value, serverID);
    if serverID != plan.sourceServerID {
      SlotInjective(serverID, plan.sourceServerID);
    }
    if serverID != plan.targetServerID {
      SlotInjective(serverID, plan.targetServerID);
    }
  }

  /** The number held is the length of the listing. */
  lemma HeldIsListed(db: Dokploy, serverID: string)
    requires ListServerResources(db, serverID).Some?
    ensures Held(db, serverID) == |ListServerResources(db, serverID).value|
  {
    TablesListingLength(db, SupportedTables(db), serverID);
  }

  // -------------------------------------------------------------- counts by server

  /** One result row of SELECT "serverId", count(*) ... GROUP BY "serverId". */
  type Group = (Option<string>, nat)

  function AddToGroups(groups: seq<Group>, key: Option<string>): seq<Group> {
    if groups == [] then [(key, 1)]
    else if groups[0].0 == key then [(key, groups[0].1 + 1)] + groups[1..]
    else [groups[0]] + AddToGroups(groups[1..], key)
  }

  function GroupByServer(rows: seq<Row>): seq<Group> {
    if rows == [] then []
    else AddToGroups(GroupByServer(rows[..|rows| - 1]), Cell(rows[|rows| - 1], SERVER_COLUMN))
  }

  /** The server a stored value is counted under; None for blank values. */
  function Bucket(stored: Option<string>): Option<string> {
    match stored
    case None => Some(LOCAL_SERVER_ID)
    case Some(value) => if Blank(value) then None else Some(TrimSpace(value))
  }

  function Lookup(counts: map<string, nat>, id: string): nat {
    if id in counts then counts[id] else 0
  }

  function Accumulate(counts: map<string, nat>, groups: seq<Group>): map<string, nat> {
    if groups == [] then counts
    else
      var last := groups[|groups| - 1];
      var front := Accumulate(counts, groups[..|groups| - 1]);
      match Bucket(last.0)
      case None => front
      case Some(id) => front[id := Lookup(front, id) + last.1]
  }

  function CountTables(db: Dokploy, tables: seq<SupportedTable>): map<string, nat> {
    if tables == [] then map[]
    else
      var n := |tables| - 1;
      Accumulate(CountTables(db, tables[..n]), GroupByServer(RowsOf(db, tables[n].name)))
  }

  function CountsByServer(db: Dokploy): map<string, nat> {
    CountTables(db, SupportedTables(db))
  }

  function InBucket(id: string): Test {
    (_, row) => Bucket(Cell(row, SERVER_COLUMN)) == Some(id)
  }

  function Counted(): Test {
    (_, row) => Bucket(Cell(row, SERVER_COLUMN)).Some?
  }

  /** The rows that a list of groups stands for, as far as `wanted` keeps them. */
  function GroupSum(groups: seq<Group>, wanted: Option<string> -> bool): nat {
    if groups == [] then 0
    else GroupSum(groups[..|groups| - 1], wanted)
         + if wanted(groups[|groups| - 1].0) then groups[|groups| - 1].1 else 0
  }

  lemma {:induction false} GroupSumCons(groups: seq<Group>, wanted: Option<string> -> bool)
    requires groups != []
    ensures GroupSum(groups, wanted) == (if wanted(groups[0].0) then groups[0].1 else 0) + GroupSum(groups[1..], wanted)
  {
    var n := |groups| - 1;
    if n == 0 {
      assert groups[..0] == [] && groups[1..] == [];
    } else {
      GroupSumCons(groups[..n], wanted);
      assert groups[..n][1..] == groups[1..][..n - 1];
    }
  }

  lemma {:induction false} AddToGroupsSum(groups: seq<Group>, key: Option<string>, wanted: Option<string> -> bool)
    ensures GroupSum(AddToGroups(groups, key), wanted) == GroupSum(groups, wanted) + if wanted(key) then 1 else 0
  {
    var added := AddToGroups(groups, key);
    GroupSumCons(added, wanted);
    if groups == [] {
      assert added[1..] == [];
    } else {
      GroupSumCons(groups, wanted);
      if groups[0].0 == key {
        assert added[1..] == groups[1..];
      } else {
        AddToGroupsSum(groups[1..], key, wanted);
        assert added[1..] == AddToGroups(groups[1..], key);
      }
    }
  }

  /** Grouping loses and invents no row. */
  lemma {:induction false} GroupingCountsRows(
    table: SupportedTable, rows: seq<Row>, wanted: Option<string> -> bool, test: Test)
    requires forall row: Row :: test(table, row) <==> wanted(Cell(row, SERVER_COLUMN))
    ensures GroupSum(GroupByServer(rows), wanted) == |Indices(test, table, rows)|
  {
    if rows == [] {
      assert Indices(test, table, rows) == {};
    } else {
      var n := |rows| - 1;
      GroupingCountsRows(table, rows[..n], wanted, test);
      AddToGroupsSum(GroupByServer(rows[..n]), Cell(rows[n], SERVER_COLUMN), wanted);
      var before, all := Indices(test, table, rows[..n]), Indices(test, table, rows);
      if test(table, rows[n]) {
        assert all == before + {n};
      } else {
        assert all == before;
      }
    }
  }

  lemma {:induction false} AccumulateAdds(counts: map<string, nat>, groups: seq<Group>, id: string)
    ensures Lookup(Accumulate(counts, groups), id)
            == Lookup(counts, id) + GroupSum(groups, stored => Bucket(stored) == Some(id))
  {
    if groups != [] {
      AccumulateAdds(counts, groups[..|groups| - 1], id);
    }
  }

  lemma {:induction false} CountTablesCounts(db: Dokploy, tables: seq<SupportedTable>, id: string)
    ensures Lookup(CountTables(db, tables), id) == Tally(db, tables, InBucket(id))
  {
    if tables != [] {
      var n := |tables| - 1;
      var rows := RowsOf(db, tables[n].name);
      CountTablesCounts(db, tables[..n], id);
      AccumulateAdds(CountTables(db, tables[..n]), GroupByServer(rows), id);
      GroupingCountsRows(tables[n], rows, stored => Bucket(stored) == Some(id), InBucket(id));
    }
  }

  /** A server's count is the number of supported rows that store it, up to surrounding
      white space; NULL stands for the built-in server. */
  lemma CountExact(db: Dokploy, id: string)
    requires id != ""
    ensures Lookup(CountsByServer(db), id) == Tally(db, SupportedTables(db), (_, row) =>
      var stored := Cell(row, "serverId");
      if stored.None? then id == "__dokploy_local__" else TrimSpace(stored.value) == id)
  {
    var test: Test := (_, row) =>
      var stored := Cell(row, "serverId");
      if stored.None? then id == "__dokploy_local__" else TrimSpace(stored.value) == id;
    CountTablesCounts(db, SupportedTables(db), id);
    TallySame(db, db, SupportedTables(db), InBucket(id), test);
  }

  /** Every row is counted under `id` just when it is listed for `id`. */
  predicate CountedAsListed(db: Dokploy, tables: seq<SupportedTable>, id: string) {
    forall t <- tables, i | 0 <= i < |RowsOf(db, t.name)| ::
      InBucket(id)(t, RowsOf(db, t.name)[i]) <==> HeldBy(Slot(id))(t, RowsOf(db, t.name)[i])
  }

  lemma TrimmedBucket(id: string)
    requires Trimmed(id) && !Blank(id)
    ensures Bucket(Slot(id)) == Some(id)
  {
  }

  /** Nothing is ever counted under a blank or padded name. */
  lemma PaddedBucket(stored: Option<string>, id: string)
    requires Blank(id) || !Trimmed(id)
    ensures Bucket(stored) != Some(id)
  {
    if stored.Some? {
      TrimSpaceIsTrimmed(stored.value);
    }
  }

  /** Where one test implies the other, equal tallies mean equal tests. */
  lemma NestedTallies(db: Dokploy, tables: seq<SupportedTable>, wide: Test, narrow: Test)
    requires forall t <- tables, i | 0 <= i < |RowsOf(db, t.name)| ::
      narrow(t, RowsOf(db, t.name)[i]) ==> wide(t, RowsOf(db, t.name)[i])
    ensures Tally(db, tables, wide) >= Tally(db, tables, narrow)
    ensures Tally(db, tables, wide) == Tally(db, tables, narrow) <==>
      forall t <- tables, i | 0 <= i < |RowsOf(db, t.name)| ::
        wide(t, RowsOf(db, t.name)[i]) <==> narrow(t, RowsOf(db, t.name)[i])
  {
    var rest: Test := (t, row) => wide(t, row) && !narrow(t, row);
    TallySplits(db, db, tables, wide, narrow, rest);
    if Tally(db, tables, rest) == 0 {
      forall t <- tables, i | 0 <= i < |RowsOf(db, t.name)| ensures !rest(t, RowsOf(db, t.name)[i]) {
        TallyZero(db, tables, rest, t, i);
      }
    } else if forall t <- tables, i | 0 <= i < |RowsOf(db, t.name)| :: !rest(t, RowsOf(db, t.name)[i]) {
      TallyNone(db, tables, rest);
    }
  }

  /** The count shown for a server is the length of its listing exactly when every row is
      counted under it just when it is listed for it. Under a trimmed name the count is
      never smaller; under a blank or padded one it is zero. */
  lemma CountMatchesListingExactly(db: Dokploy, tables: seq<SupportedTable>, id: string)
    requires ListTables(db, tables, id).Some?
    ensures Lookup(CountTables(db, tables), id) == |ListTables(db, tables, id).value| <==>
      CountedAsListed(db, tables, id)
    ensures if Trimmed(id) && !Blank(id)
      then Lookup(CountTables(db, tables), id) >= |ListTables(db, tables, id).value|
      else Lookup(CountTables(db, tables), id) == 0
  {
    CountTablesCounts(db, tables, id);
    TablesListingLength(db, tables, id);
    if Trimmed(id) && !Blank(id) {
      TrimmedBucket(id);
      NestedTallies(db, tables, InBucket(id), HeldBy(Slot(id)));
    } else {
      forall stored: Option<string> ensures Bucket(stored) != Some(id) {
        PaddedBucket(stored, id);
      }
      TallyNone(db, tables, InBucket(id));
      NestedTallies(db, tables, HeldBy(Slot(id)), InBucket(id));
    }
  }

  /** A committed plan of k rows adds k to the count its target is counted under and takes
      k from the count its source is counted under, whatever else the tables store. */
  lemma CommitShiftsCounts(
    db: Dokploy, allowed: set<string>, plan: MigrationPlan, approval: string, id: string)
    requires WellFormed(db) && Committed(db, allowed, plan, approval).Some?
    ensures var after, k := Committed(db, allowed, plan, approval).value, |plan.rows|;
      Lookup(CountsByServer(after), id) == Lookup(CountsByServer(db), id)
        + (if Bucket(Slot(plan.targetServerID)) == Some(id) then k else 0)
        - (if Bucket(Slot(plan.sourceServerID)) == Some(id) then k else 0)
    ensures Trimmed(plan.sourceServerID) && Trimmed(plan.targetServerID) ==>
      Lookup(CountsByServer(Committed(db, allowed, plan, approval).value), id)
      == Lookup(CountsByServer(db), id) + Balance(plan, id)
  {
    CommitShiftsTally(db, allowed, plan, approval, InBucketOf(id));
    CountIsOnServer(db, id);
    CountIsOnServer(Committed(db, allowed, plan, approval).value, id);
    CommittedIsWritable(db, allowed, plan, approval);
    TrimmedBalance(plan, id);
  }

  lemma CommittedIsWritable(db: Dokploy, allowed: set<string>, plan: MigrationPlan, approval: string)
    requires Committed(db, allowed, plan, approval).Some?
    ensures !Blank(plan.sourceServerID) && !Blank(plan.targetServerID) && plan.sourceServerID != plan.targetServerID
  {
  }

  lemma TrimmedBalance(plan: MigrationPlan, id: string)
    requires !Blank(plan.sourceServerID) && !Blank(plan.targetServerID) && plan.sourceServerID != plan.targetServerID
    ensures Trimmed(plan.sourceServerID) && Trimmed(plan.targetServerID) ==>
      (if Bucket(Slot(plan.targetServerID)) == Some(id) then |plan.rows| else 0)
      - (if Bucket(Slot(plan.sourceServerID)) == Some(id) then |plan.rows| else 0) == Balance(plan, id)
  {
    if Trimmed(plan.sourceServerID) && Trimmed(plan.targetServerID) {
      TrimmedBucket(plan.sourceServerID);
      TrimmedBucket(plan.targetServerID);
    }
  }

  function InBucketOf(id: string): Option<string> -> bool {
    (stored: Option<string>) => Bucket(stored) == Some(id)
  }

  lemma CountIsOnServer(db: Dokploy, id: string)
    ensures Lookup(CountsByServer(db), id) == Tally(db, SupportedTables(db), OnServer(InBucketOf(id)))
  {
    CountTablesCounts(db, SupportedTables(db), id);
    TallySame(db, db, SupportedTables(db), InBucket(id), OnServer(InBucketOf(id)));
  }

  ghost function Sum(counts: map<string, nat>): nat
    decreases |counts|
  {
    if counts == map[] then 0
    else
      var id :| id in counts;
      counts[id] + Sum(counts - {id})
  }

  lemma {:induction false} SumWithout(counts: map<string, nat>, id: string)
    requires id in counts
    ensures Sum(counts) == counts[id] + Sum(counts - {id})
    decreases |counts|
  {
    var first :| first in counts && Sum(counts) == counts[first] + Sum(counts - {first});
    if first != id {
      SumWithout(counts - {first}, id);
      SumWithout(counts - {id}, first);
      assert counts - {first} - {id} == counts - {id} - {first};
    }
  }

  lemma SumIncrease(counts: map<string, nat>, id: string, k: nat)
    ensures Sum(counts[id := Lookup(counts, id) + k]) == Sum(counts) + k
  {
    var more := counts[id := Lookup(counts, id) + k];
    SumWithout(more, id);
    if id in counts {
      SumWithout(counts, id);
      assert more - {id} == counts - {id};
    } else {
      assert more - {id} == counts;
    }
  }

  lemma {:induction false} AccumulateSum(counts: map<string, nat>, groups: seq<Group>)
    ensures Sum(Accumulate(counts, groups)) == Sum(counts) + GroupSum(groups, stored => Bucket(stored).Some?)
  {
    if groups != [] {
      var n := |groups| - 1;
      AccumulateSum(counts, groups[..n]);
      if Bucket(groups[n].0).Some? {
        SumIncrease(Accumulate(counts, groups[..n]), Bucket(groups[n].0).value, groups[n].1);
      }
    }
  }

  /** The counts add up to the rows whose stored server is not blank. */
  lemma {:induction false} CountsSumToRows(db: Dokploy, tables: seq<SupportedTable>)
    ensures Sum(CountTables(db, tables)) == Tally(db, tables, Counted())
  {
    if tables != [] {
      var n := |tables| - 1;
      var rows := RowsOf(db, tables[n].name);
      CountsSumToRows(db, tables[..n]);
      AccumulateSum(CountTables(db, tables[..n]), GroupByServer(rows));
      GroupingCountsRows(tables[n], rows, stored => Bucket(stored).Some?, Counted());
    }
  }
}
