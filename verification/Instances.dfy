/** Small concrete databases on which the exact conditions of other modules show both
    ways: one allowlisted table with its default id column and a server column. */
module Instances {
  import opened Wrappers
  import opened Text
  import opened Model
  import opened Sorting
  import opened Tables
  import opened Rendering
  import opened Retarget
  import opened Listing
  import opened Tallies
  import opened DryRun
  import opened Counts
  import opened PlanSubset
  import opened Selection
  import opened BuiltPlans

  function Columns(table: string): set<string> {
    {table + "Id", SERVER_COLUMN}
  }

  function Stored(table: string, id: string, server: Option<string>): Row {
    map[table + "Id" := Some(id), SERVER_COLUMN := server]
  }

  function OneTable(table: string, rows: seq<Row>, fingerprint: string): Dokploy {
    Dokploy(fingerprint, map[table := Table(Columns(table), rows)])
  }

  function OnlyTable(table: string): SupportedTable {
    SupportedTable(table, table + "Id", false)
  }

  lemma ColumnsDiffer(table: string)
    requires IsRetargetTable(table)
    ensures table + "Id" != SERVER_COLUMN && table + "Id" != NAME_COLUMN && table + "Id" != "id"
    ensures NAME_COLUMN !in Columns(table) && "id" !in Columns(table)
  {
    TableIsPlain(table);
    ServerColumnIsNoCandidate(table);
    CandidatesAre(table);
    assert (table + "Id")[|table|] == 'I';
    assert |table + "Id"| == |table| + 2;
    assert forall i | 0 <= i < 4 :: NAME_COLUMN[i] != 'I';
  }

  lemma OneTableIsSupported(table: string, rows: seq<Row>, fingerprint: string)
    requires IsRetargetTable(table)
    ensures SupportedTables(OneTable(table, rows, fingerprint)) == [OnlyTable(table)]
    ensures HasSupportedTables(OneTable(table, rows, fingerprint))
  {
    var db := OneTable(table, rows, fingerprint);
    ColumnsDiffer(table);
    OneTableDescribed(table, rows, fingerprint);
    SupportedTablesExact(db);
    var tables := SupportedTables(db);
    assert OnlyTable(table) in tables;
    forall i | 0 <= i < |tables| ensures tables[i] == OnlyTable(table) {
      assert tables[i] in tables;
    }
    OnlyElement(tables, OnlyTable(table));
    assert db.tables[table].columns != {} by {
      assert SERVER_COLUMN in Columns(table);
    }
  }

  lemma OnlyElement(tables: seq<SupportedTable>, t: SupportedTable)
    requires t in tables && DistinctNames(tables) && forall i | 0 <= i < |tables| :: tables[i] == t
    ensures tables == [t]
  {
    assert |tables| >= 2 ==> tables[0].name != tables[1].name;
  }

  lemma OneTableDescribed(table: string, rows: seq<Row>, fingerprint: string)
    requires IsRetargetTable(table)
    ensures Describe(OneTable(table, rows, fingerprint), table) == Some(OnlyTable(table))
  {
    ColumnsDiffer(table);
    ListedColumnIsApplicable(table, Columns(table));
    ValidatedIDColumnExact(table, table + "Id");
    ValidatedIDColumnExact(table, SERVER_COLUMN);
    assert table + "Id" in Columns(table);
    var column := ResourceIDColumn(table, Columns(table)).value;
    assert column in Columns(table) && column != SERVER_COLUMN;
  }

  lemma {:induction false} OneTableTally(table: string, rows: seq<Row>, fingerprint: string, test: Test)
    requires IsRetargetTable(table)
    ensures Tally(OneTable(table, rows, fingerprint), [OnlyTable(table)], test) == |Indices(test, OnlyTable(table), rows)|
  {
    var db := OneTable(table, rows, fingerprint);
    assert [OnlyTable(table)][..0] == [];
    assert Tally(db, [], test) == 0;
  }

  lemma OneTableListed(table: string, rows: seq<Row>, fingerprint: string, serverID: string)
    requires IsRetargetTable(table)
    requires forall i | 0 <= i < |rows| :: Cell(rows[i], table + "Id").Some?
    ensures var db := OneTable(table, rows, fingerprint);
      && ListServerResources(db, serverID).Some?
      && |ListServerResources(db, serverID).value| == |Indices(HeldBy(Slot(serverID)), OnlyTable(table), rows)|
  {
    var db := OneTable(table, rows, fingerprint);
    OneTableIsSupported(table, rows, fingerprint);
    ListTablesSucceeds(db, [OnlyTable(table)], serverID);
    TablesListingLength(db, [OnlyTable(table)], serverID);
    OneTableTally(table, rows, fingerprint, HeldBy(Slot(serverID)));
  }

  lemma OneTableCounted(table: string, rows: seq<Row>, fingerprint: string, id: string)
    requires IsRetargetTable(table)
    ensures Lookup(CountsByServer(OneTable(table, rows, fingerprint)), id)
            == |Indices(InBucket(id), OnlyTable(table), rows)|
  {
    var db := OneTable(table, rows, fingerprint);
    OneTableIsSupported(table, rows, fingerprint);
    CountTablesCounts(db, [OnlyTable(table)], id);
    OneTableTally(table, rows, fingerprint, InBucket(id));
  }

  // -------------------------------------------------------------- counts

  lemma PaddedTrims()
    ensures TrimSpace(" s") == "s" && !Blank(" s") && Trimmed("s") && !Blank("s")
  {
    assert " s"[1..] == "s";
  }

  lemma OneRow(test: Test, table: string, row: Row)
    ensures |Indices(test, OnlyTable(table), [row])| == if test(OnlyTable(table), row) then 1 else 0
  {
    var found := Indices(test, OnlyTable(table), [row]);
    assert found == if test(OnlyTable(table), row) then {0} else {};
  }

  /** What one stored row adds to a count and to a listing. */
  lemma OneRowShown(table: string, id: string, server: Option<string>, fingerprint: string, serverID: string)
    requires IsRetargetTable(table)
    ensures var db := OneTable(table, [Stored(table, id, server)], fingerprint);
      && ListServerResources(db, serverID).Some?
      && |ListServerResources(db, serverID).value| == (if server == Slot(serverID) then 1 else 0)
      && Lookup(CountsByServer(db), serverID) == (if Bucket(server) == Some(serverID) then 1 else 0)
  {
    var row := Stored(table, id, server);
    ColumnsDiffer(table);
    OneTableListed(table, [row], fingerprint, serverID);
    OneTableCounted(table, [row], fingerprint, serverID);
    OneRow(HeldBy(Slot(serverID)), table, row);
    OneRow(InBucket(serverID), table, row);
  }

  /** A row stored under " s" counts for "s" without being listed for it, and is listed
      for " s", under which nothing counts: once the count is too large, once too small. */
  lemma PaddedServerMiscounts(table: string, id: string, fingerprint: string)
    requires IsRetargetTable(table)
    ensures var db := OneTable(table, [Stored(table, id, Some(" s"))], fingerprint);
      && ListServerResources(db, "s") == Some([]) && Lookup(CountsByServer(db), "s") == 1
      && ListServerResources(db, " s").Some? && |ListServerResources(db, " s").value| == 1
      && Lookup(CountsByServer(db), " s") == 0
  {
    PaddedTrims();
    OneRowShown(table, id, Some(" s"), fingerprint, "s");
    OneRowShown(table, id, Some(" s"), fingerprint, " s");
  }

  // -------------------------------------------------------------- one id twice

  /** A table that stores one id twice on the source. */
  function Twice(table: string, id: string, source: string, fingerprint: string): Dokploy {
    OneTable(table, [Stored(table, id, Slot(source)), Stored(table, id, Slot(source))], fingerprint)
  }

  lemma TwiceListed(table: string, id: string, source: string, fingerprint: string)
    requires IsRetargetTable(table)
    ensures var listed := ListServerResources(Twice(table, id, source, fingerprint), source);
      listed.Some? && |listed.value| == 2 && forall resource <- listed.value :: resource.kind == table && resource.id == id
  {
    var row := Stored(table, id, Slot(source));
    var db := Twice(table, id, source, fingerprint);
    ColumnsDiffer(table);
    OneTableListed(table, [row, row], fingerprint, source);
    BothRows(HeldBy(Slot(source)), table, row);
    forall resource <- ListServerResources(db, source).value ensures resource.kind == table && resource.id == id {
      TwiceResource(table, id, source, fingerprint, resource);
    }
  }

  lemma BothRows(test: Test, table: string, row: Row)
    requires test(OnlyTable(table), row)
    ensures |Indices(test, OnlyTable(table), [row, row])| == 2
  {
    assert Indices(test, OnlyTable(table), [row, row]) == {0, 1};
  }

  lemma TwiceResource(table: string, id: string, source: string, fingerprint: string, resource: Resource)
    requires IsRetargetTable(table)
    requires var listed := ListServerResources(Twice(table, id, source, fingerprint), source);
      listed.Some? && resource in listed.value
    ensures resource.kind == table && resource.id == id
  {
    var row := Stored(table, id, Slot(source));
    ColumnsDiffer(table);
    OneTableIsSupported(table, [row, row], fingerprint);
    var t, i := ListedRow(Twice(table, id, source, fingerprint), [OnlyTable(table)], source, resource);
  }

  /** The dry-run of a table that stores one id twice has two rows with one key: one
      checkbox moves both, and the manager accepts no choice of them. */
  lemma OneIDTwiceSharesACheckbox(
    table: string, id: string, source: string, target: string, fingerprint: string, planID: string, now: string)
    returns (plan: MigrationPlan)
    requires IsRetargetTable(table) && Trimmed(source) && Trimmed(target)
    requires source != "" && target != "" && source != target
    ensures BuildRetargetPlan(Twice(table, id, source, fingerprint), {}, source, target, planID, now) == Success(plan)
    ensures |plan.rows| == 2 && PlanRowKey(plan.rows[0]) == PlanRowKey(plan.rows[1])
    ensures !WellFormedRows(plan.rows)
  {
    var db := Twice(table, id, source, fingerprint);
    var row := Stored(table, id, Slot(source));
    OneTableIsSupported(table, [row, row], fingerprint);
    TwiceListed(table, id, source, fingerprint);
    var listed := ListServerResources(db, source).value;
    plan := MigrationPlan(planID, source, target, now, fingerprint, PlanRows(listed, source, target));
    assert listed[0] in listed && listed[1] in listed;
    BuiltRowFits(db, {}, source, target, plan, 0);
    BuiltRowFits(db, {}, source, target, plan, 1);
    KeyTellsResource(db, plan, plan.rows[0], plan.rows[1]);
    WellFormedExactly(db, {}, source, target, plan);
  }

  // -------------------------------------------------------------- twins

  /** There is a database on which an apply commits and its rollback fails. */
  lemma TwinExampleExists() returns (db: Dokploy, plan: MigrationPlan)
    ensures TwinExample(db, plan)
  {
    var table := RETARGET_TABLES[0];
    var row := PlanRow(table, "id", "x", "", "a", "b");
    plan := MigrationPlan("p", "a", "b", "", "h", [row]);
    var here: Row := map["id" := Some(row.id), SERVER_COLUMN := Slot(row.oldServerID)];
    var there: Row := map["id" := Some(row.id), SERVER_COLUMN := Slot(row.newServerID)];
    db := Dokploy("h", map[table := Table({"id", SERVER_COLUMN}, [here, there])]);
    TableIsPlain(table);
    InkIsNotBlank(table);
    InkIsNotBlank("x");
    InkIsNotBlank("p");
    InkIsNotBlank("a");
    InkIsNotBlank("b");
    InkIsNotBlank("h");
    assert WritablePlan(plan);
  }

  // -------------------------------------------------------------- a dry-run

  /** There is a database with a nonempty dry-run that can be reviewed and applied. */
  lemma WholeDryRunExists() returns (db: Dokploy, plan: MigrationPlan)
    ensures WholeDryRun(db, {}, plan, plan.schemaHash, "a", "b") && WellFormedRows(plan.rows)
  {
    var table := RETARGET_TABLES[0];
    var row := Stored(table, "x", Some("a"));
    db := OneTable(table, [row], "h");
    ColumnsDiffer(table);
    OneTableIsSupported(table, [row], "h");
    InkIsNotBlank("x");
    InkIsNotBlank("p");
    InkIsNotBlank("h");
    OneRowShown(table, "x", Some("a"), "h", "a");
    var listed := ListServerResources(db, "a").value;
    plan := MigrationPlan("p", "a", "b", "", "h", PlanRows(listed, "a", "b"));
    LettersAreTrimmed();
    OneRowResource(table, listed[0]);
    OneRowIsWhole(db, table, row, plan);
  }

  lemma LettersAreTrimmed()
    ensures TrimSpace("a") == "a" && TrimSpace("b") == "b"
  {
  }

  lemma OneRowResource(table: string, resource: Resource)
    requires IsRetargetTable(table)
    requires var listed := ListServerResources(OneTable(table, [Stored(table, "x", Some("a"))], "h"), "a");
      listed.Some? && resource in listed.value
    ensures resource.kind == table && resource.id == "x"
  {
    var row := Stored(table, "x", Some("a"));
    ColumnsDiffer(table);
    OneTableIsSupported(table, [row], "h");
    var t, i := ListedRow(OneTable(table, [row], "h"), [OnlyTable(table)], "a", resource);
  }

  lemma OneRowIsSound(table: string, row: Row)
    requires IsRetargetTable(table) && row == Stored(table, "x", Some("a")) && !Blank("x")
    ensures WellFormed(OneTable(table, [row], "h")) && SoundIDs(OneTable(table, [row], "h"), [OnlyTable(table)])
  {
    ColumnsDiffer(table);
  }

  lemma OneRowIsBuilt(db: Dokploy, table: string, row: Row, rows: seq<PlanRow>)
    requires IsRetargetTable(table) && db == OneTable(table, [row], "h")
    requires TrimSpace("a") == "a" && TrimSpace("b") == "b"
    requires ListServerResources(db, "a").Some? && rows == PlanRows(ListServerResources(db, "a").value, "a", "b")
    ensures BuildRetargetPlan(db, {}, "a", "b", "p", "") == Success(MigrationPlan("p", "a", "b", "", "h", rows))
  {
    OneTableIsSupported(table, [row], "h");
  }

  lemma WholeFromParts(db: Dokploy, plan: MigrationPlan, rawSource: string, rawTarget: string)
    requires WellFormed(db) && SoundIDs(db, SupportedTables(db)) && plan.rows != []
    requires BuildRetargetPlan(db, {}, rawSource, rawTarget, plan.id, plan.createdAt) == Success(plan)
    requires !Blank(plan.id) && !Blank(db.fingerprint) && plan.schemaHash == db.fingerprint
    ensures WholeDryRun(db, {}, plan, plan.schemaHash, rawSource, rawTarget)
  {
    InkIsSchema(db, db.fingerprint);
  }

  lemma SingleRow(rows: seq<PlanRow>)
    requires |rows| == 1 && !Blank(rows[0].id)
    ensures forall row <- rows :: !Blank(row.id)
  {
  }

  lemma OnlyRowIsWellFormed(db: Dokploy, plan: MigrationPlan, rawSource: string, rawTarget: string)
    requires BuildRetargetPlan(db, {}, rawSource, rawTarget, plan.id, plan.createdAt) == Success(plan)
    requires |plan.rows| == 1 && !Blank(plan.rows[0].id)
    ensures WellFormedRows(plan.rows)
  {
    SingleRow(plan.rows);
    WellFormedExactly(db, {}, rawSource, rawTarget, plan);
  }

  lemma OneRowIsWhole(db: Dokploy, table: string, row: Row, plan: MigrationPlan)
    requires IsRetargetTable(table) && row == Stored(table, "x", Some("a")) && db == OneTable(table, [row], "h")
    requires !Blank("x") && !Blank("p") && !Blank("h") && TrimSpace("a") == "a" && TrimSpace("b") == "b"
    requires ListServerResources(db, "a").Some? && |ListServerResources(db, "a").value| == 1
    requires ListServerResources(db, "a").value[0].kind == table && ListServerResources(db, "a").value[0].id == "x"
    requires plan == MigrationPlan("p", "a", "b", "", "h", PlanRows(ListServerResources(db, "a").value, "a", "b"))
    ensures WholeDryRun(db, {}, plan, plan.schemaHash, "a", "b") && WellFormedRows(plan.rows)
  {
    OneTableIsSupported(table, [row], "h");
    OneRowIsSound(table, row);
    OneRowIsBuilt(db, table, row, plan.rows);
    WholeFromParts(db, plan, "a", "b");
    OnlyRowIsWellFormed(db, plan, "a", "b");
  }
}
