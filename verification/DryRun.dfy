/** What a dry-run lists, and what applying a whole dry-run leaves behind:
    internal/dokploydb/postgres.go. */
module DryRun {
  import opened Wrappers
  import opened Text
  import opened Model
  import opened Sorting
  import opened Tables
  import opened Rendering
  import opened Retarget
  import opened Listing
  import opened Tallies

  // -------------------------------------------------------------- any tables

  /** Distinct tables that exist, each with a server column and another id column. */
  predicate Usable(db: Dokploy, tables: seq<SupportedTable>) {
    && DistinctNames(tables)
    && forall t <- tables ::
      && t.name in db.tables
      && t.idColumn in db.tables[t.name].columns && t.idColumn != SERVER_COLUMN && t.idColumn != ""
      && SERVER_COLUMN in db.tables[t.name].columns
  }

  /** Every row has a nonblank id, and no two rows of a table share one. */
  predicate SoundIDs(db: Dokploy, tables: seq<SupportedTable>) {
    && (forall t <- tables, i | 0 <= i < |RowsOf(db, t.name)| ::
        Cell(RowsOf(db, t.name)[i], t.idColumn).Some? && !Blank(Cell(RowsOf(db, t.name)[i], t.idColumn).value))
    && (forall t <- tables, i, j | 0 <= i < |RowsOf(db, t.name)| && 0 <= j < |RowsOf(db, t.name)| ::
        Cell(RowsOf(db, t.name)[i], t.idColumn) == Cell(RowsOf(db, t.name)[j], t.idColumn) ==> i == j)
  }

  function Same(): Resource -> Resource {
    (resource: Resource) => resource
  }

  function Retag(serverID: string): Resource -> Resource {
    (resource: Resource) => resource.(serverID := serverID)
  }

  lemma MapSame(s: seq<Resource>)
    ensures Map(Same(), s) == s
  {
    assert forall i | 0 <= i < |s| :: Map(Same(), s)[i] == s[i];
  }

  /** Where a listed resource comes from. */
  lemma ListedRow(db: Dokploy, tables: seq<SupportedTable>, serverID: string, resource: Resource)
    returns (t: SupportedTable, i: nat)
    requires ListTables(db, tables, serverID).Some? && resource in ListTables(db, tables, serverID).value
    ensures t in tables && i < |RowsOf(db, t.name)|
    ensures Cell(RowsOf(db, t.name)[i], SERVER_COLUMN) == Slot(serverID)
    ensures Render(t, RowsOf(db, t.name)[i], serverID) == resource
  {
    var listed := ListTables(db, tables, serverID).value;
    TablesListedOnce(db, tables, serverID, Same(), resource);
    MapSame(listed);
    assert resource in multiset(listed);
    t, i := TallyWitness(db, tables, Shows(Slot(serverID), serverID, Same(), resource));
  }

  lemma RowIsListed(db: Dokploy, tables: seq<SupportedTable>, serverID: string, t: SupportedTable, i: nat)
    requires ListTables(db, tables, serverID).Some?
    requires t in tables && i < |RowsOf(db, t.name)|
    requires Cell(RowsOf(db, t.name)[i], SERVER_COLUMN) == Slot(serverID)
    ensures Render(t, RowsOf(db, t.name)[i], serverID) in ListTables(db, tables, serverID).value
  {
    var listed := ListTables(db, tables, serverID).value;
    var resource := Render(t, RowsOf(db, t.name)[i], serverID);
    TablesListedOnce(db, tables, serverID, Same(), resource);
    MapSame(listed);
    if Tally(db, tables, Shows(Slot(serverID), serverID, Same(), resource)) == 0 {
      TallyZero(db, tables, Shows(Slot(serverID), serverID, Same(), resource), t, i);
    }
    assert resource in multiset(listed);
  }

  lemma SameRenderSameRow(
    db: Dokploy, tables: seq<SupportedTable>, serverID: string, t: SupportedTable, i: nat, u: SupportedTable, x: nat)
    requires DistinctNames(tables) && SoundIDs(db, tables) && t in tables && u in tables
    requires i < |RowsOf(db, t.name)| && x < |RowsOf(db, u.name)|
    requires Render(t, RowsOf(db, t.name)[i], serverID) == Render(u, RowsOf(db, u.name)[x], serverID)
    ensures u == t && x == i
  {
    assert u.name == t.name;
    assert Cell(RowsOf(db, t.name)[i], t.idColumn) == Cell(RowsOf(db, t.name)[x], t.idColumn);
  }

  /** With sound ids no listed resource repeats. */
  lemma ListedOnceEach(db: Dokploy, tables: seq<SupportedTable>, serverID: string, j: nat, k: nat)
    requires DistinctNames(tables) && SoundIDs(db, tables) && ListTables(db, tables, serverID).Some?
    requires j < k < |ListTables(db, tables, serverID).value|
    ensures ListTables(db, tables, serverID).value[j] != ListTables(db, tables, serverID).value[k]
  {
    var listed := ListTables(db, tables, serverID).value;
    if listed[j] == listed[k] {
      var test := Shows(Slot(serverID), serverID, Same(), listed[j]);
      TwoPlacesMeanTwice(listed, j, k);
      TablesListedOnce(db, tables, serverID, Same(), listed[j]);
      MapSame(listed);
      var t, i := ListedRow(db, tables, serverID, listed[j]);
      forall u, x: nat | u in tables && x < |RowsOf(db, u.name)| && test(u, RowsOf(db, u.name)[x])
        ensures u == t && x == i
      {
        SameRenderSameRow(db, tables, serverID, t, i, u, x);
      }
      TallyAtMostOne(db, tables, test, t, i);
    }
  }

  /** What a dry-run's row is on the database it was listed from. */
  lemma DryRunRow(db: Dokploy, tables: seq<SupportedTable>, source: string, target: string, k: nat)
    returns (t: SupportedTable, i: nat)
    requires Usable(db, tables) && SoundIDs(db, tables) && ListTables(db, tables, source).Some?
    requires k < |ListTables(db, tables, source).value|
    ensures var row := PlanRows(ListTables(db, tables, source).value, source, target)[k];
      && t in tables && i < |RowsOf(db, t.name)| && row.table == t.name && row.idColumn == t.idColumn
      && !Blank(row.id) && HasColumns(db, MoveOf(row)) && MoveOf(row).idColumn == t.idColumn
      && Guard(MoveOf(row), RowsOf(db, t.name)[i])
      && UniqueID(db, MoveOf(row))
    ensures Render(t, RowsOf(db, t.name)[i], source) == ListTables(db, tables, source).value[k]
  {
    t, i := ListedRow(db, tables, source, ListTables(db, tables, source).value[k]);
  }

  lemma DryRunRowsDiffer(db: Dokploy, tables: seq<SupportedTable>, source: string, target: string, j: nat, k: nat)
    requires Usable(db, tables) && SoundIDs(db, tables) && ListTables(db, tables, source).Some?
    requires j < k < |ListTables(db, tables, source).value|
    ensures var rows := PlanRows(ListTables(db, tables, source).value, source, target);
      !Clash(db, MoveOf(rows[j]), MoveOf(rows[k]))
  {
    var t, i := DryRunRow(db, tables, source, target, j);
    var u, x := DryRunRow(db, tables, source, target, k);
    ListedOnceEach(db, tables, source, j, k);
  }

  /** With sound ids every dry-run is ready to be applied to the database it was read from. */
  lemma DryRunIsReady(db: Dokploy, tables: seq<SupportedTable>, source: string, target: string)
    requires Usable(db, tables) && SoundIDs(db, tables) && ListTables(db, tables, source).Some?
    ensures var rows := PlanRows(ListTables(db, tables, source).value, source, target);
      && Ready(db, Moves(rows)) && UniquePlanIDs(db, rows)
      && forall row <- rows :: !Blank(row.id)
  {
    var rows := PlanRows(ListTables(db, tables, source).value, source, target);
    forall row <- rows ensures !Blank(row.id) && UniqueID(db, MoveOf(row)) {
      var k :| 0 <= k < |rows| && rows[k] == row;
      var t, i := DryRunRow(db, tables, source, target, k);
    }
    var ms := Moves(rows);
    forall m <- ms ensures Placed(db, m) {
      var k :| 0 <= k < |ms| && ms[k] == m;
      var t, i := DryRunRow(db, tables, source, target, k);
    }
    forall j, k | 0 <= j < k < |ms| ensures !Clash(db, ms[j], ms[k]) {
      DryRunRowsDiffer(db, tables, source, target, j, k);
    }
  }

  /** Every row on the source is named by the dry-run. */
  lemma DryRunNamesSource(
    db: Dokploy, tables: seq<SupportedTable>, source: string, target: string, t: SupportedTable, i: nat)
    requires Usable(db, tables) && SoundIDs(db, tables) && ListTables(db, tables, source).Some?
    requires t in tables && i < |RowsOf(db, t.name)|
    requires Cell(RowsOf(db, t.name)[i], SERVER_COLUMN) == Slot(source)
    ensures Names(PlanRows(ListTables(db, tables, source).value, source, target), t.name, RowsOf(db, t.name)[i])
  {
    var listed := ListTables(db, tables, source).value;
    var rows := PlanRows(listed, source, target);
    RowIsListed(db, tables, source, t, i);
    var k :| 0 <= k < |listed| && listed[k] == Render(t, RowsOf(db, t.name)[i], source);
    var u, x := DryRunRow(db, tables, source, target, k);
    SameRenderSameRow(db, tables, source, t, i, u, x);
    assert rows[k] in rows;
  }

  /** `after` is `db` with exactly the source's rows handed to the target. */
  ghost predicate HandedOver(db: Dokploy, after: Dokploy, tables: seq<SupportedTable>, source: string, target: string) {
    && SameButServers(db, after)
    && forall t <- tables, i | 0 <= i < |RowsOf(db, t.name)| ::
      Cell(RowsOf(after, t.name)[i], SERVER_COLUMN) ==
        if Cell(RowsOf(db, t.name)[i], SERVER_COLUMN) == Slot(source) then Slot(target)
        else Cell(RowsOf(db, t.name)[i], SERVER_COLUMN)
  }

  lemma SoundListing(db: Dokploy, tables: seq<SupportedTable>, serverID: string)
    requires SoundIDs(db, tables)
    ensures ListTables(db, tables, serverID).Some?
  {
    ListTablesSucceeds(db, tables, serverID);
  }

  lemma SoundIDsKept(db: Dokploy, after: Dokploy, tables: seq<SupportedTable>)
    requires Usable(db, tables) && SoundIDs(db, tables) && SameButServers(db, after)
    ensures Usable(after, tables) && SoundIDs(after, tables)
  {
    forall t <- tables, i | 0 <= i < |RowsOf(db, t.name)|
      ensures Cell(RowsOf(after, t.name)[i], t.idColumn) == Cell(RowsOf(db, t.name)[i], t.idColumn)
    {
    }
  }

  /** After the handover the source lists nothing. */
  lemma HandoverEmptiesSource(db: Dokploy, after: Dokploy, tables: seq<SupportedTable>, source: string, target: string)
    requires Usable(db, tables) && SoundIDs(db, tables) && source != target
    requires HandedOver(db, after, tables, source, target)
    ensures ListTables(after, tables, source) == Some([])
  {
    SlotInjective(source, target);
    SoundIDsKept(db, after, tables);
    SoundListing(after, tables, source);
    TablesListingLength(after, tables, source);
    TallyNone(after, tables, HeldBy(Slot(source)));
  }

  lemma RenderKept(db: Dokploy, after: Dokploy, t: SupportedTable, i: nat, serverID: string)
    requires SameButServers(db, after) && t.name in db.tables && i < |RowsOf(db, t.name)|
    requires t.idColumn != SERVER_COLUMN
    ensures i < |RowsOf(after, t.name)|
    ensures Render(t, RowsOf(after, t.name)[i], serverID) == Render(t, RowsOf(db, t.name)[i], serverID)
  {
  }

  /** After the handover the target lists what it listed and what the source listed. */
  lemma HandoverFillsTarget(db: Dokploy, after: Dokploy, tables: seq<SupportedTable>, source: string, target: string)
    requires Usable(db, tables) && SoundIDs(db, tables) && source != target
    requires HandedOver(db, after, tables, source, target)
    ensures ListTables(after, tables, target).Some? && ListTables(db, tables, target).Some?
    ensures ListTables(db, tables, source).Some?
    ensures multiset(ListTables(after, tables, target).value) ==
      multiset(ListTables(db, tables, target).value)
      + multiset(Map(Retag(target), ListTables(db, tables, source).value))
  {
    SoundIDsKept(db, after, tables);
    SoundListing(after, tables, target);
    SoundListing(db, tables, target);
    SoundListing(db, tables, source);
    SlotInjective(source, target);
    forall x: Resource
      ensures multiset(ListTables(after, tables, target).value)[x] ==
        multiset(ListTables(db, tables, target).value)[x]
        + multiset(Map(Retag(target), ListTables(db, tables, source).value))[x]
    {
      TargetGains(db, after, tables, source, target, x);
    }
  }

  lemma TargetGains(
    db: Dokploy, after: Dokploy, tables: seq<SupportedTable>, source: string, target: string, x: Resource)
    requires Usable(db, tables) && Slot(source) != Slot(target)
    requires HandedOver(db, after, tables, source, target)
    requires ListTables(after, tables, target).Some? && ListTables(db, tables, target).Some?
    requires ListTables(db, tables, source).Some?
    ensures multiset(ListTables(after, tables, target).value)[x] ==
      multiset(ListTables(db, tables, target).value)[x]
      + multiset(Map(Retag(target), ListTables(db, tables, source).value))[x]
  {
    TablesListedOnce(after, tables, target, Same(), x);
    TablesListedOnce(db, tables, target, Same(), x);
    TablesListedOnce(db, tables, source, Retag(target), x);
    MapSame(ListTables(after, tables, target).value);
    MapSame(ListTables(db, tables, target).value);
    TargetTally(db, after, tables, source, target, x);
  }

  lemma TargetTally(
    db: Dokploy, after: Dokploy, tables: seq<SupportedTable>, source: string, target: string, x: Resource)
    requires Usable(db, tables) && Slot(source) != Slot(target)
    requires HandedOver(db, after, tables, source, target)
    ensures Tally(after, tables, Shows(Slot(target), target, Same(), x)) ==
      Tally(db, tables, Shows(Slot(target), target, Same(), x))
      + Tally(db, tables, Shows(Slot(source), source, Retag(target), x))
  {
    forall t <- tables, i | 0 <= i < |RowsOf(db, t.name)|
      ensures Render(t, RowsOf(after, t.name)[i], target) == Render(t, RowsOf(db, t.name)[i], target)
      ensures Retag(target)(Render(t, RowsOf(db, t.name)[i], source)) == Render(t, RowsOf(db, t.name)[i], target)
    {
      RenderKept(db, after, t, i, target);
    }
    TallySplits(db, after, tables, Shows(Slot(target), target, Same(), x),
                Shows(Slot(target), target, Same(), x), Shows(Slot(source), source, Retag(target), x));
  }

  // -------------------------------------------------------------- the supported tables

  predicate Writable(t: SupportedTable) {
    && IsRetargetTable(t.name) && !Blank(t.name)
    && (t.idColumn == t.name + "Id" || t.idColumn == "id")
  }

  lemma SupportedTablesUsable(db: Dokploy)
    ensures Usable(db, SupportedTables(db))
    ensures forall t <- SupportedTables(db) :: Writable(t)
  {
    SupportedTablesExact(db);
    forall t <- SupportedTables(db)
      ensures Writable(t) && t.name in db.tables && t.idColumn in db.tables[t.name].columns
      ensures t.idColumn != SERVER_COLUMN && SERVER_COLUMN in db.tables[t.name].columns
    {
      assert Describe(db, t.name) == Some(t);
      ListedColumnIsApplicable(t.name, db.tables[t.name].columns);
      ValidatedIDColumnExact(t.name, t.idColumn);
      RetargetTablesNotBlank(t.name);
    }
  }

  /** The plan lists the whole source, under a valid header. */
  predicate WholePlan(db: Dokploy, tables: seq<SupportedTable>, plan: MigrationPlan) {
    && !Blank(plan.id) && !Blank(plan.schemaHash) && !Blank(plan.sourceServerID) && !Blank(plan.targetServerID)
    && plan.sourceServerID != plan.targetServerID
    && plan.rows != []
    && ListTables(db, tables, plan.sourceServerID).Some?
    && plan.rows ==
       PlanRows(ListTables(db, tables, plan.sourceServerID).value, plan.sourceServerID, plan.targetServerID)
  }

  lemma WholePlanIsWritable(db: Dokploy, tables: seq<SupportedTable>, plan: MigrationPlan)
    requires Usable(db, tables) && SoundIDs(db, tables) && WholePlan(db, tables, plan)
    requires forall t <- tables :: Writable(t)
    ensures WritablePlan(plan) && forall row <- plan.rows :: AllowedRow(row)
  {
    forall row <- plan.rows
      ensures AllowedRow(row) && !Blank(row.table) && !Blank(row.id)
      ensures row.oldServerID == plan.sourceServerID && row.newServerID == plan.targetServerID
    {
      var k :| 0 <= k < |plan.rows| && plan.rows[k] == row;
      WholePlanRow(db, tables, plan, k);
    }
  }

  lemma WholePlanRow(db: Dokploy, tables: seq<SupportedTable>, plan: MigrationPlan, k: nat)
    requires Usable(db, tables) && SoundIDs(db, tables) && WholePlan(db, tables, plan)
    requires k < |plan.rows| && forall t <- tables :: Writable(t)
    ensures var row := plan.rows[k];
      && AllowedRow(row) && !Blank(row.table) && !Blank(row.id)
      && row.oldServerID == plan.sourceServerID && row.newServerID == plan.targetServerID
  {
    var t, i := DryRunRow(db, tables, plan.sourceServerID, plan.targetServerID, k);
    assert Writable(t);
  }

  /** Applying the whole source's plan commits and hands over exactly the source's rows. */
  lemma WholePlanHandsOver(
    db: Dokploy, allowed: set<string>, tables: seq<SupportedTable>, plan: MigrationPlan, approval: string)
    requires WellFormed(db) && Usable(db, tables) && SoundIDs(db, tables) && WholePlan(db, tables, plan)
    requires HasSupportedTables(db) && WriteSchemaAllowed(db.fingerprint, plan.schemaHash, approval, allowed)
    requires forall t <- tables :: Writable(t)
    ensures Committed(db, allowed, plan, approval).Some?
    ensures HandedOver(db, Committed(db, allowed, plan, approval).value, tables, plan.sourceServerID, plan.targetServerID)
  {
    WholePlanIsWritable(db, tables, plan);
    DryRunIsReady(db, tables, plan.sourceServerID, plan.targetServerID);
    CommitsExactly(db, allowed, plan, approval);
    PerformFrame(db, Moves(plan.rows));
    var after := Committed(db, allowed, plan, approval).value;
    forall t <- tables, i | 0 <= i < |RowsOf(db, t.name)|
      ensures Cell(RowsOf(after, t.name)[i], SERVER_COLUMN) ==
        if Cell(RowsOf(db, t.name)[i], SERVER_COLUMN) == Slot(plan.sourceServerID) then Slot(plan.targetServerID)
        else Cell(RowsOf(db, t.name)[i], SERVER_COLUMN)
    {
      CommitEffect(db, allowed, plan, approval, t.name, i);
      if Cell(RowsOf(db, t.name)[i], SERVER_COLUMN) == Slot(plan.sourceServerID) {
        DryRunNamesSource(db, tables, plan.sourceServerID, plan.targetServerID, t, i);
      }
    }
  }

  /** A nonempty dry-run of a database with sound ids, and an approval that admits its schema. */
  predicate WholeDryRun(
    db: Dokploy, allowed: set<string>, plan: MigrationPlan, approval: string, rawSource: string, rawTarget: string)
  {
    && WellFormed(db) && SoundIDs(db, SupportedTables(db))
    && BuildRetargetPlan(db, allowed, rawSource, rawTarget, plan.id, plan.createdAt) == Success(plan)
    && plan.rows != [] && !Blank(plan.id) && !Blank(db.fingerprint)
    && WriteSchemaAllowed(db.fingerprint, db.fingerprint, approval, allowed)
  }

  lemma WholeDryRunIsWholePlan(
    db: Dokploy, allowed: set<string>, plan: MigrationPlan, approval: string, rawSource: string, rawTarget: string)
    requires WholeDryRun(db, allowed, plan, approval, rawSource, rawTarget)
    ensures WholePlan(db, SupportedTables(db), plan) && HasSupportedTables(db) && plan.schemaHash == db.fingerprint
  {
    TrimSpaceIsTrimmed(rawSource);
    TrimSpaceIsTrimmed(rawTarget);
  }

  lemma {:induction false} SupportedSame(db: Dokploy, after: Dokploy, required: seq<string>)
    requires SameButServers(db, after)
    ensures Supported(after, required) == Supported(db, required)
  {
    if required != [] {
      SupportedSame(db, after, required[..|required| - 1]);
      assert Describe(after, required[|required| - 1]) == Describe(db, required[|required| - 1]);
    }
  }

  lemma SupportedTablesSame(db: Dokploy, after: Dokploy)
    requires SameButServers(db, after)
    ensures SupportedTables(after) == SupportedTables(db)
  {
    SupportedSame(db, after, RETARGET_TABLES);
  }

  /** Applying a whole dry-run commits, empties the source's listing, and adds exactly
      the listed resources to the target's listing. */
  lemma DryRunDrains(
    db: Dokploy, allowed: set<string>, plan: MigrationPlan, approval: string, rawSource: string, rawTarget: string)
    requires WholeDryRun(db, allowed, plan, approval, rawSource, rawTarget)
    ensures Committed(db, allowed, plan, approval).Some?
    ensures var after := Committed(db, allowed, plan, approval).value;
      var source, target := plan.sourceServerID, plan.targetServerID;
      && SameButServers(db, after)
      && ListServerResources(after, source) == Some([])
      && ListServerResources(after, target).Some? && ListServerResources(db, target).Some?
      && ListServerResources(db, source).Some?
      && multiset(ListServerResources(after, target).value) ==
         multiset(ListServerResources(db, target).value)
         + multiset(Map(Retag(target), ListServerResources(db, source).value))
  {
    WholeDryRunIsWholePlan(db, allowed, plan, approval, rawSource, rawTarget);
    SupportedTablesUsable(db);
    var tables := SupportedTables(db);
    WholePlanHandsOver(db, allowed, tables, plan, approval);
    var after := Committed(db, allowed, plan, approval).value;
    SupportedTablesSame(db, after);
    HandoverEmptiesSource(db, after, tables, plan.sourceServerID, plan.targetServerID);
    HandoverFillsTarget(db, after, tables, plan.sourceServerID, plan.targetServerID);
  }

  lemma DrainedDryRun(
    db: Dokploy, after: Dokploy, allowed: set<string>, plan: MigrationPlan, rawSource: string, rawTarget: string)
    requires BuildRetargetPlan(db, allowed, rawSource, rawTarget, plan.id, plan.createdAt) == Success(plan)
    requires SameButServers(db, after) && ListServerResources(after, plan.sourceServerID) == Some([])
    ensures BuildRetargetPlan(after, allowed, rawSource, rawTarget, plan.id, plan.createdAt) == Success(plan.(rows := []))
  {
    assert HasSupportedTables(after) by {
      var t :| t in db.tables && IsRetargetTable(t) && db.tables[t].columns != {};
      assert t in after.tables && after.tables[t].columns != {};
    }
    assert PlanRows([], plan.sourceServerID, plan.targetServerID) == [];
  }

  /** After a whole dry-run is applied, the next dry-run has the same header and no rows. */
  lemma NextDryRunIsEmpty(
    db: Dokploy, allowed: set<string>, plan: MigrationPlan, approval: string, rawSource: string, rawTarget: string)
    requires WholeDryRun(db, allowed, plan, approval, rawSource, rawTarget)
    ensures Committed(db, allowed, plan, approval).Some?
    ensures BuildRetargetPlan(
        Committed(db, allowed, plan, approval).value, allowed, rawSource, rawTarget, plan.id, plan.createdAt)
      == Success(plan.(rows := []))
  {
    DryRunDrains(db, allowed, plan, approval, rawSource, rawTarget);
    DrainedDryRun(db, Committed(db, allowed, plan, approval).value, allowed, plan, rawSource, rawTarget);
  }

  /** A dry-run lists each row of each supported table on the source exactly once: a
      plan row occurs as often as there are such rows that render to it. */
  lemma DryRunComplete(
    db: Dokploy, allowed: set<string>, plan: MigrationPlan, rawSource: string, rawTarget: string, x: PlanRow)
    requires BuildRetargetPlan(db, allowed, rawSource, rawTarget, plan.id, plan.createdAt) == Success(plan)
    ensures var source, target := plan.sourceServerID, plan.targetServerID;
      var toRow := (resource: Resource) => PlanRowFor(resource, source, target);
      multiset(plan.rows)[x] == Tally(db, SupportedTables(db), Shows(Slot(source), source, toRow, x))
  {
    var source, target := plan.sourceServerID, plan.targetServerID;
    var toRow := (resource: Resource) => PlanRowFor(resource, source, target);
    TablesListedOnce(db, SupportedTables(db), source, toRow, x);
    assert plan.rows == Map(toRow, ListServerResources(db, source).value);
  }
}
