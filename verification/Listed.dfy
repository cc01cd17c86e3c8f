/** What a listing and a dry-run show, row by row and in which order, in terms of the
    stored rows: internal/dokploydb/postgres.go. */
module Listed {
  import opened Wrappers
  import opened Text
  import opened Model
  import opened Sorting
  import opened Tables
  import opened Rendering
  import opened Retarget
  import opened Listing
  import opened Tallies
  import opened DryRun

  // -------------------------------------------------------------- order

  lemma IDOrderIsWeak(idColumn: string)
    ensures WeakOrder(ByID(idColumn), _ => true)
  {
    var before := ByID(idColumn);
    forall a, b | before(a, b) ensures !before(b, a) {
      if Cell(b, idColumn).Some? {
        PrecedesAsymmetric(Cell(a, idColumn).value, Cell(b, idColumn).value);
      }
    }
    forall a, b, c | before(a, c) ensures before(a, b) || before(b, c) {
      if Cell(b, idColumn).Some? && Cell(c, idColumn).Some? {
        EitherPrecedes(Cell(a, idColumn).value, Cell(b, idColumn).value, Cell(c, idColumn).value);
      }
    }
  }

  lemma EitherPrecedes(x: string, y: string, z: string)
    requires Precedes(x, z)
    ensures Precedes(x, y) || Precedes(y, z)
  {
    if x != y && !Precedes(x, y) {
      PrecedesTotal(x, y);
      PrecedesTransitive(y, x, z);
    }
  }

  /** One table's listing is in the order of its ids. */
  lemma TableListedInOrder(db: Dokploy, t: SupportedTable, serverID: string, j: nat, k: nat)
    requires ScanResources(t, QueryRows(db, t, serverID), serverID).Some?
    requires j < k < |ScanResources(t, QueryRows(db, t, serverID), serverID).value|
    ensures var listed := ScanResources(t, QueryRows(db, t, serverID), serverID).value;
      !Precedes(listed[k].id, listed[j].id)
  {
    var rows := QueryRows(db, t, serverID);
    IDOrderIsWeak(t.idColumn);
    StableSortSorts(ByID(t.idColumn), _ => true, Filter(OnSlot(Slot(serverID)), RowsOf(db, t.name)));
    assert rows[j] in rows && rows[k] in rows;
    assert !ByID(t.idColumn)(rows[k], rows[j]);
  }

  lemma {:induction false} ListedKind(db: Dokploy, tables: seq<SupportedTable>, serverID: string, j: nat) returns (i: nat)
    requires ListTables(db, tables, serverID).Some? && j < |ListTables(db, tables, serverID).value|
    ensures i < |tables| && ListTables(db, tables, serverID).value[j].kind == tables[i].name
  {
    i := |tables| - 1;
    var front := ListTables(db, tables[..i], serverID).value;
    if j < |front| {
      i := ListedKind(db, tables[..i], serverID, j);
    }
  }

  /** By kind and, within a kind, by id. */
  predicate InOrder(listed: seq<Resource>) {
    forall j, k | 0 <= j < k < |listed| ::
      || Precedes(listed[j].kind, listed[k].kind)
      || (listed[j].kind == listed[k].kind && !Precedes(listed[k].id, listed[j].id))
  }

  lemma JoinInOrder(front: seq<Resource>, last: seq<Resource>, kind: string)
    requires InOrder(front) && forall j | 0 <= j < |front| :: Precedes(front[j].kind, kind)
    requires forall j | 0 <= j < |last| :: last[j].kind == kind
    requires forall j, k | 0 <= j < k < |last| :: !Precedes(last[k].id, last[j].id)
    ensures InOrder(front + last)
  {
  }

  /** Tables in name order are listed one after another, each in the order of its ids. */
  lemma {:induction false} TablesListedInOrder(db: Dokploy, tables: seq<SupportedTable>, serverID: string)
    requires ListTables(db, tables, serverID).Some?
    requires forall x, y | 0 <= x < y < |tables| :: Precedes(tables[x].name, tables[y].name)
    ensures InOrder(ListTables(db, tables, serverID).value)
  {
    if tables != [] {
      var n := |tables| - 1;
      var front := ListTables(db, tables[..n], serverID).value;
      var last := ScanResources(tables[n], QueryRows(db, tables[n], serverID), serverID).value;
      TablesListedInOrder(db, tables[..n], serverID);
      forall j | 0 <= j < |front| ensures Precedes(front[j].kind, tables[n].name) {
        var i := ListedKind(db, tables[..n], serverID, j);
        assert tables[..n][i] == tables[i];
      }
      forall j, k | 0 <= j < k < |last| ensures !Precedes(last[k].id, last[j].id) {
        TableListedInOrder(db, tables[n], serverID, j, k);
      }
      JoinInOrder(front, last, tables[n].name);
    }
  }

  /** A server's resources are listed by table name and, within a table, by id. */
  lemma ResourcesListedInOrder(db: Dokploy, serverID: string, j: nat, k: nat)
    requires ListServerResources(db, serverID).Some? && j < k < |ListServerResources(db, serverID).value|
    ensures var listed := ListServerResources(db, serverID).value;
      || Precedes(listed[j].kind, listed[k].kind)
      || (listed[j].kind == listed[k].kind && !Precedes(listed[k].id, listed[j].id))
  {
    SupportedTablesExact(db);
    TablesListedInOrder(db, SupportedTables(db), serverID);
  }

  /** So are the rows of a dry-run. */
  lemma DryRunInOrder(
    db: Dokploy, allowed: set<string>, plan: MigrationPlan, rawSource: string, rawTarget: string, j: nat, k: nat)
    requires BuildRetargetPlan(db, allowed, rawSource, rawTarget, plan.id, plan.createdAt) == Success(plan)
    requires j < k < |plan.rows|
    ensures || Precedes(plan.rows[j].table, plan.rows[k].table)
            || (plan.rows[j].table == plan.rows[k].table && !Precedes(plan.rows[k].id, plan.rows[j].id))
  {
    ResourcesListedInOrder(db, plan.sourceServerID, j, k);
  }

  // -------------------------------------------------------------- contents

  /** Supported is a table that is one of the nine, with a server column and an id column,
      its own if it has one and else the plain one. */
  lemma SupportedTableExact(db: Dokploy, t: SupportedTable)
    ensures t in SupportedTables(db) <==>
      && (t.name == "application" || t.name == "compose" || t.name == "postgres" || t.name == "mysql"
          || t.name == "mariadb" || t.name == "mongo" || t.name == "redis" || t.name == "libsql" || t.name == "domain")
      && t.name in db.tables
      && "serverId" in db.tables[t.name].columns
      && t.idColumn in db.tables[t.name].columns
      && (t.idColumn == t.name + "Id" || (t.idColumn == "id" && t.name + "Id" !in db.tables[t.name].columns))
      && t.hasName == ("name" in db.tables[t.name].columns)
  {
    SupportedTablesExact(db);
    if IsRetargetTable(t.name) && t.name in db.tables {
      ResourceIDColumnExact(t.name, db.tables[t.name].columns);
      DescribeExact(db, t);
    }
  }

  lemma DescribeExact(db: Dokploy, t: SupportedTable)
    requires t.name in db.tables
    requires var columns := db.tables[t.name].columns;
      ResourceIDColumn(t.name, columns) ==
        if t.name + "Id" in columns then Some(t.name + "Id") else if "id" in columns then Some("id") else None
    ensures Describe(db, t.name) == Some(t) <==>
      && "serverId" in db.tables[t.name].columns
      && t.idColumn in db.tables[t.name].columns
      && (t.idColumn == t.name + "Id" || (t.idColumn == "id" && t.name + "Id" !in db.tables[t.name].columns))
      && t.hasName == ("name" in db.tables[t.name].columns)
  {
  }

  /** The value of a column of a stored row, if it has the column and is not NULL there. */
  predicate Holds(row: Row, column: string, value: string) {
    column in row && row[column] == Some(value)
  }

  /** What is listed for a server stands in some row of a supported table that is stored
      under it (the built-in server as NULL), with that row's id and name; a table without
      names and a NULL name show the empty string. */
  lemma ListedResourceExact(db: Dokploy, serverID: string, k: nat) returns (i: nat)
    requires WellFormed(db) && ListServerResources(db, serverID).Some? && k < |ListServerResources(db, serverID).value|
    ensures var r := ListServerResources(db, serverID).value[k];
      && r.serverID == serverID
      && r.kind in db.tables && i < |db.tables[r.kind].rows|
      && var row := db.tables[r.kind].rows[i];
      && SupportedTable(r.kind, r.idColumn, "name" in db.tables[r.kind].columns) in SupportedTables(db)
      && Holds(row, r.idColumn, r.id)
      && (if serverID == "__dokploy_local__" then "serverId" in row && row["serverId"] == None
          else Holds(row, "serverId", serverID))
      && (if "name" in db.tables[r.kind].columns && row["name"].Some? then Holds(row, "name", r.name) else r.name == "")
  {
    var tables, listed := SupportedTables(db), ListServerResources(db, serverID).value;
    var t;
    t, i := ListedRow(db, tables, serverID, listed[k]);
    SupportedTableExact(db, t);
    ListTablesSucceeds(db, tables, serverID);
    var row := db.tables[t.name].rows[i];
    assert row in db.tables[t.name].rows;
    assert row.Keys == db.tables[t.name].columns;
  }

  /** A dry-run is built exactly when two different servers are named, some allowlisted
      table has columns, the schema is allowlisted if there is an allowlist, and no row
      stored under the source has a NULL id. It carries the trimmed servers and the
      database's fingerprint; a schema that is not allowlisted is refused as such. */
  lemma DryRunBuiltExactly(
    db: Dokploy, allowed: set<string>, rawSource: string, rawTarget: string, planID: string, now: string)
    ensures var built := BuildRetargetPlan(db, allowed, rawSource, rawTarget, planID, now);
      var named := !Blank(rawSource) && !Blank(rawTarget) && TrimSpace(rawSource) != TrimSpace(rawTarget);
      var present := exists t <- db.tables :: IsRetargetTable(t) && db.tables[t].columns != {};
      && (built.Success? <==>
          && named && present && (allowed == {} || db.fingerprint in allowed)
          && forall t <- SupportedTables(db), i | 0 <= i < |RowsOf(db, t.name)| ::
            Cell(RowsOf(db, t.name)[i], "serverId") == Slot(TrimSpace(rawSource)) ==>
            Cell(RowsOf(db, t.name)[i], t.idColumn).Some?)
      && (built == Failure(SchemaNotAllowed) <==> named && present && allowed != {} && db.fingerprint !in allowed)
      && (built.Success? ==>
          && built.value.id == planID && built.value.createdAt == now
          && built.value.sourceServerID == TrimSpace(rawSource) && built.value.targetServerID == TrimSpace(rawTarget)
          && built.value.schemaHash == db.fingerprint)
  {
    ListTablesSucceeds(db, SupportedTables(db), TrimSpace(rawSource));
  }

  /** A row of a dry-run names the table, id column, id and name of what is listed in its
      place, and goes from the plan's source to its target. */
  lemma DryRunRowExact(
    db: Dokploy, allowed: set<string>, plan: MigrationPlan, rawSource: string, rawTarget: string, k: nat)
    requires BuildRetargetPlan(db, allowed, rawSource, rawTarget, plan.id, plan.createdAt) == Success(plan)
    requires k < |plan.rows|
    ensures ListServerResources(db, plan.sourceServerID).Some?
    ensures |ListServerResources(db, plan.sourceServerID).value| == |plan.rows|
    ensures var r, row := ListServerResources(db, plan.sourceServerID).value[k], plan.rows[k];
      && row.table == r.kind && row.idColumn == r.idColumn && row.id == r.id && row.name == r.name
      && row.oldServerID == plan.sourceServerID && row.newServerID == plan.targetServerID
  {
    DryRunBuiltExactly(db, allowed, rawSource, rawTarget, plan.id, plan.createdAt);
    DryRunListing(db, allowed, plan, rawSource, rawTarget, ListServerResources(db, plan.sourceServerID));
  }

  lemma DryRunListing(
    db: Dokploy, allowed: set<string>, plan: MigrationPlan, rawSource: string, rawTarget: string,
    listed: Option<seq<Resource>>)
    requires BuildRetargetPlan(db, allowed, rawSource, rawTarget, plan.id, plan.createdAt) == Success(plan)
    requires listed == ListServerResources(db, plan.sourceServerID)
    ensures listed.Some? && plan.rows == PlanRows(listed.value, plan.sourceServerID, plan.targetServerID)
  {
  }
}
