/** The Dokploy database adapter as it runs, statement by statement and row by row:
    internal/dokploydb/postgres.go. */
module DokployAdapter {
  import opened Wrappers
  import opened Text
  import opened Model
  import opened Sorting
  import opened Tables
  import opened Sql
  import opened Rendering
  import opened Retarget
  import opened Listing
  import opened Counts

  /** The adapter: the connected database and the configured schema allowlist. */
  class Adapter {
    var db: Dokploy
    const allowedHashes: set<string>

    constructor (db: Dokploy, allowedHashes: set<string>)
      ensures this.db == db && this.allowedHashes == allowedHashes
    {
      this.db := db;
      this.allowedHashes := allowedHashes;
    }

    /** Applies a plan in one transaction. `storageFails` is the environment's choice
        that some statement or the commit fails; the working copy is then dropped. */
    method ApplyRetargetPlan(plan: MigrationPlan, approval: string, storageFails: bool)
      returns (outcome: Outcome<ApplyError>)
      modifies this`db
      ensures outcome.Pass? <==> !storageFails && ApplyPlan(old(db), allowedHashes, plan, approval).Success?
      ensures outcome.Fail? && !storageFails ==>
        ApplyPlan(old(db), allowedHashes, plan, approval) == Failure(outcome.error)
      ensures db == if outcome.Pass? then ApplyPlan(old(db), allowedHashes, plan, approval).value else old(db)
    {
      if !WritablePlan(plan) {
        return Fail(InvalidPlan);
      }
      if !HasSupportedTables(db) {
        return Fail(NoSupportedTables);
      }
      if !WriteSchemaAllowed(db.fingerprint, plan.schemaHash, approval, allowedHashes) {
        return Fail(SchemaRefused);
      }
      var transaction := db;
      var i := 0;
      while i < |plan.rows|
        invariant i <= |plan.rows|
        invariant db == old(db)
        invariant ApplyRows(db, plan.rows) == ApplyRows(transaction, plan.rows[i..])
      {
        var row := plan.rows[i];
        assert plan.rows[i..][0] == row && plan.rows[i..][1..] == plan.rows[i + 1..];
        if !IsRetargetTable(row.table) {
          return Fail(TableNotAllowed(row.table));
        }
        var idColumn := ValidatedIDColumn(row.table, row.idColumn);
        if idColumn.None? {
          return Fail(WrongIDColumn(row.table, row.idColumn));
        }
        var result := Execute(transaction, RetargetSQL(row, idColumn.value));
        if result.Failure? {
          return Fail(StatementFailed(row.table, row.id));
        }
        if result.value.1 != 1 {
          return Fail(RowsAffected(row.table, row.id, result.value.1));
        }
        transaction := result.value.0;
        i := i + 1;
      }
      if storageFails {
        return Fail(StorageFailed);
      }
      db := transaction;
      return Pass;
    }

    /** Reverses a plan row by row, last row first, and applies the result. */
    method RollbackRetargetPlan(plan: MigrationPlan, approval: string, storageFails: bool)
      returns (outcome: Outcome<ApplyError>)
      modifies this`db
      ensures outcome.Pass? <==>
        !storageFails && ApplyPlan(old(db), allowedHashes, ReversePlan(plan), approval).Success?
      ensures db ==
        if outcome.Pass? then ApplyPlan(old(db), allowedHashes, ReversePlan(plan), approval).value else old(db)
    {
      var rows: seq<PlanRow> := [];
      var i := |plan.rows|;
      while i > 0
        invariant 0 <= i <= |plan.rows|
        invariant rows == ReverseRows(plan.rows[i..])
      {
        i := i - 1;
        assert plan.rows[i..][1..] == plan.rows[i + 1..];
        var row := plan.rows[i];
        rows := rows + [row.(oldServerID := row.newServerID, newServerID := row.oldServerID)];
      }
      assert plan.rows[0..] == plan.rows;
      var reversed := plan.(
        sourceServerID := plan.targetServerID, targetServerID := plan.sourceServerID, rows := rows);
      outcome := ApplyRetargetPlan(reversed, approval, storageFails);
    }

    /** Loops over the required tables, keeps the usable ones and sorts them by name. */
    method SupportedTables() returns (out: seq<SupportedTable>)
      ensures out == Listing.SupportedTables(db)
    {
      out := [];
      for i := 0 to |RETARGET_TABLES|
        invariant out == Supported(db, RETARGET_TABLES[..i])
      {
        assert RETARGET_TABLES[..i + 1][..i] == RETARGET_TABLES[..i];
        var table := Describe(db, RETARGET_TABLES[i]);
        if table.None? {
          continue;
        }
        out := out + [table.value];
      }
      assert RETARGET_TABLES[..|RETARGET_TABLES|] == RETARGET_TABLES;
      out := StableSort((a: SupportedTable, b: SupportedTable) => Precedes(a.name, b.name), out);
    }

    /** Queries every supported table and scans its rows, failing on a NULL id. */
    method ListServerResources(serverID: string) returns (resources: Option<seq<Resource>>)
      ensures resources == Listing.ListServerResources(db, serverID)
    {
      var tables := SupportedTables();
      var found: seq<Resource> := [];
      for i := 0 to |tables|
        invariant ListTables(db, tables[..i], serverID) == Some(found)
      {
        assert tables[..i + 1][..i] == tables[..i];
        var scanned := ScanResourcesInto(tables[i], QueryRows(db, tables[i], serverID), serverID, found);
        if scanned.None? {
          ListTablesFailsOn(db, tables, serverID, i + 1);
          return None;
        }
        found := scanned.value;
      }
      assert tables[..|tables|] == tables;
      return Some(found);
    }

    method BuildRetargetPlan(rawSource: string, rawTarget: string, planID: string, now: string)
      returns (result: Result<MigrationPlan, PlanError>)
      ensures result == Listing.BuildRetargetPlan(db, allowedHashes, rawSource, rawTarget, planID, now)
    {
      var source, target := TrimSpace(rawSource), TrimSpace(rawTarget);
      if source == "" || target == "" {
        return Failure(MissingServers);
      }
      if source == target {
        return Failure(SameServers);
      }
      if !HasSupportedTables(db) {
        return Failure(NoTables);
      }
      if allowedHashes != {} && db.fingerprint !in allowedHashes {
        return Failure(SchemaNotAllowed);
      }
      var resources := ListServerResources(source);
      if resources.None? {
        return Failure(ListingFailed);
      }
      var rows: seq<PlanRow> := [];
      for i := 0 to |resources.value|
        invariant rows == PlanRows(resources.value[..i], source, target)
      {
        OneMorePlanRow(resources.value, i, source, target);
        rows := rows + [PlanRowFor(resources.value[i], source, target)];
      }
      assert resources.value[..|resources.value|] == resources.value;
      return Success(MigrationPlan(planID, source, target, now, db.fingerprint, rows));
    }

    /** Adds each table's grouped counts into one map. */
    method ResourceCountsByServer() returns (counts: map<string, nat>)
      ensures counts == CountsByServer(db)
    {
      var tables := SupportedTables();
      counts := map[];
      for i := 0 to |tables|
        invariant counts == CountTables(db, tables[..i])
      {
        assert tables[..i + 1][..i] == tables[..i];
        counts := ScanResourceCounts(GroupByServer(RowsOf(db, tables[i].name)), counts);
      }
      assert tables[..|tables|] == tables;
    }
  }

  lemma OneMorePlanRow(resources: seq<Resource>, i: nat, source: string, target: string)
    requires i < |resources|
    ensures PlanRows(resources[..i + 1], source, target)
            == PlanRows(resources[..i], source, target) + [PlanRowFor(resources[i], source, target)]
  {
  }

  /** Appends one resource per query row; None when an id is NULL. */
  method ScanResourcesInto(table: SupportedTable, rows: seq<Row>, serverID: string, resources: seq<Resource>)
    returns (out: Option<seq<Resource>>)
    ensures out ==
      match ScanResources(table, rows, serverID)
      case None => None
      case Some(scanned) => Some(resources + scanned)
  {
    var found := resources;
    for i := 0 to |rows|
      invariant forall k | 0 <= k < i :: Cell(rows[k], table.idColumn).Some?
      invariant found == resources + seq(i, k requires 0 <= k < i => Render(table, rows[k], serverID))
    {
      if Cell(rows[i], table.idColumn).None? {
        assert rows[i] in rows;
        return None;
      }
      found := found + [Render(table, rows[i], serverID)];
    }
    return Some(found);
  }

  lemma {:induction false} ListTablesFailsOn(db: Dokploy, tables: seq<SupportedTable>, serverID: string, n: nat)
    requires n <= |tables| && ListTables(db, tables[..n], serverID).None?
    ensures ListTables(db, tables, serverID).None?
  {
    if n == |tables| {
      assert tables[..n] == tables;
    } else {
      var m := |tables| - 1;
      assert tables[..m][..n] == tables[..n];
      ListTablesFailsOn(db, tables[..m], serverID, n);
    }
  }

  /** NULL counts for the built-in server, blank values for none, others trimmed. */
  method ScanResourceCounts(groups: seq<Group>, counts: map<string, nat>) returns (out: map<string, nat>)
    ensures out == Accumulate(counts, groups)
  {
    out := counts;
    for i := 0 to |groups|
      invariant out == Accumulate(counts, groups[..i])
    {
      assert groups[..i + 1][..i] == groups[..i];
      var (serverID, count) := groups[i];
      if serverID.None? {
        out := out[LOCAL_SERVER_ID := Lookup(out, LOCAL_SERVER_ID) + count];
        continue;
      }
      var trimmed := TrimSpace(serverID.value);
      if trimmed == "" {
        continue;
      }
      out := out[trimmed := Lookup(out, trimmed) + count];
    }
    assert groups[..|groups|] == groups;
  }
}
