/** The rows of a plan that the adapter built: which of them the page's checkboxes tell
    apart, and when the manager accepts choices of them. internal/dokploydb/postgres.go,
    internal/server/static/app.js, internal/jobs/jobs.go. */
module BuiltPlans {
  import opened Wrappers
  import opened Text
  import opened Model
  import opened Tables
  import opened Rendering
  import opened Retarget
  import opened Listing
  import opened DryRun
  import opened PlanSubset
  import opened Selection

  /** The plan is a dry-run of this database. */
  predicate IsDryRunOf(
    db: Dokploy, allowed: set<string>, rawSource: string, rawTarget: string, plan: MigrationPlan)
  {
    BuildRetargetPlan(db, allowed, rawSource, rawTarget, plan.id, plan.createdAt) == Success(plan)
  }

  /** An allowlisted table with the id column it is listed by, and the plan's direction. */
  predicate RowFits(db: Dokploy, plan: MigrationPlan, row: PlanRow) {
    && IsRetargetTable(row.table)
    && (row.idColumn == row.table + "Id" || row.idColumn == "id")
    && Describe(db, row.table).Some? && Describe(db, row.table).value.idColumn == row.idColumn
    && row.oldServerID == plan.sourceServerID && row.newServerID == plan.targetServerID
  }

  lemma BuiltHeader(db: Dokploy, allowed: set<string>, rawSource: string, rawTarget: string, plan: MigrationPlan)
    requires IsDryRunOf(db, allowed, rawSource, rawTarget, plan)
    ensures Trimmed(plan.sourceServerID) && Trimmed(plan.targetServerID)
    ensures plan.sourceServerID != "" && plan.targetServerID != ""
    ensures ListTables(db, SupportedTables(db), plan.sourceServerID).Some?
    ensures plan.rows == PlanRows(
      ListTables(db, SupportedTables(db), plan.sourceServerID).value, plan.sourceServerID, plan.targetServerID)
  {
    TrimSpaceIsTrimmed(rawSource);
    TrimSpaceIsTrimmed(rawTarget);
  }

  lemma BuiltRowFits(
    db: Dokploy, allowed: set<string>, rawSource: string, rawTarget: string, plan: MigrationPlan, k: nat)
    requires IsDryRunOf(db, allowed, rawSource, rawTarget, plan) && k < |plan.rows|
    ensures RowFits(db, plan, plan.rows[k])
  {
    BuiltHeader(db, allowed, rawSource, rawTarget, plan);
    var tables := SupportedTables(db);
    var listed := ListTables(db, tables, plan.sourceServerID).value;
    var t, i := ListedRow(db, tables, plan.sourceServerID, listed[k]);
    SupportedTablesUsable(db);
    SupportedTablesExact(db);
    assert Writable(t) && Describe(db, t.name) == Some(t);
  }

  // -------------------------------------------------------------- checkbox keys

  /** Two rows stand for the same table and id. */
  predicate SameResource(a: PlanRow, b: PlanRow) {
    a.table == b.table && a.id == b.id
  }

  lemma TableHasNoSeparator(table: string)
    requires IsRetargetTable(table)
    ensures SEPARATOR !in table && SEPARATOR !in table + "Id" && SEPARATOR !in "id"
  {
    TableIsPlain(table);
    forall c <- table ensures c != SEPARATOR {
      var i :| 0 <= i < |table| && table[i] == c;
    }
  }

  /** Allowlisted names are made of small letters. */
  lemma TableIsPlain(table: string)
    requires IsRetargetTable(table)
    ensures table != "" && forall i | 0 <= i < |table| :: 'a' <= table[i] <= 'z'
  {
  }

  lemma SameTail(a: string, b: string, tail: string)
    requires a + tail == b + tail
    ensures a == b
  {
    assert |a| == |b|;
    assert a == (a + tail)[..|a|] && b == (b + tail)[..|b|];
  }

  /** Rows of one built plan have one key exactly when they stand for one table and id. */
  lemma KeyTellsResource(db: Dokploy, plan: MigrationPlan, a: PlanRow, b: PlanRow)
    requires RowFits(db, plan, a) && RowFits(db, plan, b)
    ensures PlanRowKey(a) == PlanRowKey(b) <==> SameResource(a, b)
  {
    var tail := [SEPARATOR] + (plan.sourceServerID + [SEPARATOR] + plan.targetServerID);
    if PlanRowKey(a) == PlanRowKey(b) {
      TableHasNoSeparator(a.table);
      TableHasNoSeparator(b.table);
      KeyPrefix(a, b);
      assert a.id + tail == b.id + tail by {
        assert a.id + tail == a.id + [SEPARATOR] + (a.oldServerID + [SEPARATOR] + a.newServerID);
        assert b.id + tail == b.id + [SEPARATOR] + (b.oldServerID + [SEPARATOR] + b.newServerID);
      }
      SameTail(a.id, b.id, tail);
    }
  }

  lemma KeyPrefix(a: PlanRow, b: PlanRow)
    requires PlanRowKey(a) == PlanRowKey(b)
    requires SEPARATOR !in a.table && SEPARATOR !in b.table && SEPARATOR !in a.idColumn && SEPARATOR !in b.idColumn
    ensures a.table == b.table
    ensures a.id + [SEPARATOR] + (a.oldServerID + [SEPARATOR] + a.newServerID)
            == b.id + [SEPARATOR] + (b.oldServerID + [SEPARATOR] + b.newServerID)
  {
    JoinTells(a.table, a.idColumn + [SEPARATOR] + (a.id + [SEPARATOR] + (a.oldServerID + [SEPARATOR] + a.newServerID)),
              b.table, b.idColumn + [SEPARATOR] + (b.id + [SEPARATOR] + (b.oldServerID + [SEPARATOR] + b.newServerID)));
    JoinTells(a.idColumn, a.id + [SEPARATOR] + (a.oldServerID + [SEPARATOR] + a.newServerID),
              b.idColumn, b.id + [SEPARATOR] + (b.oldServerID + [SEPARATOR] + b.newServerID));
  }

  /** The checkboxes of a built plan have pairwise different keys exactly when its rows
      stand for pairwise different tables and ids. */
  lemma KeysDifferExactly(
    db: Dokploy, allowed: set<string>, rawSource: string, rawTarget: string, plan: MigrationPlan)
    requires IsDryRunOf(db, allowed, rawSource, rawTarget, plan)
    ensures (forall j, k | 0 <= j < k < |plan.rows| :: PlanRowKey(plan.rows[j]) != PlanRowKey(plan.rows[k])) <==>
      (forall j, k | 0 <= j < k < |plan.rows| :: !SameResource(plan.rows[j], plan.rows[k]))
  {
    forall j, k | 0 <= j < k < |plan.rows|
      ensures PlanRowKey(plan.rows[j]) == PlanRowKey(plan.rows[k]) <==> SameResource(plan.rows[j], plan.rows[k])
    {
      BuiltRowFits(db, allowed, rawSource, rawTarget, plan, j);
      BuiltRowFits(db, allowed, rawSource, rawTarget, plan, k);
      KeyTellsResource(db, plan, plan.rows[j], plan.rows[k]);
    }
  }

  /** On a page that shows a built plan, a checkbox selects or drops exactly the rows that
      stand for its row's table and id, and leaves all others as they were. */
  lemma ToggleMovesOneResource(
    db: Dokploy, allowed: set<string>, rawSource: string, rawTarget: string, plan: MigrationPlan,
    view: View, i: nat, j: nat, checked: bool)
    requires IsDryRunOf(db, allowed, rawSource, rawTarget, plan) && Tidy(view) && view.plan == Some(plan)
    requires i < |plan.rows| && j < |plan.rows|
    ensures var after := After(view, Toggle(PlanRowKey(plan.rows[i]), checked));
      && after.plan == Some(plan)
      && (PlanRowKey(plan.rows[j]) in after.keys <==>
          if SameResource(plan.rows[i], plan.rows[j]) then checked else PlanRowKey(plan.rows[j]) in view.keys)
  {
    BuiltRowFits(db, allowed, rawSource, rawTarget, plan, i);
    BuiltRowFits(db, allowed, rawSource, rawTarget, plan, j);
    KeyTellsResource(db, plan, plan.rows[i], plan.rows[j]);
    assert plan.rows[i] in plan.rows && plan.rows[j] in plan.rows;
  }

  // -------------------------------------------------------------- what the manager accepts

  lemma InkyEnds(s: string)
    requires s != "" && !IsSpace(s[0]) && !IsSpace(s[|s| - 1])
    ensures Trimmed(s) && !Blank(s)
  {
  }

  lemma RowFieldsTrimmed(db: Dokploy, plan: MigrationPlan, row: PlanRow)
    requires RowFits(db, plan, row)
    ensures Trimmed(row.table) && !Blank(row.table) && Trimmed(row.idColumn) && !Blank(row.idColumn)
  {
    TableIsPlain(row.table);
    InkyEnds(row.table);
    assert row.idColumn[|row.idColumn| - 1] == 'd';
    InkyEnds(row.idColumn);
  }

  /** Two rows stand for the same table and, up to white space around it, the same id. */
  predicate SameTrimmed(a: PlanRow, b: PlanRow) {
    a.table == b.table && TrimSpace(a.id) == TrimSpace(b.id)
  }

  lemma IdentityTells(db: Dokploy, plan: MigrationPlan, a: PlanRow, b: PlanRow)
    requires RowFits(db, plan, a) && RowFits(db, plan, b)
    ensures IdentityOf(a) == IdentityOf(b) <==> SameTrimmed(a, b)
  {
    RowFieldsTrimmed(db, plan, a);
    RowFieldsTrimmed(db, plan, b);
  }

  lemma IncompleteMeansBlank(db: Dokploy, plan: MigrationPlan, row: PlanRow)
    requires RowFits(db, plan, row)
    requires !Blank(plan.sourceServerID) && !Blank(plan.targetServerID)
    ensures Incomplete(IdentityOf(row)) <==> Blank(row.id)
  {
    RowFieldsTrimmed(db, plan, row);
  }

  /** The manager can accept choices of a built plan's rows exactly when no id is blank
      and no two rows agree in table and trimmed id. */
  lemma WellFormedExactly(
    db: Dokploy, allowed: set<string>, rawSource: string, rawTarget: string, plan: MigrationPlan)
    requires IsDryRunOf(db, allowed, rawSource, rawTarget, plan)
    ensures WellFormedRows(plan.rows) <==>
      && (forall row <- plan.rows :: !Blank(row.id))
      && (forall j, k | 0 <= j < k < |plan.rows| :: !SameTrimmed(plan.rows[j], plan.rows[k]))
  {
    BuiltHeader(db, allowed, rawSource, rawTarget, plan);
    forall k | 0 <= k < |plan.rows| ensures Incomplete(IdentityOf(plan.rows[k])) <==> Blank(plan.rows[k].id) {
      BuiltRowFits(db, allowed, rawSource, rawTarget, plan, k);
      IncompleteMeansBlank(db, plan, plan.rows[k]);
    }
    forall j, k | 0 <= j < k < |plan.rows|
      ensures IdentityOf(plan.rows[j]) == IdentityOf(plan.rows[k]) <==> SameTrimmed(plan.rows[j], plan.rows[k])
    {
      BuiltRowFits(db, allowed, rawSource, rawTarget, plan, j);
      BuiltRowFits(db, allowed, rawSource, rawTarget, plan, k);
      IdentityTells(db, plan, plan.rows[j], plan.rows[k]);
    }
  }
}
