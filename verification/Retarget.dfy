/** Applying and rolling back retarget plans: internal/dokploydb/postgres.go. */
module Retarget {
  import opened Wrappers
  import opened Text
  import opened Sorting
  import opened Model
  import opened Tables
  import opened Sql
  import opened Rendering

  datatype ApplyError =
    | InvalidPlan
    | NoSupportedTables
    | SchemaRefused
    | TableNotAllowed(table: string)
    | WrongIDColumn(table: string, column: string)
    | StatementFailed(table: string, id: string)
    | RowsAffected(table: string, id: string, count: nat)
    | StorageFailed

  // -------------------------------------------------------------- the checks

  predicate WritablePlan(plan: MigrationPlan) {
    && !Blank(plan.id)
    && !Blank(plan.sourceServerID) && !Blank(plan.targetServerID)
    && plan.sourceServerID != plan.targetServerID
    && !Blank(plan.schemaHash)
    && plan.rows != []
    && (forall row <- plan.rows :: !Blank(row.table) && !Blank(row.id))
    && RowsFollowHeader(plan)
  }

  /** The fingerprint query finds columns of at least one supported table. */
  predicate HasSupportedTables(db: Dokploy) {
    exists t <- db.tables :: IsRetargetTable(t) && db.tables[t].columns != {}
  }

  predicate WriteSchemaAllowed(currentHash: string, planHash: string, approval: string, allowed: set<string>) {
    && planHash != ""
    && planHash == currentHash
    && (if approval != "" then approval == currentHash else currentHash in allowed)
  }

  // -------------------------------------------------------------- applying

  /** One iteration of the apply loop inside its transaction. */
  function ApplyRow(db: Dokploy, row: PlanRow): Result<Dokploy, ApplyError> {
    if !IsRetargetTable(row.table) then Failure(TableNotAllowed(row.table))
    else
      match ValidatedIDColumn(row.table, row.idColumn)
      case None => Failure(WrongIDColumn(row.table, row.idColumn))
      case Some(idColumn) =>
        match Execute(db, RetargetSQL(row, idColumn))
        case Failure(_) => Failure(StatementFailed(row.table, row.id))
        case Success((next, affected)) =>
          if affected != 1 then Failure(RowsAffected(row.table, row.id, affected)) else Success(next)
  }

  function ApplyRows(db: Dokploy, rows: seq<PlanRow>): Result<Dokploy, ApplyError>
    decreases |rows|
  {
    if rows == [] then Success(db)
    else
      var next :- ApplyRow(db, rows[0]);
      ApplyRows(next, rows[1..])
  }

  function ApplyPlan(db: Dokploy, allowed: set<string>, plan: MigrationPlan, approval: string)
    : Result<Dokploy, ApplyError>
  {
    if !WritablePlan(plan) then Failure(InvalidPlan)
    else if !HasSupportedTables(db) then Failure(NoSupportedTables)
    else if !WriteSchemaAllowed(db.fingerprint, plan.schemaHash, approval, allowed) then Failure(SchemaRefused)
    else ApplyRows(db, plan.rows)
  }

  function ReverseRow(row: PlanRow): PlanRow {
    row.(oldServerID := row.newServerID, newServerID := row.oldServerID)
  }

  function ReverseRows(rows: seq<PlanRow>): seq<PlanRow> {
    if rows == [] then [] else ReverseRows(rows[1..]) + [ReverseRow(rows[0])]
  }

  function ReversePlan(plan: MigrationPlan): MigrationPlan {
    plan.(
      sourceServerID := plan.targetServerID,
      targetServerID := plan.sourceServerID,
      rows := ReverseRows(plan.rows))
  }

  // -------------------------------------------------------------- rows as moves

  /** The table is on the allowlist and the id column is one the apply accepts. */
  predicate AllowedRow(row: PlanRow) {
    && IsRetargetTable(row.table)
    && (row.idColumn == "" || row.idColumn == row.table + "Id" || row.idColumn == "id")
  }

  function MoveOf(row: PlanRow): Move {
    GuardedMove(row, if row.idColumn == "" then row.table + "Id" else row.idColumn)
  }

  function Moves(rows: seq<PlanRow>): seq<Move> {
    seq(|rows|, i requires 0 <= i < |rows| => MoveOf(rows[i]))
  }

  lemma SlotInjective(a: string, b: string)
    requires a != b
    ensures Slot(a) != Slot(b)
  {
  }

  lemma MoveAvoidsServerColumn(row: PlanRow)
    requires AllowedRow(row)
    ensures MoveOf(row).idColumn != SERVER_COLUMN
  {
    ServerColumnIsNoCandidate(row.table);
    CandidatesAre(row.table);
  }

  /** One iteration succeeds exactly when the row is allowed and its move finds one row. */
  lemma ApplyRowIsMove(db: Dokploy, row: PlanRow)
    requires row.oldServerID != row.newServerID
    ensures ApplyRow(db, row).Success? <==> AllowedRow(row) && CanMove(db, MoveOf(row))
    ensures ApplyRow(db, row).Success? ==> ApplyRow(db, row).value == DoMove(db, MoveOf(row))
  {
    ValidatedIDColumnExact(row.table, row.idColumn);
    RenderingKeepsMeaning(db, row, MoveOf(row).idColumn);
  }

  lemma ApplyRowsFirst(db: Dokploy, rows: seq<PlanRow>, next: Option<Dokploy>)
    requires rows != []
    requires next.Some? <==> ApplyRow(db, rows[0]).Success?
    requires next.Some? ==> ApplyRow(db, rows[0]).value == next.value
    ensures ApplyRows(db, rows).Success? <==> next.Some? && ApplyRows(next.value, rows[1..]).Success?
    ensures ApplyRows(db, rows).Success? ==> ApplyRows(db, rows) == ApplyRows(next.value, rows[1..])
  {
  }

  /** Applying rows through rendered SQL is performing their guarded moves. */
  lemma {:induction false} ApplyRowsPerforms(db: Dokploy, rows: seq<PlanRow>)
    requires forall row <- rows :: row.oldServerID != row.newServerID
    ensures ApplyRows(db, rows).Success? <==> (forall row <- rows :: AllowedRow(row)) && Perform(db, Moves(rows)).Some?
    ensures ApplyRows(db, rows).Success? ==> Perform(db, Moves(rows)) == Some(ApplyRows(db, rows).value)
    decreases |rows|
  {
    if rows != [] {
      var row, rest := rows[0], rows[1..];
      assert rows == [row] + rest;
      assert Moves(rows)[0] == MoveOf(row) && Moves(rows)[1..] == Moves(rest);
      ApplyRowIsMove(db, row);
      if AllowedRow(row) && CanMove(db, MoveOf(row)) {
        ApplyRowsFirst(db, rows, Some(DoMove(db, MoveOf(row))));
        ApplyRowsPerforms(DoMove(db, MoveOf(row)), rest);
      } else {
        ApplyRowsFirst(db, rows, None);
      }
    }
  }

  lemma PlanIsBatch(plan: MigrationPlan)
    requires WritablePlan(plan) && forall row <- plan.rows :: AllowedRow(row)
    ensures Batch(Moves(plan.rows), Slot(plan.sourceServerID), Slot(plan.targetServerID))
    ensures Slot(plan.sourceServerID) != Slot(plan.targetServerID)
    ensures forall row <- plan.rows :: row.oldServerID != row.newServerID
  {
    SlotInjective(plan.sourceServerID, plan.targetServerID);
    forall i | 0 <= i < |plan.rows|
      ensures Moves(plan.rows)[i].idColumn != SERVER_COLUMN
      ensures Moves(plan.rows)[i].source == Slot(plan.sourceServerID)
      ensures Moves(plan.rows)[i].target == Slot(plan.targetServerID)
    {
      assert plan.rows[i] in plan.rows;
      MoveAvoidsServerColumn(plan.rows[i]);
    }
  }

  /** Every check an apply makes outside the database rows themselves. */
  predicate Authorised(db: Dokploy, allowed: set<string>, plan: MigrationPlan, approval: string) {
    && WritablePlan(plan) && HasSupportedTables(db)
    && WriteSchemaAllowed(db.fingerprint, plan.schemaHash, approval, allowed)
    && forall row <- plan.rows :: AllowedRow(row)
  }

  /** An apply as checks followed by a transaction of guarded moves. */
  function Committed(db: Dokploy, allowed: set<string>, plan: MigrationPlan, approval: string): Option<Dokploy> {
    if Authorised(db, allowed, plan, approval) then Perform(db, Moves(plan.rows)) else None
  }

  /** The loop over rendered statements and the transaction of guarded moves agree. */
  lemma ApplyIsCommitted(db: Dokploy, allowed: set<string>, plan: MigrationPlan, approval: string)
    ensures ApplyPlan(db, allowed, plan, approval).Success? <==> Committed(db, allowed, plan, approval).Some?
    ensures ApplyPlan(db, allowed, plan, approval).Success? ==>
      Committed(db, allowed, plan, approval) == Some(ApplyPlan(db, allowed, plan, approval).value)
  {
    if WritablePlan(plan) {
      forall row <- plan.rows ensures row.oldServerID != row.newServerID {
      }
      ApplyRowsPerforms(db, plan.rows);
      ApplyPlanSplit(db, allowed, plan, approval, ApplyRows(db, plan.rows));
    }
  }

  lemma ApplyPlanSplit(
    db: Dokploy, allowed: set<string>, plan: MigrationPlan, approval: string, ran: Result<Dokploy, ApplyError>)
    requires ran == ApplyRows(db, plan.rows)
    ensures ApplyPlan(db, allowed, plan, approval).Success? <==>
      && WritablePlan(plan) && HasSupportedTables(db)
      && WriteSchemaAllowed(db.fingerprint, plan.schemaHash, approval, allowed)
      && ran.Success?
    ensures ApplyPlan(db, allowed, plan, approval).Success? ==> ApplyPlan(db, allowed, plan, approval) == ran
  {
  }

  // -------------------------------------------------------------- main results

  /** Every id the plan uses is carried by at most one row of its table. */
  predicate UniquePlanIDs(db: Dokploy, rows: seq<PlanRow>) {
    forall row <- rows :: UniqueID(db, MoveOf(row))
  }

  lemma CommitsExactly(db: Dokploy, allowed: set<string>, plan: MigrationPlan, approval: string)
    requires UniquePlanIDs(db, plan.rows)
    ensures Committed(db, allowed, plan, approval).Some? <==>
      && WritablePlan(plan) && HasSupportedTables(db)
      && WriteSchemaAllowed(db.fingerprint, plan.schemaHash, approval, allowed)
      && (forall row <- plan.rows :: AllowedRow(row))
      && Ready(db, Moves(plan.rows))
    ensures Committed(db, allowed, plan, approval).Some? ==>
      Committed(db, allowed, plan, approval) == Some(MoveAll(db, Moves(plan.rows), Slot(plan.targetServerID)))
  {
    if WritablePlan(plan) && forall row <- plan.rows :: AllowedRow(row) {
      PlanIsBatch(plan);
      MovesUnique(db, plan.rows);
      PerformExact(db, Moves(plan.rows), Slot(plan.sourceServerID), Slot(plan.targetServerID));
    }
  }

  lemma MovesUnique(db: Dokploy, rows: seq<PlanRow>)
    requires UniquePlanIDs(db, rows)
    ensures UniqueIDs(db, Moves(rows))
  {
    forall m <- Moves(rows) ensures UniqueID(db, m) {
      var k :| 0 <= k < |rows| && Moves(rows)[k] == m;
      assert rows[k] in rows;
    }
  }

  /** What the checks before the transaction ask for: a plan with an id, two different
      servers and rows that go from the one to the other, each with an id, in one of the
      tables and by one of its id columns; a database that has such a table; and the
      database's own fingerprint in the plan, approved by name or, failing a name, by the
      allowlist. */
  lemma AuthorisedExactly(db: Dokploy, allowed: set<string>, plan: MigrationPlan, approval: string)
    ensures Authorised(db, allowed, plan, approval) <==>
      && !Blank(plan.id) && !Blank(plan.sourceServerID) && !Blank(plan.targetServerID)
      && plan.sourceServerID != plan.targetServerID && plan.rows != []
      && (forall row <- plan.rows ::
        && row.oldServerID == plan.sourceServerID && row.newServerID == plan.targetServerID
        && !Blank(row.id) && IsRetargetTable(row.table) && row.idColumn in ["", row.table + "Id", "id"])
      && (exists t <- db.tables :: IsRetargetTable(t) && db.tables[t].columns != {})
      && !Blank(plan.schemaHash) && plan.schemaHash == db.fingerprint
      && (approval == db.fingerprint || (approval == "" && db.fingerprint in allowed))
  {
    WritableRowsExactly(plan);
    SchemaAllowedExactly(db.fingerprint, plan.schemaHash, approval, allowed);
  }

  lemma WritableRowsExactly(plan: MigrationPlan)
    ensures WritablePlan(plan) && (forall row <- plan.rows :: AllowedRow(row)) <==>
      && !Blank(plan.id) && !Blank(plan.sourceServerID) && !Blank(plan.targetServerID)
      && plan.sourceServerID != plan.targetServerID && !Blank(plan.schemaHash) && plan.rows != []
      && (forall row <- plan.rows ::
        && row.oldServerID == plan.sourceServerID && row.newServerID == plan.targetServerID
        && !Blank(row.id) && IsRetargetTable(row.table) && row.idColumn in ["", row.table + "Id", "id"])
  {
    forall row <- plan.rows | IsRetargetTable(row.table) ensures !Blank(row.table) {
      RetargetTablesNotBlank(row.table);
    }
  }

  lemma SchemaAllowedExactly(currentHash: string, planHash: string, approval: string, allowed: set<string>)
    ensures !Blank(planHash) ==>
      (WriteSchemaAllowed(currentHash, planHash, approval, allowed) <==>
        planHash == currentHash && (approval == currentHash || (approval == "" && currentHash in allowed)))
  {
    assert Blank("");
  }

  /** An apply of any plan on any database commits exactly when those checks pass and each
      guarded move in turn finds exactly one row. What it leaves is what the moves leave. */
  lemma ApplyExactly(db: Dokploy, allowed: set<string>, plan: MigrationPlan, approval: string)
    ensures ApplyPlan(db, allowed, plan, approval).Success? <==>
      && !Blank(plan.id) && !Blank(plan.sourceServerID) && !Blank(plan.targetServerID)
      && plan.sourceServerID != plan.targetServerID && plan.rows != []
      && (forall row <- plan.rows ::
        && row.oldServerID == plan.sourceServerID && row.newServerID == plan.targetServerID
        && !Blank(row.id) && IsRetargetTable(row.table) && row.idColumn in ["", row.table + "Id", "id"])
      && (exists t <- db.tables :: IsRetargetTable(t) && db.tables[t].columns != {})
      && !Blank(plan.schemaHash) && plan.schemaHash == db.fingerprint
      && (approval == db.fingerprint || (approval == "" && db.fingerprint in allowed))
      && Perform(db, Moves(plan.rows)).Some?
    ensures ApplyPlan(db, allowed, plan, approval).Success? ==>
      Perform(db, Moves(plan.rows)) == Some(ApplyPlan(db, allowed, plan, approval).value)
  {
    ApplyIsCommitted(db, allowed, plan, approval);
    AuthorisedExactly(db, allowed, plan, approval);
    CommittedSplit(db, allowed, plan, approval, Authorised(db, allowed, plan, approval));
  }

  lemma CommittedSplit(db: Dokploy, allowed: set<string>, plan: MigrationPlan, approval: string, authorised: bool)
    requires authorised == Authorised(db, allowed, plan, approval)
    ensures Committed(db, allowed, plan, approval) == if authorised then Perform(db, Moves(plan.rows)) else None
  {
  }

  /** With unique ids, an apply of a writable plan with allowed rows commits exactly when
      the schema is the plan's and is approved, every row is in place, and no two plan
      rows name one database row. What it leaves is the simultaneous move. */
  lemma ApplyCommitsExactly(db: Dokploy, allowed: set<string>, plan: MigrationPlan, approval: string)
    requires UniquePlanIDs(db, plan.rows)
    ensures ApplyPlan(db, allowed, plan, approval).Success? <==>
      && WritablePlan(plan) && HasSupportedTables(db)
      && plan.schemaHash == db.fingerprint
      && (approval == db.fingerprint || (approval == "" && db.fingerprint in allowed))
      && (forall row <- plan.rows :: AllowedRow(row))
      && Ready(db, Moves(plan.rows))
    ensures ApplyPlan(db, allowed, plan, approval).Success? ==>
      ApplyPlan(db, allowed, plan, approval).value == MoveAll(db, Moves(plan.rows), Slot(plan.targetServerID))
  {
    ApplyIsCommitted(db, allowed, plan, approval);
    CommitsExactly(db, allowed, plan, approval);
    assert Blank("");
  }

  /** Some row of the plan carries the id of this database row. */
  predicate Names(rows: seq<PlanRow>, t: string, dbRow: Row) {
    exists row <- rows :: row.table == t && Carries(MoveOf(row), dbRow)
  }

  /** A committed apply changes exactly the rows its plan names, each only in its
      server column, from the plan's source to its target. */
  lemma CommitEffect(db: Dokploy, allowed: set<string>, plan: MigrationPlan, approval: string, t: string, i: nat)
    requires UniquePlanIDs(db, plan.rows)
    requires Committed(db, allowed, plan, approval).Some?
    requires t in db.tables && i < |db.tables[t].rows|
    ensures var after, dbRow := Committed(db, allowed, plan, approval).value, db.tables[t].rows[i];
      && t in after.tables && |after.tables[t].rows| == |db.tables[t].rows|
      && after.tables[t].rows[i] ==
           (if Names(plan.rows, t, dbRow) then dbRow[SERVER_COLUMN := Slot(plan.targetServerID)] else dbRow)
      && (Names(plan.rows, t, dbRow) ==> Cell(dbRow, SERVER_COLUMN) == Slot(plan.sourceServerID))
  {
    CommitsExactly(db, allowed, plan, approval);
    PlanIsBatch(plan);
    NamedRowsAreSelected(db, plan.rows, t, i);
    var ms, dbRow := Moves(plan.rows), db.tables[t].rows[i];
    if Selected(ms, t, dbRow) {
      var m :| m in ms && m.table == t && Guard(m, dbRow);
      assert m.source == Slot(plan.sourceServerID);
    }
  }

  /** What an apply leaves of a row, in terms of the plan alone. */
  lemma ApplyEffect(db: Dokploy, allowed: set<string>, plan: MigrationPlan, approval: string, t: string, i: nat)
    requires UniquePlanIDs(db, plan.rows)
    requires ApplyPlan(db, allowed, plan, approval).Success?
    requires t in db.tables && i < |db.tables[t].rows|
    ensures var after, dbRow := ApplyPlan(db, allowed, plan, approval).value, db.tables[t].rows[i];
      var from := if plan.sourceServerID == "__dokploy_local__" then None else Some(plan.sourceServerID);
      var to := if plan.targetServerID == "__dokploy_local__" then None else Some(plan.targetServerID);
      var named := exists row <- plan.rows ::
        row.table == t && Cell(dbRow, if row.idColumn == "" then t + "Id" else row.idColumn) == Some(row.id);
      && t in after.tables && |after.tables[t].rows| == |db.tables[t].rows|
      && after.tables[t].rows[i] == (if named then dbRow["serverId" := to] else dbRow)
      && (named ==> Cell(dbRow, "serverId") == from)
  {
    ApplyIsCommitted(db, allowed, plan, approval);
    CommitEffect(db, allowed, plan, approval, t, i);
    NamesExactly(plan.rows, t, db.tables[t].rows[i]);
  }

  lemma NamesExactly(rows: seq<PlanRow>, t: string, dbRow: Row)
    ensures Names(rows, t, dbRow) <==> exists row <- rows ::
      row.table == t && Cell(dbRow, if row.idColumn == "" then t + "Id" else row.idColumn) == Some(row.id)
  {
  }

  lemma NamedRowsAreSelected(db: Dokploy, rows: seq<PlanRow>, t: string, i: nat)
    requires UniquePlanIDs(db, rows) && Ready(db, Moves(rows))
    requires t in db.tables && i < |db.tables[t].rows|
    ensures Names(rows, t, db.tables[t].rows[i]) <==> Selected(Moves(rows), t, db.tables[t].rows[i])
  {
    var ms, dbRow := Moves(rows), db.tables[t].rows[i];
    if Names(rows, t, dbRow) {
      var row :| row in rows && row.table == t && Carries(MoveOf(row), dbRow);
      var k :| 0 <= k < |rows| && rows[k] == row;
      assert ms[k] == MoveOf(row) && ms[k] in ms;
      assert Placed(db, ms[k]);
      assert UniqueID(db, MoveOf(row));
    }
    if Selected(ms, t, dbRow) {
      var m :| m in ms && m.table == t && Guard(m, dbRow);
      var k :| 0 <= k < |ms| && ms[k] == m;
      assert MoveOf(rows[k]) == m && rows[k] in rows;
    }
  }

  /** Permuting a plan's rows changes neither whether it commits nor what it leaves. */
  lemma RowOrderIrrelevant(
    db: Dokploy, allowed: set<string>, plan: MigrationPlan, approval: string, rows: seq<PlanRow>)
    requires multiset(rows) == multiset(plan.rows) && UniquePlanIDs(db, plan.rows)
    ensures Committed(db, allowed, plan.(rows := rows), approval) == Committed(db, allowed, plan, approval)
  {
    PermutedChecks(db, allowed, plan, approval, rows);
    if Authorised(db, allowed, plan, approval) {
      PermutedMoves(db, plan, rows);
    }
  }

  lemma PermutedMoves(db: Dokploy, plan: MigrationPlan, rows: seq<PlanRow>)
    requires multiset(rows) == multiset(plan.rows) && UniquePlanIDs(db, plan.rows)
    requires WritablePlan(plan) && forall row <- plan.rows :: AllowedRow(row)
    ensures Perform(db, Moves(rows)) == Perform(db, Moves(plan.rows))
  {
    PlanIsBatch(plan);
    MovesPermute(plan.rows, rows);
    MovesUnique(db, plan.rows);
    PerformOrderIrrelevant(db, Moves(plan.rows), Moves(rows), Slot(plan.sourceServerID), Slot(plan.targetServerID));
  }

  lemma PermutedChecks(
    db: Dokploy, allowed: set<string>, plan: MigrationPlan, approval: string, rows: seq<PlanRow>)
    requires multiset(rows) == multiset(plan.rows)
    ensures Authorised(db, allowed, plan.(rows := rows), approval) <==> Authorised(db, allowed, plan, approval)
  {
    SameElements(rows, plan.rows);
  }

  lemma MovesPermute(a: seq<PlanRow>, b: seq<PlanRow>)
    requires multiset(a) == multiset(b)
    ensures multiset(Moves(a)) == multiset(Moves(b))
  {
    MapPermutes(MoveOf, a, b);
    assert Map(MoveOf, a) == Moves(a) && Map(MoveOf, b) == Moves(b);
  }

  lemma {:induction false} ReverseRowsAppend(a: seq<PlanRow>, b: seq<PlanRow>)
    ensures ReverseRows(a + b) == ReverseRows(b) + ReverseRows(a)
  {
    if a == [] {
      assert a + b == b;
    } else {
      assert (a + b)[1..] == a[1..] + b;
      ReverseRowsAppend(a[1..], b);
    }
  }

  lemma {:induction false} ReverseRowsTwice(rows: seq<PlanRow>)
    ensures ReverseRows(ReverseRows(rows)) == rows
    ensures |ReverseRows(rows)| == |rows|
    ensures forall row: PlanRow :: row in ReverseRows(rows) <==> ReverseRow(row) in rows
  {
    if rows != [] {
      ReverseRowsTwice(rows[1..]);
      ReverseRowsAppend(ReverseRows(rows[1..]), [ReverseRow(rows[0])]);
      assert [ReverseRow(rows[0])][1..] == [];
      assert rows == [rows[0]] + rows[1..];
      forall row: PlanRow ensures row in ReverseRows(rows) <==> ReverseRow(row) in rows {
        assert ReverseRow(ReverseRow(row)) == row;
      }
    }
  }

  /** Reversing a plan twice gives it back, and keeps it writable or not. */
  lemma ReversePlanInvolution(plan: MigrationPlan)
    ensures ReversePlan(ReversePlan(plan)) == plan
    ensures WritablePlan(ReversePlan(plan)) <==> WritablePlan(plan)
  {
    ReverseRowsTwice(plan.rows);
    if WritablePlan(plan) {
      ReverseWritable(plan);
    }
    if WritablePlan(ReversePlan(plan)) {
      ReverseWritable(ReversePlan(plan));
    }
  }

  lemma ReverseWritable(plan: MigrationPlan)
    requires WritablePlan(plan)
    ensures WritablePlan(ReversePlan(plan))
  {
    ReverseRowsTwice(plan.rows);
    forall row <- ReverseRows(plan.rows)
      ensures !Blank(row.table) && !Blank(row.id)
      ensures row.oldServerID == plan.targetServerID && row.newServerID == plan.sourceServerID
    {
      assert ReverseRow(row) in plan.rows;
    }
  }

  lemma {:induction false} ReversedMoves(rows: seq<PlanRow>)
    ensures Moves(ReverseRows(rows)) == Undo(Moves(rows))
  {
    if rows != [] {
      ReversedMoves(rows[1..]);
      assert Moves(rows)[1..] == Moves(rows[1..]);
      assert Moves(ReverseRows(rows)) == Moves(ReverseRows(rows[1..])) + [MoveOf(ReverseRow(rows[0]))];
    }
  }

  lemma RollbackIsUndo(db: Dokploy, allowed: set<string>, plan: MigrationPlan, approval: string, again: string)
    requires WellFormed(db) && Committed(db, allowed, plan, approval).Some?
    ensures var after := Committed(db, allowed, plan, approval).value;
      Committed(after, allowed, ReversePlan(plan), again) ==
      if WriteSchemaAllowed(db.fingerprint, plan.schemaHash, again, allowed)
      then Perform(after, Undo(Moves(plan.rows)))
      else None
  {
    var after := Committed(db, allowed, plan, approval).value;
    PerformFrame(db, Moves(plan.rows));
    assert HasSupportedTables(after) by {
      var t :| t in db.tables && IsRetargetTable(t) && db.tables[t].columns != {};
      assert t in after.tables && after.tables[t].columns != {};
    }
    ReversePlanInvolution(plan);
    ReversedMoves(plan.rows);
    ReverseRowsTwice(plan.rows);
    forall row <- ReverseRows(plan.rows) ensures AllowedRow(row) {
      assert ReverseRow(row) in plan.rows;
    }
  }

  /** After a committed apply, rolling the same plan back commits exactly when the
      approval still allows writing and, before the apply, no row carrying a plan id
      was on the target or was moved for another plan row; it then restores the
      database exactly. */
  lemma RollbackRestoresExactly(
    db: Dokploy, allowed: set<string>, plan: MigrationPlan, approval: string, again: string)
    requires WellFormed(db) && ApplyPlan(db, allowed, plan, approval).Success?
    ensures var after := ApplyPlan(db, allowed, plan, approval).value;
      var back := ApplyPlan(after, allowed, ReversePlan(plan), again);
      && (back.Success? <==>
          && (again == db.fingerprint || (again == "" && db.fingerprint in allowed))
          && TwinFree(db, Moves(plan.rows)))
      && (back.Success? ==> back.value == db)
  {
    ApplyIsCommitted(db, allowed, plan, approval);
    ApplyIsCommitted(ApplyPlan(db, allowed, plan, approval).value, allowed, ReversePlan(plan), again);
    CommittedRollback(db, allowed, plan, approval, again);
  }

  lemma CommittedRollback(db: Dokploy, allowed: set<string>, plan: MigrationPlan, approval: string, again: string)
    requires WellFormed(db) && Committed(db, allowed, plan, approval).Some?
    ensures var back := Committed(Committed(db, allowed, plan, approval).value, allowed, ReversePlan(plan), again);
      && (back.Some? <==>
          && WriteSchemaAllowed(db.fingerprint, plan.schemaHash, again, allowed)
          && TwinFree(db, Moves(plan.rows)))
      && (back.Some? ==> back.value == db)
  {
    PlanIsBatch(plan);
    RollbackIsUndo(db, allowed, plan, approval, again);
    UndoExact(db, Moves(plan.rows));
    NoTwinIsTwinFree(db, Moves(plan.rows), Slot(plan.sourceServerID), Slot(plan.targetServerID));
  }

  /** With unique ids a rollback under the same approval always undoes its apply. */
  lemma RollbackUndoesApply(db: Dokploy, allowed: set<string>, plan: MigrationPlan, approval: string)
    requires WellFormed(db) && UniquePlanIDs(db, plan.rows)
    requires ApplyPlan(db, allowed, plan, approval).Success?
    ensures ApplyPlan(ApplyPlan(db, allowed, plan, approval).value, allowed, ReversePlan(plan), approval) == Success(db)
  {
    ApplyIsCommitted(db, allowed, plan, approval);
    RollbackRestoresExactly(db, allowed, plan, approval, approval);
    UniqueIDsAreTwinFree(db, allowed, plan, approval);
  }

  lemma UniqueIDsAreTwinFree(db: Dokploy, allowed: set<string>, plan: MigrationPlan, approval: string)
    requires UniquePlanIDs(db, plan.rows) && Committed(db, allowed, plan, approval).Some?
    ensures TwinFree(db, Moves(plan.rows))
  {
    var source, target, ms := Slot(plan.sourceServerID), Slot(plan.targetServerID), Moves(plan.rows);
    PlanIsBatch(plan);
    MovesUnique(db, plan.rows);
    UniqueIDsHaveNoTwin(db, ms, source, target);
    NoTwinIsTwinFree(db, ms, source, target);
  }

  /** A writable one-row plan, on a database whose only table holds two rows with the
      plan row's id, one on the source and one on the target. */
  predicate TwinExample(db: Dokploy, plan: MigrationPlan) {
    && WritablePlan(plan) && |plan.rows| == 1 && AllowedRow(plan.rows[0]) && plan.rows[0].idColumn == "id"
    && db.fingerprint == plan.schemaHash
    && var row := plan.rows[0];
      var here: Row := map["id" := Some(row.id), SERVER_COLUMN := Slot(row.oldServerID)];
      var there: Row := map["id" := Some(row.id), SERVER_COLUMN := Slot(row.newServerID)];
      db.tables == map[row.table := Table({"id", SERVER_COLUMN}, [here, there])]
  }

  /** In the example the apply commits, taking the row on the source; its rollback then
      finds two rows on the target and fails. */
  lemma TwinDefeatsRollback(db: Dokploy, plan: MigrationPlan)
    requires TwinExample(db, plan)
    ensures WellFormed(db)
    ensures Committed(db, {}, plan, plan.schemaHash).Some?
    ensures Committed(Committed(db, {}, plan, plan.schemaHash).value, {}, ReversePlan(plan), plan.schemaHash).None?
  {
    TwinExampleMove(db, plan);
    TwinExampleAuthorised(db, plan);
    var m := MoveOf(plan.rows[0]);
    TwinMoves(db, m);
    assert Moves(plan.rows) == [m];
    CommittedRollback(db, {}, plan, plan.schemaHash, plan.schemaHash);
  }

  lemma TwinExampleAuthorised(db: Dokploy, plan: MigrationPlan)
    requires TwinExample(db, plan)
    ensures Authorised(db, {}, plan, plan.schemaHash)
  {
    TwinExampleSupported(db, plan.rows[0].table);
    InkIsSchema(db, plan.schemaHash);
  }

  lemma TwinExampleSupported(db: Dokploy, table: string)
    requires table in db.tables && IsRetargetTable(table) && "id" in db.tables[table].columns
    ensures HasSupportedTables(db)
  {
    assert db.tables[table].columns != {};
  }

  lemma InkIsSchema(db: Dokploy, hash: string)
    requires !Blank(hash) && hash == db.fingerprint
    ensures WriteSchemaAllowed(db.fingerprint, hash, hash, {})
  {
    assert Blank("");
  }

  lemma TwinExampleMove(db: Dokploy, plan: MigrationPlan)
    requires TwinExample(db, plan)
    ensures WellFormed(db)
    ensures var m := MoveOf(plan.rows[0]);
      && HasColumns(db, m) && |RowsOf(db, m.table)| == 2 && m.source != m.target
      && Guard(m, RowsOf(db, m.table)[0]) && Guard(Swap(m), RowsOf(db, m.table)[1])
  {
    SlotInjective(plan.sourceServerID, plan.targetServerID);
  }

  lemma TwinMoves(db: Dokploy, m: Move)
    requires HasColumns(db, m) && |RowsOf(db, m.table)| == 2 && m.source != m.target
    requires Guard(m, RowsOf(db, m.table)[0]) && Guard(Swap(m), RowsOf(db, m.table)[1])
    ensures Perform(db, [m]) == Some(DoMove(db, m))
    ensures !TwinFree(db, [m])
  {
    HitsOne(m, RowsOf(db, m.table), 0);
    assert [m][1..] == [];
    assert Perform(db, [m]) == Perform(DoMove(db, m), []);
    assert 1 in Hits(Swap(m), RowsOf(db, m.table));
    assert m in [m];
  }

  /** No apply ever writes the built-in server's name into a row. */
  lemma MarkerNeverWritten(db: Dokploy, allowed: set<string>, plan: MigrationPlan, approval: string, t: string, i: nat)
    requires WellFormed(db) && Committed(db, allowed, plan, approval).Some?
    requires t in db.tables && i < |db.tables[t].rows|
    ensures var after := Committed(db, allowed, plan, approval).value;
      && t in after.tables && i < |after.tables[t].rows|
      && (Cell(after.tables[t].rows[i], SERVER_COLUMN) == Some(LOCAL_SERVER_ID) ==>
          after.tables[t].rows[i] == db.tables[t].rows[i])
  {
    PerformWritesTargets(db, Moves(plan.rows), t, i);
  }

  lemma {:induction false} PerformWritesTargets(db: Dokploy, ms: seq<Move>, t: string, i: nat)
    requires Perform(db, ms).Some? && WellFormed(db)
    requires t in db.tables && i < |db.tables[t].rows|
    requires forall m <- ms :: m.target != Some(LOCAL_SERVER_ID)
    ensures var after := Perform(db, ms).value;
      && t in after.tables && i < |after.tables[t].rows|
      && (Cell(after.tables[t].rows[i], SERVER_COLUMN) == Some(LOCAL_SERVER_ID) ==>
          after.tables[t].rows[i] == db.tables[t].rows[i])
    decreases |ms|
  {
    if ms != [] {
      DoMoveFrame(db, ms[0]);
      assert ms[0] in ms;
      DoMoveWritesTarget(db, ms[0], t, i);
      PerformWritesTargets(DoMove(db, ms[0]), ms[1..], t, i);
    }
  }

  lemma DoMoveWritesTarget(db: Dokploy, m: Move, t: string, i: nat)
    requires HasColumns(db, m) && t in db.tables && i < |db.tables[t].rows|
    requires m.target != Some(LOCAL_SERVER_ID)
    ensures var after := DoMove(db, m);
      && t in after.tables && |after.tables[t].rows| == |db.tables[t].rows|
      && (Cell(after.tables[t].rows[i], SERVER_COLUMN) == Some(LOCAL_SERVER_ID) ==>
          after.tables[t].rows[i] == db.tables[t].rows[i])
  {
  }
}
