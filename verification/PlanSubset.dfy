/** The check that a submitted plan is a reviewed subset of the stored dry-run:
    internal/jobs/jobs.go. */
module PlanSubset {
  import opened Wrappers
  import opened Text
  import opened Model

  datatype Identity = Identity(
    table: string, idColumn: string, id: string, oldServerID: string, newServerID: string)

  function IdentityOf(row: PlanRow): Identity {
    Identity(
      TrimSpace(row.table), TrimSpace(row.idColumn), TrimSpace(row.id),
      TrimSpace(row.oldServerID), TrimSpace(row.newServerID))
  }

  predicate Incomplete(identity: Identity) {
    || identity.table == "" || identity.idColumn == "" || identity.id == ""
    || identity.oldServerID == "" || identity.newServerID == ""
  }

  predicate SameHeader(stored: MigrationPlan, submitted: MigrationPlan) {
    && stored.sourceServerID == submitted.sourceServerID
    && stored.targetServerID == submitted.targetServerID
    && stored.schemaHash == submitted.schemaHash
  }

  predicate NoDuplicates<T(==)>(s: seq<T>) {
    forall i, j | 0 <= i < j < |s| :: s[i] != s[j]
  }

  /** The stored rows have no blank field and pairwise different trimmed identities. */
  predicate WellFormedRows(rows: seq<PlanRow>) {
    && (forall row <- rows :: !Incomplete(IdentityOf(row)))
    && forall i, j | 0 <= i < j < |rows| :: IdentityOf(rows[i]) != IdentityOf(rows[j])
  }

  /** What the check is for: same header, and a nonempty duplicate-free choice of exact
      stored rows, names included. */
  predicate IsSubset(stored: MigrationPlan, submitted: MigrationPlan) {
    && SameHeader(stored, submitted)
    && WellFormedRows(stored.rows)
    && submitted.rows != []
    && NoDuplicates(submitted.rows)
    && forall row <- submitted.rows :: row in stored.rows
  }

  datatype SubsetError =
    | HeaderChanged
    | NoRowsSelected
    | StoredRowIncomplete
    | StoredRowDuplicate
    | SubmittedRowIncomplete
    | SubmittedRowDuplicate
    | NotPartOfDryRun

  /** The stored rows by identity: each row under its own, and nothing else. */
  predicate Indexes(storedRows: map<Identity, PlanRow>, rows: seq<PlanRow>) {
    && (forall row <- rows :: IdentityOf(row) in storedRows && storedRows[IdentityOf(row)] == row)
    && (forall id <- storedRows :: storedRows[id] in rows && IdentityOf(storedRows[id]) == id)
  }

  /** The first loop: indexes the stored rows, refusing blank fields and repeats. */
  method IndexStoredRows(rows: seq<PlanRow>) returns (result: Result<map<Identity, PlanRow>, SubsetError>)
    ensures result.Success? <==> WellFormedRows(rows)
    ensures result.Success? ==> Indexes(result.value, rows)
  {
    var storedRows: map<Identity, PlanRow> := map[];
    for i := 0 to |rows|
      invariant WellFormedRows(rows[..i])
      invariant Indexes(storedRows, rows[..i])
    {
      var row := rows[i];
      var identity := IdentityOf(row);
      TakeOneMore(rows, i);
      assert row in rows;
      if Incomplete(identity) {
        return Failure(StoredRowIncomplete);
      }
      if identity in storedRows {
        ghost var k :| 0 <= k < i && rows[k] == storedRows[identity];
        assert IdentityOf(rows[k]) == IdentityOf(rows[i]);
        return Failure(StoredRowDuplicate);
      }
      storedRows := storedRows[identity := row];
    }
    TakeAll(rows);
    return Success(storedRows);
  }

  /** The checks of one round of the second loop. */
  function CheckSubmittedRow(storedRows: map<Identity, PlanRow>, submittedRows: set<Identity>, row: PlanRow)
    : Outcome<SubsetError>
  {
    var identity := IdentityOf(row);
    if Incomplete(identity) then Fail(SubmittedRowIncomplete)
    else if identity in submittedRows then Fail(SubmittedRowDuplicate)
    else if identity !in storedRows || storedRows[identity] != row then Fail(NotPartOfDryRun)
    else Pass
  }

  /** A round accepts a row exactly when it is a stored row not yet submitted. */
  lemma CheckSubmittedRowExact(
    storedRows: map<Identity, PlanRow>, stored: seq<PlanRow>, submittedRows: set<Identity>, row: PlanRow)
    requires WellFormedRows(stored) && Indexes(storedRows, stored)
    ensures CheckSubmittedRow(storedRows, submittedRows, row).Pass?
            <==> row in stored && IdentityOf(row) !in submittedRows
  {
  }

  /** The second loop: every submitted row must be new and equal to its stored row. */
  method MatchSubmittedRows(storedRows: map<Identity, PlanRow>, stored: seq<PlanRow>, rows: seq<PlanRow>)
    returns (outcome: Outcome<SubsetError>)
    requires WellFormedRows(stored) && Indexes(storedRows, stored)
    ensures outcome.Pass? <==> NoDuplicates(rows) && forall row <- rows :: row in stored
  {
    var submittedRows: set<Identity> := {};
    for i := 0 to |rows|
      invariant submittedRows == Identities(rows[..i])
      invariant NoDuplicates(rows[..i]) && forall row <- rows[..i] :: row in stored
    {
      outcome := CheckSubmittedRow(storedRows, submittedRows, rows[i]);
      CheckSubmittedRowExact(storedRows, stored, submittedRows, rows[i]);
      OneMoreRow(storedRows, stored, rows, i);
      if outcome.Fail? {
        return;
      }
      submittedRows := submittedRows + {IdentityOf(rows[i])};
    }
    TakeAll(rows);
    return Pass;
  }

  function Identities(rows: seq<PlanRow>): set<Identity> {
    set row <- rows :: IdentityOf(row)
  }

  /** Among stored rows an identity determines the row, so a repeated identity is a repeated row. */
  lemma OneMoreRow(storedRows: map<Identity, PlanRow>, stored: seq<PlanRow>, rows: seq<PlanRow>, i: nat)
    requires Indexes(storedRows, stored) && i < |rows|
    requires NoDuplicates(rows[..i]) && forall row <- rows[..i] :: row in stored
    ensures Identities(rows[..i + 1]) == Identities(rows[..i]) + {IdentityOf(rows[i])}
    ensures rows[i] in stored && IdentityOf(rows[i]) !in Identities(rows[..i]) ==>
      NoDuplicates(rows[..i + 1]) && forall row <- rows[..i + 1] :: row in stored
    ensures !(rows[i] in stored && IdentityOf(rows[i]) !in Identities(rows[..i])) ==>
      !(NoDuplicates(rows) && forall row <- rows :: row in stored)
  {
    TakeOneMore(rows, i);
    assert rows[i] in rows;
    if rows[i] in stored && IdentityOf(rows[i]) in Identities(rows[..i]) {
      var row :| row in rows[..i] && IdentityOf(row) == IdentityOf(rows[i]);
      assert storedRows[IdentityOf(row)] == row && storedRows[IdentityOf(rows[i])] == rows[i];
      var k :| 0 <= k < i && rows[k] == row;
    }
  }

  lemma TakeOneMore<T>(s: seq<T>, i: nat)
    requires i < |s|
    ensures s[..i + 1] == s[..i] + [s[i]]
  {
  }

  lemma TakeAll<T>(s: seq<T>)
    ensures s[..|s|] == s
  {
  }

  /** Two rows agree in every field but the name, up to white space around it. */
  predicate SameUpToSpace(a: PlanRow, b: PlanRow) {
    && TrimSpace(a.table) == TrimSpace(b.table) && TrimSpace(a.idColumn) == TrimSpace(b.idColumn)
    && TrimSpace(a.id) == TrimSpace(b.id)
    && TrimSpace(a.oldServerID) == TrimSpace(b.oldServerID) && TrimSpace(a.newServerID) == TrimSpace(b.newServerID)
  }

  lemma WellFormedRowsExactly(rows: seq<PlanRow>)
    ensures WellFormedRows(rows) <==>
      && (forall row <- rows ::
        !Blank(row.table) && !Blank(row.idColumn) && !Blank(row.id) && !Blank(row.oldServerID) && !Blank(row.newServerID))
      && forall i, j | 0 <= i < j < |rows| :: !SameUpToSpace(rows[i], rows[j])
  {
    forall i, j | 0 <= i < j < |rows|
      ensures IdentityOf(rows[i]) == IdentityOf(rows[j]) <==> SameUpToSpace(rows[i], rows[j])
    {
    }
  }

  /** The map-and-loop check accepts exactly the subsets: plans with the stored plan's
      servers and schema hash and a nonempty choice of different stored rows, where the
      stored rows have no blank field and differ by more than white space. */
  method ValidatePlanSubset(stored: MigrationPlan, submitted: MigrationPlan) returns (outcome: Outcome<SubsetError>)
    ensures outcome.Pass? <==> IsSubset(stored, submitted)
    ensures outcome.Pass? <==>
      && submitted.sourceServerID == stored.sourceServerID && submitted.targetServerID == stored.targetServerID
      && submitted.schemaHash == stored.schemaHash
      && submitted.rows != [] && (forall row <- submitted.rows :: row in stored.rows)
      && (forall i, j | 0 <= i < j < |submitted.rows| :: submitted.rows[i] != submitted.rows[j])
      && (forall row <- stored.rows ::
        !Blank(row.table) && !Blank(row.idColumn) && !Blank(row.id) && !Blank(row.oldServerID) && !Blank(row.newServerID))
      && (forall i, j | 0 <= i < j < |stored.rows| :: !SameUpToSpace(stored.rows[i], stored.rows[j]))
  {
    WellFormedRowsExactly(stored.rows);
    if !SameHeader(stored, submitted) {
      return Fail(HeaderChanged);
    }
    if |submitted.rows| == 0 {
      return Fail(NoRowsSelected);
    }
    var storedRows := IndexStoredRows(stored.rows);
    if storedRows.Failure? {
      return Fail(storedRows.error);
    }
    outcome := MatchSubmittedRows(storedRows.value, stored.rows, submitted.rows);
  }
}
