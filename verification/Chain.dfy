/** The Dokploy database over whole runs: it is what the committed batches make of the
    initial one, and every resource's moves form a chain. */
module Chain {
  import opened Wrappers
  import opened Text
  import opened Model
  import opened Tables
  import opened Rendering
  import opened Retarget
  import opened Store
  import opened Machine

  // -------------------------------------------------------------- replaying

  function BatchOf(c: Commit): MigrationPlan {
    Effective(c.kind, c.plan)
  }

  /** The committed batches one after another, each as checks and guarded moves. */
  function Replay(origin: Dokploy, allowed: set<string>, commits: seq<Commit>): Option<Dokploy> {
    if commits == [] then Some(origin)
    else
      var c := commits[|commits| - 1];
      match Replay(origin, allowed, commits[..|commits| - 1])
      case None => None
      case Some(mid) => Committed(mid, allowed, BatchOf(c), c.approval)
  }

  lemma ReplayAppend(origin: Dokploy, allowed: set<string>, commits: seq<Commit>, c: Commit, mid: Dokploy, after: Dokploy)
    requires Replay(origin, allowed, commits) == Some(mid)
    requires Committed(mid, allowed, BatchOf(c), c.approval) == Some(after)
    ensures Replay(origin, allowed, commits + [c]) == Some(after)
  {
    assert (commits + [c])[..|commits|] == commits;
  }

  /** Every step of the replay up to the end took place. */
  lemma {:induction false} ReplayPrefix(origin: Dokploy, allowed: set<string>, commits: seq<Commit>, n: nat)
    requires n <= |commits| && Replay(origin, allowed, commits).Some?
    ensures Replay(origin, allowed, commits[..n]).Some?
    decreases |commits|
  {
    if n == |commits| {
      assert commits[..n] == commits;
    } else {
      var front := commits[..|commits| - 1];
      assert front[..n] == commits[..n];
      ReplayPrefix(origin, allowed, front, n);
    }
  }

  ghost predicate Replayed(w: World) {
    Replay(w.origin, w.allowed, w.commits) == Some(w.dok)
  }

  /** Only a transaction touches the database, and it is recorded as a commit. */
  lemma StepOnDatabase(
    w: World, k: nat, io: bool, now: string, built: Option<MigrationPlan>, valid: bool, tx: Option<Dokploy>)
    requires k in w.ops
    ensures var op, after := w.ops[k], StepWith(w, k, io, now, built, valid, tx);
      && after.origin == w.origin && after.allowed == w.allowed
      && (if op.Writing? && op.step.Transact? && io && tx.Some? then
            && after.dok == tx.value
            && after.commits == w.commits + [Commit(op.kind, op.jobID, op.plan, op.approval, op.audit)]
          else after.dok == w.dok && after.commits == w.commits)
  {
  }

  lemma TransactionIsCommitted(w: World, op: Op)
    requires op.Writing?
    ensures Transaction(w, op) == Committed(w.dok, w.allowed, Effective(op.kind, op.plan), op.approval)
  {
    ApplyIsCommitted(w.dok, w.allowed, Effective(op.kind, op.plan), op.approval);
  }

  lemma NextKeepsReplayed(w: World, action: Action)
    requires Replayed(w)
    ensures Replayed(Next(w, action)) && Next(w, action).origin == w.origin && Next(w, action).allowed == w.allowed
  {
    if action.Advance? && action.op in w.ops {
      var op := w.ops[action.op];
      var tx := Transaction(w, op);
      StepOnDatabase(w, action.op, action.io, action.now, Built(w, op, action.planID, action.now),
        op.Writing? && StoredDryRunAccepts(EventsOf(w.store, op.jobID), op.plan), tx);
      if op.Writing? && op.step.Transact? && action.io && tx.Some? {
        TransactionIsCommitted(w, op);
        ReplayAppend(w.origin, w.allowed, w.commits,
          Commit(op.kind, op.jobID, op.plan, op.approval, op.audit), w.dok, tx.value);
      }
    }
  }

  /** At every point of every run the database is the initial one with the committed
      batches replayed in commit order. */
  lemma {:induction false} RunsReplay(dok: Dokploy, allowed: set<string>, actions: seq<Action>)
    ensures var w := Exec(Init(dok, allowed), actions);
      && w.origin == dok && w.allowed == allowed
      && Replay(dok, allowed, w.commits) == Some(w.dok)
    decreases |actions|
  {
    if actions != [] {
      var front := actions[..|actions| - 1];
      RunsReplay(dok, allowed, front);
      NextKeepsReplayed(Exec(Init(dok, allowed), front), actions[|actions| - 1]);
    }
  }

  lemma {:induction false} PerformKeepsFingerprint(db: Dokploy, ms: seq<Move>)
    requires Perform(db, ms).Some?
    ensures Perform(db, ms).value.fingerprint == db.fingerprint
    decreases |ms|
  {
    if ms != [] {
      PerformKeepsFingerprint(DoMove(db, ms[0]), ms[1..]);
    }
  }

  lemma {:induction false} ReplayKeepsFingerprint(origin: Dokploy, allowed: set<string>, commits: seq<Commit>)
    requires Replay(origin, allowed, commits).Some?
    ensures Replay(origin, allowed, commits).value.fingerprint == origin.fingerprint
    decreases |commits|
  {
    if commits != [] {
      var n := |commits| - 1;
      ReplayKeepsFingerprint(origin, allowed, commits[..n]);
      PerformKeepsFingerprint(Replay(origin, allowed, commits[..n]).value, Moves(BatchOf(commits[n]).rows));
    }
  }

  /** In every run every write that ever reached the database, apply or rollback, was of a
      plan for the database's own schema, and that schema was approved: by name in the
      request or, where the request named none, by the allowlist. */
  lemma CommitsAreApproved(dok: Dokploy, allowed: set<string>, actions: seq<Action>, i: nat)
    requires i < |Exec(Init(dok, allowed), actions).commits|
    ensures var c := Exec(Init(dok, allowed), actions).commits[i];
      && c.plan.schemaHash == dok.fingerprint
      && (c.approval == dok.fingerprint || (c.approval == "" && dok.fingerprint in allowed))
  {
    var commits := Exec(Init(dok, allowed), actions).commits;
    RunsReplay(dok, allowed, actions);
    var mid := CommittedAt(dok, allowed, commits, i);
    ReplayKeepsFingerprint(dok, allowed, commits[..i]);
    BatchIsApproved(mid, allowed, commits[i]);
  }

  lemma BatchIsApproved(mid: Dokploy, allowed: set<string>, c: Commit)
    requires Committed(mid, allowed, BatchOf(c), c.approval).Some?
    ensures c.plan.schemaHash == mid.fingerprint
    ensures c.approval == mid.fingerprint || (c.approval == "" && mid.fingerprint in allowed)
  {
    AuthorisedExactly(mid, allowed, BatchOf(c), c.approval);
  }

  // -------------------------------------------------------------- unique ids

  /** No table has two rows that one plan row could name. */
  ghost predicate IDsUnique(db: Dokploy) {
    forall row: PlanRow | AllowedRow(row) :: UniqueID(db, MoveOf(row))
  }

  lemma SameCarries(db: Dokploy, after: Dokploy, m: Move)
    requires SameButServers(db, after) && m.idColumn != SERVER_COLUMN
    ensures |RowsOf(after, m.table)| == |RowsOf(db, m.table)|
    ensures forall i | 0 <= i < |RowsOf(db, m.table)| ::
      Carries(m, RowsOf(after, m.table)[i]) <==> Carries(m, RowsOf(db, m.table)[i])
  {
  }

  lemma UniqueIDKept(db: Dokploy, after: Dokploy, row: PlanRow)
    requires SameButServers(db, after) && AllowedRow(row) && UniqueID(db, MoveOf(row))
    ensures UniqueID(after, MoveOf(row))
  {
    MoveAvoidsServerColumn(row);
    SameCarries(db, after, MoveOf(row));
  }

  lemma IDsKept(db: Dokploy, after: Dokploy)
    requires SameButServers(db, after) && IDsUnique(db)
    ensures IDsUnique(after)
  {
    forall row: PlanRow | AllowedRow(row) ensures UniqueID(after, MoveOf(row)) {
      UniqueIDKept(db, after, row);
    }
  }

  /** A committed batch as a transaction of moves between two servers. */
  lemma CommittedFrame(db: Dokploy, allowed: set<string>, plan: MigrationPlan, approval: string)
    requires WellFormed(db) && Committed(db, allowed, plan, approval).Some?
    ensures WellFormed(Committed(db, allowed, plan, approval).value)
    ensures SameButServers(db, Committed(db, allowed, plan, approval).value)
    ensures WritablePlan(plan) && forall row <- plan.rows :: AllowedRow(row)
  {
    PerformFrame(db, Moves(plan.rows));
  }

  lemma SameTransitive(a: Dokploy, b: Dokploy, c: Dokploy)
    requires SameButServers(a, b) && SameButServers(b, c)
    requires WellFormed(a) ==> WellFormed(b)
    ensures SameButServers(a, c)
  {
    forall t <- a.tables, i | 0 <= i < |a.tables[t].rows|
      ensures WellFormed(a) ==> c.tables[t].rows[i].Keys == a.tables[t].rows[i].Keys
      ensures forall col: string | col != SERVER_COLUMN ::
        Cell(c.tables[t].rows[i], col) == Cell(a.tables[t].rows[i], col)
    {
      assert |b.tables[t].rows| == |a.tables[t].rows|;
      if WellFormed(a) {
        assert b.tables[t].rows[i].Keys == a.tables[t].rows[i].Keys;
      }
    }
  }

  /** A replay changes nothing but servers. */
  lemma {:induction false} ReplayFrame(origin: Dokploy, allowed: set<string>, commits: seq<Commit>)
    requires WellFormed(origin) && Replay(origin, allowed, commits).Some?
    ensures WellFormed(Replay(origin, allowed, commits).value)
    ensures SameButServers(origin, Replay(origin, allowed, commits).value)
    decreases |commits|
  {
    if commits != [] {
      var c := commits[|commits| - 1];
      var front := commits[..|commits| - 1];
      var mid := Replay(origin, allowed, front).value;
      ReplayFrame(origin, allowed, front);
      CommittedFrame(mid, allowed, BatchOf(c), c.approval);
      SameTransitive(origin, mid, Replay(origin, allowed, commits).value);
    }
  }

  /** Applying a plan again right after it committed never commits, whatever the approval:
      its rows are no longer on the source. */
  lemma SecondApplyFails(db: Dokploy, allowed: set<string>, plan: MigrationPlan, approval: string, again: string)
    requires WellFormed(db) && UniquePlanIDs(db, plan.rows) && Committed(db, allowed, plan, approval).Some?
    ensures Committed(Committed(db, allowed, plan, approval).value, allowed, plan, again).None?
  {
    var after := Committed(db, allowed, plan, approval).value;
    CommittedFrame(db, allowed, plan, approval);
    forall row <- plan.rows ensures UniqueID(after, MoveOf(row)) {
      UniqueIDKept(db, after, row);
    }
    CommitsExactly(after, allowed, plan, again);
    FirstRowIsGone(db, allowed, plan, approval, after);
    assert Moves(plan.rows)[0] == MoveOf(plan.rows[0]) && Moves(plan.rows)[0] in Moves(plan.rows);
  }

  lemma FirstRowIsGone(
    db: Dokploy, allowed: set<string>, plan: MigrationPlan, approval: string, after: Dokploy)
    requires WellFormed(db) && UniquePlanIDs(db, plan.rows)
    requires plan.rows != [] && Committed(db, allowed, plan, approval) == Some(after)
    ensures !Placed(after, MoveOf(plan.rows[0]))
  {
    var row, m := plan.rows[0], MoveOf(plan.rows[0]);
    assert row in plan.rows;
    CommittedFrame(db, allowed, plan, approval);
    MoveAvoidsServerColumn(row);
    SameCarries(db, after, m);
    SlotInjective(plan.sourceServerID, plan.targetServerID);
    forall i | 0 <= i < |RowsOf(after, m.table)| ensures !Guard(m, RowsOf(after, m.table)[i]) {
      CommitEffect(db, allowed, plan, approval, m.table, i);
    }
  }

  // -------------------------------------------------------------- chains

  /** Where row `i` of table `t` is after the first `n` commits. */
  function ServerAfter(origin: Dokploy, allowed: set<string>, commits: seq<Commit>, n: nat, t: string, i: nat)
    : Option<string>
    requires n <= |commits|
  {
    match Replay(origin, allowed, commits[..n])
    case None => None
    case Some(db) => if i < |RowsOf(db, t)| then Cell(RowsOf(db, t)[i], SERVER_COLUMN) else None
  }

  /** The commit's batch names row `i` of table `t`. */
  predicate Touches(origin: Dokploy, c: Commit, t: string, i: nat) {
    i < |RowsOf(origin, t)| && Names(BatchOf(c).rows, t, RowsOf(origin, t)[i])
  }

  lemma SameNames(db: Dokploy, after: Dokploy, rows: seq<PlanRow>, t: string, i: nat)
    requires SameButServers(db, after) && forall row <- rows :: AllowedRow(row)
    requires t in db.tables && i < |db.tables[t].rows|
    ensures i < |RowsOf(after, t)|
    ensures Names(rows, t, RowsOf(after, t)[i]) <==> Names(rows, t, RowsOf(db, t)[i])
  {
    forall row <- rows | row.table == t
      ensures Carries(MoveOf(row), RowsOf(after, t)[i]) <==> Carries(MoveOf(row), RowsOf(db, t)[i])
    {
      MoveAvoidsServerColumn(row);
      SameCarries(db, after, MoveOf(row));
    }
  }

  lemma OneCommitLinks(
    origin: Dokploy, mid: Dokploy, allowed: set<string>, plan: MigrationPlan, approval: string, t: string, i: nat)
    requires WellFormed(origin) && IDsUnique(origin) && WellFormed(mid) && SameButServers(origin, mid)
    requires Committed(mid, allowed, plan, approval).Some?
    requires t in origin.tables && i < |origin.tables[t].rows|
    ensures var after := Committed(mid, allowed, plan, approval).value;
      && i < |RowsOf(mid, t)| == |RowsOf(after, t)|
      && (if Names(plan.rows, t, RowsOf(origin, t)[i]) then
            && Cell(RowsOf(mid, t)[i], SERVER_COLUMN) == Slot(plan.sourceServerID)
            && Cell(RowsOf(after, t)[i], SERVER_COLUMN) == Slot(plan.targetServerID)
          else
            Cell(RowsOf(after, t)[i], SERVER_COLUMN) == Cell(RowsOf(mid, t)[i], SERVER_COLUMN))
  {
    CommittedFrame(mid, allowed, plan, approval);
    IDsKept(origin, mid);
    SameNames(origin, mid, plan.rows, t, i);
    CommitEffect(mid, allowed, plan, approval, t, i);
  }

  /** A run's commits replay on a database with unique ids, in which row `i` of table
      `t` is followed. */
  ghost predicate Tracked(origin: Dokploy, allowed: set<string>, commits: seq<Commit>, t: string, i: nat) {
    && WellFormed(origin) && IDsUnique(origin)
    && Replay(origin, allowed, commits).Some?
    && t in origin.tables && i < |origin.tables[t].rows|
  }

  /** Each commit finds the rows it names on the server its batch moves them from and
      leaves them on the server it moves them to; all other rows stay where they are. */
  lemma CommitLinks(origin: Dokploy, allowed: set<string>, commits: seq<Commit>, n: nat, t: string, i: nat)
    requires Tracked(origin, allowed, commits, t, i) && n < |commits|
    ensures if Touches(origin, commits[n], t, i) then
        && ServerAfter(origin, allowed, commits, n, t, i) == Slot(BatchOf(commits[n]).sourceServerID)
        && ServerAfter(origin, allowed, commits, n + 1, t, i) == Slot(BatchOf(commits[n]).targetServerID)
      else
        ServerAfter(origin, allowed, commits, n + 1, t, i) == ServerAfter(origin, allowed, commits, n, t, i)
  {
    var mid := CommittedAt(origin, allowed, commits, n);
    ReplayFrame(origin, allowed, commits[..n]);
    OneCommitLinks(origin, mid, allowed, BatchOf(commits[n]), commits[n].approval, t, i);
  }

  /** A resource's whereabouts over a run: `at[n]` before step n, which moves it `from`
      one place `to` another if it touches it, and leaves it where it is otherwise. */
  predicate Path(at: seq<Option<string>>, touched: seq<bool>, from: seq<Option<string>>, to: seq<Option<string>>) {
    && |touched| == |from| == |to| == |at| - 1
    && forall n {:trigger touched[n]} | 0 <= n < |touched| ::
      if touched[n] then at[n] == from[n] && at[n + 1] == to[n] else at[n + 1] == at[n]
  }

  lemma {:induction false} UntouchedStays(
    at: seq<Option<string>>, touched: seq<bool>, from: seq<Option<string>>, to: seq<Option<string>>, m: nat, n: nat)
    requires Path(at, touched, from, to) && m <= n < |at|
    requires forall k | m <= k < n :: !touched[k]
    ensures at[n] == at[m]
    decreases n
  {
    if m < n {
      UntouchedStays(at, touched, from, to, m, n - 1);
      assert !touched[n - 1];
    }
  }

  /** What is not in a place before step `m` and in it before step `n` was moved there
      in between. */
  lemma {:induction false} MovedInBetween(
    at: seq<Option<string>>, touched: seq<bool>, from: seq<Option<string>>, to: seq<Option<string>>, m: nat, n: nat)
    returns (k: nat)
    requires Path(at, touched, from, to) && m <= n < |at| && at[m] != at[n]
    ensures m <= k < n && touched[k] && to[k] == at[n]
    decreases n
  {
    k := n - 1;
    assert at[n] == at[k + 1];
    if !touched[k] {
      k := MovedInBetween(at, touched, from, to, m, k);
    }
  }

  function Touched(origin: Dokploy, commits: seq<Commit>, t: string, i: nat): seq<bool> {
    seq(|commits|, n requires 0 <= n < |commits| => Touches(origin, commits[n], t, i))
  }

  function Sources(commits: seq<Commit>): seq<Option<string>> {
    seq(|commits|, n requires 0 <= n < |commits| => Slot(BatchOf(commits[n]).sourceServerID))
  }

  function Targets(commits: seq<Commit>): seq<Option<string>> {
    seq(|commits|, n requires 0 <= n < |commits| => Slot(BatchOf(commits[n]).targetServerID))
  }

  function Whereabouts(origin: Dokploy, allowed: set<string>, commits: seq<Commit>, t: string, i: nat): seq<Option<string>> {
    seq(|commits| + 1, n requires 0 <= n <= |commits| => ServerAfter(origin, allowed, commits, n, t, i))
  }

  lemma StartsAtOrigin(origin: Dokploy, allowed: set<string>, commits: seq<Commit>, t: string, i: nat)
    requires i < |RowsOf(origin, t)|
    ensures Whereabouts(origin, allowed, commits, t, i)[0] == Cell(RowsOf(origin, t)[i], SERVER_COLUMN)
  {
    assert commits[..0] == [];
    assert Replay(origin, allowed, commits[..0]) == Some(origin);
  }

  /** Every resource follows a path through the commits. */
  lemma ResourceFollowsPath(origin: Dokploy, allowed: set<string>, commits: seq<Commit>, t: string, i: nat)
    requires Tracked(origin, allowed, commits, t, i)
    ensures Path(Whereabouts(origin, allowed, commits, t, i),
                 Touched(origin, commits, t, i), Sources(commits), Targets(commits))
  {
    var at := Whereabouts(origin, allowed, commits, t, i);
    var touched, from, to := Touched(origin, commits, t, i), Sources(commits), Targets(commits);
    forall n {:trigger touched[n]} | 0 <= n < |touched|
      ensures if touched[n] then at[n] == from[n] && at[n + 1] == to[n] else at[n + 1] == at[n]
    {
      CommitLinks(origin, allowed, commits, n, t, i);
    }
  }

  lemma SlotTells(a: string, b: string)
    requires Slot(a) == Slot(b)
    ensures a == b
  {
    if a != b {
      SlotInjective(a, b);
    }
  }

  lemma RunIsTracked(dok: Dokploy, allowed: set<string>, actions: seq<Action>, t: string, i: nat)
    requires WellFormed(dok) && IDsUnique(dok) && t in dok.tables && i < |dok.tables[t].rows|
    ensures Tracked(dok, allowed, Exec(Init(dok, allowed), actions).commits, t, i)
  {
    RunsReplay(dok, allowed, actions);
  }

  lemma PathLinks(
    dok: Dokploy, commits: seq<Commit>, m: int, n: nat, t: string, i: nat, at: seq<Option<string>>)
    requires Path(at, Touched(dok, commits, t, i), Sources(commits), Targets(commits))
    requires -1 <= m < n < |commits|
    requires Touches(dok, commits[n], t, i) && (m >= 0 ==> Touches(dok, commits[m], t, i))
    requires forall k | m < k < n :: !Touches(dok, commits[k], t, i)
    ensures if m >= 0 then BatchOf(commits[n]).sourceServerID == BatchOf(commits[m]).targetServerID
            else Slot(BatchOf(commits[n]).sourceServerID) == at[0]
  {
    var touched := Touched(dok, commits, t, i);
    UntouchedStays(at, touched, Sources(commits), Targets(commits), m + 1, n);
    assert touched[n];
    if m >= 0 {
      assert touched[m];
      SlotTells(BatchOf(commits[n]).sourceServerID, BatchOf(commits[m]).targetServerID);
    }
  }

  /** The commits that move one resource form a chain: each moves it from where the one
      before left it, and the first from where it was at the start. */
  lemma MovesFormChain(
    dok: Dokploy, allowed: set<string>, actions: seq<Action>, commits: seq<Commit>, m: int, n: nat, t: string, i: nat)
    requires WellFormed(dok) && IDsUnique(dok) && t in dok.tables && i < |dok.tables[t].rows|
    requires commits == Exec(Init(dok, allowed), actions).commits && -1 <= m < n < |commits|
    requires Touches(dok, commits[n], t, i) && (m >= 0 ==> Touches(dok, commits[m], t, i))
    requires forall k | m < k < n :: !Touches(dok, commits[k], t, i)
    ensures if m >= 0 then BatchOf(commits[n]).sourceServerID == BatchOf(commits[m]).targetServerID
            else Slot(BatchOf(commits[n]).sourceServerID) == Cell(dok.tables[t].rows[i], SERVER_COLUMN)
  {
    RunIsTracked(dok, allowed, actions, t, i);
    ResourceFollowsPath(dok, allowed, commits, t, i);
    StartsAtOrigin(dok, allowed, commits, t, i);
    PathLinks(dok, commits, m, n, t, i, Whereabouts(dok, allowed, commits, t, i));
  }

  /** Two committed applies share a plan row only if some commit strictly between them
      moved that row's resource back to the row's old server. */
  lemma SharedRowWasMovedBack(
    dok: Dokploy, allowed: set<string>, actions: seq<Action>, commits: seq<Commit>, m: nat, n: nat, row: PlanRow)
    returns (i: nat, k: nat)
    requires WellFormed(dok) && IDsUnique(dok)
    requires commits == Exec(Init(dok, allowed), actions).commits && m < n < |commits|
    requires commits[m].kind.Apply? && row in commits[m].plan.rows
    requires commits[n].kind.Apply? && row in commits[n].plan.rows
    ensures m < k < n
    ensures i < |RowsOf(dok, row.table)| && Carries(MoveOf(row), RowsOf(dok, row.table)[i])
    ensures Touches(dok, commits[k], row.table, i)
    ensures BatchOf(commits[k]).targetServerID == row.oldServerID
  {
    RunsReplay(dok, allowed, actions);
    i := NamedRow(dok, allowed, commits, m, row);
    RowDirection(dok, allowed, commits, m, row);
    RowDirection(dok, allowed, commits, n, row);
    RunIsTracked(dok, allowed, actions, row.table, i);
    ResourceFollowsPath(dok, allowed, commits, row.table, i);
    k := SharedRowOnPath(dok, commits, m, n, row, i, Whereabouts(dok, allowed, commits, row.table, i));
  }

  lemma SharedRowOnPath(
    dok: Dokploy, commits: seq<Commit>, m: nat, n: nat, row: PlanRow, i: nat, at: seq<Option<string>>)
    returns (k: nat)
    requires Path(at, Touched(dok, commits, row.table, i), Sources(commits), Targets(commits))
    requires m < n < |commits| && row in BatchOf(commits[m]).rows && row in BatchOf(commits[n]).rows
    requires i < |RowsOf(dok, row.table)| && Carries(MoveOf(row), RowsOf(dok, row.table)[i])
    requires row.newServerID == BatchOf(commits[m]).targetServerID
    requires row.oldServerID == BatchOf(commits[n]).sourceServerID
    requires row.oldServerID != row.newServerID
    ensures m < k < n && Touches(dok, commits[k], row.table, i)
    ensures BatchOf(commits[k]).targetServerID == row.oldServerID
  {
    var touched := Touched(dok, commits, row.table, i);
    assert touched[m];
    assert touched[n];
    assert at[m + 1] == Targets(commits)[m] && at[n] == Sources(commits)[n];
    SlotInjective(row.oldServerID, row.newServerID);
    k := MovedInBetween(at, touched, Sources(commits), Targets(commits), m + 1, n);
    SlotTells(BatchOf(commits[k]).targetServerID, row.oldServerID);
  }

  /** A row of a committed batch goes the batch's way. */
  lemma RowDirection(origin: Dokploy, allowed: set<string>, commits: seq<Commit>, n: nat, row: PlanRow)
    requires Replay(origin, allowed, commits).Some? && n < |commits| && row in BatchOf(commits[n]).rows
    ensures row.oldServerID == BatchOf(commits[n]).sourceServerID
    ensures row.newServerID == BatchOf(commits[n]).targetServerID
    ensures row.oldServerID != row.newServerID
  {
    var mid := CommittedAt(origin, allowed, commits, n);
    BatchDirection(mid, allowed, BatchOf(commits[n]), commits[n].approval, row);
  }

  /** The database that commit `n` of a replay started from. */
  lemma CommittedAt(origin: Dokploy, allowed: set<string>, commits: seq<Commit>, n: nat) returns (mid: Dokploy)
    requires Replay(origin, allowed, commits).Some? && n < |commits|
    ensures Replay(origin, allowed, commits[..n]) == Some(mid)
    ensures Committed(mid, allowed, BatchOf(commits[n]), commits[n].approval).Some?
    ensures Replay(origin, allowed, commits[..n + 1]) == Committed(mid, allowed, BatchOf(commits[n]), commits[n].approval)
  {
    ReplayPrefix(origin, allowed, commits, n);
    ReplayPrefix(origin, allowed, commits, n + 1);
    mid := Replay(origin, allowed, commits[..n]).value;
    assert commits[..n + 1][..n] == commits[..n];
  }

  lemma BatchDirection(db: Dokploy, allowed: set<string>, plan: MigrationPlan, approval: string, row: PlanRow)
    requires Committed(db, allowed, plan, approval).Some? && row in plan.rows
    ensures row.oldServerID == plan.sourceServerID && row.newServerID == plan.targetServerID
    ensures row.oldServerID != row.newServerID
  {
  }

  /** A committed batch finds the row it names. */
  lemma NamedRow(origin: Dokploy, allowed: set<string>, commits: seq<Commit>, n: nat, row: PlanRow) returns (i: nat)
    requires WellFormed(origin) && IDsUnique(origin) && Replay(origin, allowed, commits).Some?
    requires n < |commits| && row in BatchOf(commits[n]).rows
    ensures row.table in origin.tables
    ensures i < |RowsOf(origin, row.table)| && Carries(MoveOf(row), RowsOf(origin, row.table)[i])
  {
    var mid := CommittedAt(origin, allowed, commits, n);
    ReplayFrame(origin, allowed, commits[..n]);
    i := NamedRowInBatch(origin, mid, allowed, BatchOf(commits[n]), commits[n].approval, row);
  }

  lemma NamedRowInBatch(
    origin: Dokploy, mid: Dokploy, allowed: set<string>, plan: MigrationPlan, approval: string, row: PlanRow)
    returns (i: nat)
    requires WellFormed(origin) && IDsUnique(origin) && WellFormed(mid) && SameButServers(origin, mid)
    requires Committed(mid, allowed, plan, approval).Some? && row in plan.rows
    ensures row.table in origin.tables
    ensures i < |RowsOf(origin, row.table)| && Carries(MoveOf(row), RowsOf(origin, row.table)[i])
  {
    CommittedFrame(mid, allowed, plan, approval);
    IDsKept(origin, mid);
    i := CommittedRowIsPlaced(mid, allowed, plan, approval, row);
    MoveAvoidsServerColumn(row);
    SameCarries(origin, mid, MoveOf(row));
  }

  lemma CommittedRowIsPlaced(
    mid: Dokploy, allowed: set<string>, plan: MigrationPlan, approval: string, row: PlanRow)
    returns (i: nat)
    requires UniquePlanIDs(mid, plan.rows) && Committed(mid, allowed, plan, approval).Some? && row in plan.rows
    ensures row.table in mid.tables
    ensures i < |RowsOf(mid, row.table)| && Carries(MoveOf(row), RowsOf(mid, row.table)[i])
  {
    CommitsExactly(mid, allowed, plan, approval);
    i := PlacedRow(mid, plan.rows, row);
  }

  lemma PlacedRow(mid: Dokploy, rows: seq<PlanRow>, row: PlanRow) returns (i: nat)
    requires Ready(mid, Moves(rows)) && row in rows
    ensures row.table in mid.tables
    ensures i < |RowsOf(mid, row.table)| && Carries(MoveOf(row), RowsOf(mid, row.table)[i])
  {
    var j :| 0 <= j < |rows| && rows[j] == row;
    assert Moves(rows)[j] == MoveOf(row) && Moves(rows)[j] in Moves(rows);
    assert Placed(mid, MoveOf(row));
    i :| 0 <= i < |RowsOf(mid, row.table)| && Guard(MoveOf(row), RowsOf(mid, row.table)[i]);
  }
}
