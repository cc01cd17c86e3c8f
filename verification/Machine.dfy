/** The job manager as a machine of durable steps: internal/jobs/jobs.go over
    internal/state/store.go. Plan, Apply and Rollback each issue one statement at a
    time; any number of them interleave, each can stop for good between two
    statements, and the history's delete handler runs in between. */
module Machine {
  import opened Wrappers
  import opened Text
  import opened Model
  import opened Tables
  import opened Retarget
  import opened PlanSubset
  import opened Store
  import opened History
  import opened Listing

  const APPLY_CONFIRMATION := "APPLY"

  datatype Kind = Apply | Rollback

  datatype PlanStep =
    | Create
    | LogCreated
    | LogHealth
    | ReadDokploy
    | MarkReady(plan: MigrationPlan)
    | LogReady(plan: MigrationPlan)
    | MarkPlanFailed
    | LogPlanFailed

  datatype WriteStep =
    | CheckJob
    | CheckDryRun
    | MarkRunning
    | LogIntent
    | Transact
    | WriteReport
    | LogDone
    | MarkDone
    | MarkFailed
    | LogFailed

  /** A running operation and the step it takes next. `audit` is the id of the event
      that announced the write, once there is one. */
  datatype Op =
    | Planning(jobID: string, source: string, target: string, mode: string, health: Option<bool>, planStep: PlanStep)
    | Writing(kind: Kind, jobID: string, plan: MigrationPlan, approval: string, audit: nat, step: WriteStep)

  datatype Commit = Commit(kind: Kind, jobID: string, plan: MigrationPlan, approval: string, audit: nat)

  datatype DryRun = DryRun(eventID: nat, plan: MigrationPlan)

  /** The store, the Dokploy database and the running operations; and, for the record,
      the database at the start, the commits so far, the servers each job id was
      created for, the dry-runs ever stored, the plans ever accepted, and the jobs on
      which two writes ever ran at once. */
  datatype World = World(
    store: Snapshot,
    dok: Dokploy,
    allowed: set<string>,
    ops: map<nat, Op>,
    origin: Dokploy,
    commits: seq<Commit>,
    requests: map<string, (string, string)>,
    dryRuns: map<string, DryRun>,
    accepted: set<(string, MigrationPlan)>,
    overlapped: set<string>)

  datatype Action =
    | BeginPlan(op: nat, jobID: string, rawSource: string, rawTarget: string, mode: string, health: Option<bool>)
    | BeginWrite(op: nat, kind: Kind, jobID: string, plan: MigrationPlan, approval: string, confirmation: string)
    | Advance(op: nat, io: bool, now: string, planID: string)
    | Crash(op: nat)
    | Delete(id: string)

  function Init(dok: Dokploy, allowed: set<string>): World {
    World(Snapshot(map[], map[], 0, map[]), dok, allowed, map[], dok, [], map[], map[], {}, {})
  }

  // -------------------------------------------------------------- store statements

  datatype Effect =
    | Nothing
    | Insert(job: Job)
    | Status(id: string, status: JobStatus, checkpoint: string)
    | Log(jobID: string, message: Message)
    | SaveReport(jobID: string, report: Report)

  function Run(s: Snapshot, effect: Effect, now: string): Result<Snapshot, StoreError> {
    match effect
    case Nothing => Success(s)
    case Insert(job) => InsertJob(s, job, now)
    case Status(id, status, checkpoint) => SetStatus(s, id, status, checkpoint, now)
    case Log(jobID, message) => LogEvent(s, jobID, message, now)
    case SaveReport(jobID, report) => PutReport(s, jobID, report)
  }

  /** The event that announces a write. */
  function Intent(kind: Kind, rows: nat): Message {
    match kind
    case Apply => Applying(rows)
    case Rollback => RollingBack(rows)
  }

  function WriteCheckpoint(kind: Kind): string {
    match kind
    case Apply => "apply-retarget"
    case Rollback => "rollback-retarget"
  }

  function DoneStatus(kind: Kind): JobStatus {
    if kind.Apply? then JobSucceeded else JobRolledBack
  }

  function DoneCheckpoint(kind: Kind): string {
    if kind.Apply? then "metadata-retarget-complete" else "metadata-rollback-complete"
  }

  function FailureMessage(kind: Kind): Message {
    if kind.Apply? then RetargetFailed else RollbackFailed
  }

  /** The event that ends a write. */
  function DoneMessage(kind: Kind, rows: nat): Message {
    if kind.Apply? then ReportSaved else RollbackApplied(rows)
  }

  /** The statement an operation issues next; the steps that only read issue none. */
  function EffectOf(op: Op): Effect {
    match op
    case Planning(jobID, source, target, mode, health, step) => (
      match step
      case Create => Insert(Job(jobID, source, target, mode, JobPending, "", "", ""))
      case LogCreated => Log(jobID, JobCreated(mode))
      case LogHealth => if health.None? then Nothing else Log(jobID, HealthChecked(health.value))
      case ReadDokploy => Nothing
      case MarkReady(_) => Status(jobID, JobPaused, "dry-run-ready")
      case LogReady(plan) => Log(jobID, DryRunReady(plan))
      case MarkPlanFailed => Status(jobID, JobFailed, "plan")
      case LogPlanFailed => Log(jobID, PlanFailed)
    )
    case Writing(kind, jobID, plan, _, _, step) => (
      match step
      case CheckJob => Nothing
      case CheckDryRun => Nothing
      case MarkRunning => Status(jobID, JobRunning, WriteCheckpoint(kind))
      case LogIntent => Log(jobID, Intent(kind, |plan.rows|))
      case Transact => Nothing
      case WriteReport => SaveReport(jobID, Report(jobID, plan))
      case LogDone => Log(jobID, DoneMessage(kind, |plan.rows|))
      case MarkDone => Status(jobID, DoneStatus(kind), DoneCheckpoint(kind))
      case MarkFailed => Status(jobID, JobFailed, WriteCheckpoint(kind))
      case LogFailed => Log(jobID, FailureMessage(kind))
    )
  }

  /** Where an operation goes when its statement succeeded, `eventID` being the last
      event id given out; None when it is over. */
  function OnSuccess(op: Op, eventID: nat): Option<Op> {
    match op
    case Planning(_, _, _, _, _, step) => (
      match step
      case Create => Some(op.(planStep := LogCreated))
      case LogCreated => Some(op.(planStep := LogHealth))
      case LogHealth => Some(op.(planStep := ReadDokploy))
      case MarkReady(plan) => Some(op.(planStep := LogReady(plan)))
      case MarkPlanFailed => Some(op.(planStep := LogPlanFailed))
      case _ => None
    )
    case Writing(kind, _, _, _, _, step) => (
      match step
      case MarkRunning => Some(op.(step := LogIntent))
      case LogIntent => Some(op.(step := Transact, audit := eventID))
      case WriteReport => Some(op.(step := LogDone))
      case LogDone => Some(op.(step := MarkDone))
      case MarkFailed => Some(op.(step := LogFailed))
      case _ => None
    )
  }

  /** An error ends the operation, except where the manager ignores it. */
  function OnFailure(op: Op): Option<Op> {
    match op
    case Planning(_, _, _, _, _, step) => (
      match step
      case LogHealth => Some(op.(planStep := ReadDokploy))
      case MarkPlanFailed => Some(op.(planStep := LogPlanFailed))
      case _ => None
    )
    case Writing(_, _, _, _, _, step) =>
      if step.MarkFailed? then Some(op.(step := LogFailed)) else None
  }

  function Put(ops: map<nat, Op>, k: nat, next: Option<Op>): map<nat, Op> {
    if next.Some? then ops[k := next.value] else ops - {k}
  }

  // -------------------------------------------------------------- steps

  function StoreStep(w: World, k: nat, io: bool, now: string): World
    requires k in w.ops
  {
    var op := w.ops[k];
    var result := if io then Run(w.store, EffectOf(op), now) else Failure(StoreError.StorageFailed);
    if result.Failure? then w.(ops := Put(w.ops, k, OnFailure(op)))
    else
      w.(
        store := result.value,
        ops := Put(w.ops, k, OnSuccess(op, result.value.lastEventID)),
        requests :=
          if op.Planning? && op.planStep.Create? then w.requests[op.jobID := (op.source, op.target)] else w.requests,
        dryRuns :=
          if op.Planning? && op.planStep.LogReady?
          then w.dryRuns[op.jobID := DryRun(result.value.lastEventID, op.planStep.plan)]
          else w.dryRuns)
  }

  predicate JobMatches(s: Snapshot, jobID: string, plan: MigrationPlan) {
    && jobID in s.jobs
    && s.jobs[jobID].sourceServerID == plan.sourceServerID
    && s.jobs[jobID].targetServerID == plan.targetServerID
  }

  /** The first stored dry-run with the plan's id decides. */
  predicate StoredDryRunAccepts(events: seq<Event>, plan: MigrationPlan) {
    if events == [] then false
    else if events[0].message.DryRunReady? && events[0].message.plan.id == plan.id
    then IsSubset(events[0].message.plan, plan)
    else StoredDryRunAccepts(events[1..], plan)
  }

  /** The fields that must not be blank. */
  predicate Addressed(jobID: string, plan: MigrationPlan) {
    !Blank(jobID) && !Blank(plan.id) && !Blank(plan.schemaHash)
  }

  /** The manager's check of a submitted plan, on an unchanging store. */
  predicate AcceptsPlan(s: Snapshot, jobID: string, plan: MigrationPlan) {
    Addressed(jobID, plan) && JobMatches(s, jobID, plan) && StoredDryRunAccepts(EventsOf(s, jobID), plan)
  }

  /** The plan whose rows a write moves. */
  function Effective(kind: Kind, plan: MigrationPlan): MigrationPlan {
    match kind
    case Apply => plan
    case Rollback => ReversePlan(plan)
  }

  /** One step of operation `k`. The last three arguments are what its reads and its
      transaction find: the built plan, the verdict on the stored dry-run, and the
      database after the transaction. */
  function StepWith(
    w: World, k: nat, io: bool, now: string, built: Option<MigrationPlan>, valid: bool, tx: Option<Dokploy>): World
    requires k in w.ops
  {
    var op := w.ops[k];
    if op.Planning? && op.planStep.ReadDokploy? then
      var next := if io && built.Some? then MarkReady(built.value) else MarkPlanFailed;
      w.(ops := w.ops[k := op.(planStep := next)])
    else if op.Writing? && op.step.CheckJob? then
      w.(ops := Put(w.ops, k, if io && JobMatches(w.store, op.jobID, op.plan) then Some(op.(step := CheckDryRun)) else None))
    else if op.Writing? && op.step.CheckDryRun? then
      if io && valid
      then w.(ops := w.ops[k := op.(step := MarkRunning)], accepted := w.accepted + {(op.jobID, op.plan)})
      else w.(ops := w.ops - {k})
    else if op.Writing? && op.step.Transact? then
      if io && tx.Some?
      then
        w.(
          dok := tx.value,
          commits := w.commits + [Commit(op.kind, op.jobID, op.plan, op.approval, op.audit)],
          ops := w.ops[k := op.(step := if op.kind.Apply? then WriteReport else LogDone)])
      else w.(ops := w.ops[k := op.(step := MarkFailed)])
    else
      StoreStep(w, k, io, now)
  }

  function Built(w: World, op: Op, planID: string, now: string): Option<MigrationPlan> {
    if op.Writing? then None
    else
      match BuildRetargetPlan(w.dok, w.allowed, op.source, op.target, planID, now)
      case Success(plan) => Some(plan)
      case Failure(_) => None
  }

  function Transaction(w: World, op: Op): Option<Dokploy> {
    if op.Planning? then None
    else
      match ApplyPlan(w.dok, w.allowed, Effective(op.kind, op.plan), op.approval)
      case Success(db) => Some(db)
      case Failure(_) => None
  }

  function Step(w: World, k: nat, io: bool, now: string, planID: string): World
    requires k in w.ops
  {
    var op := w.ops[k];
    StepWith(w, k, io, now,
      Built(w, op, planID, now),
      op.Writing? && StoredDryRunAccepts(EventsOf(w.store, op.jobID), op.plan),
      Transaction(w, op))
  }

  /** A write is begun only with its confirmation and without blank names. */
  predicate Startable(kind: Kind, jobID: string, plan: MigrationPlan, confirmation: string) {
    (kind.Apply? ==> confirmation == APPLY_CONFIRMATION) && Addressed(jobID, plan)
  }

  predicate Busy(w: World, jobID: string) {
    exists k <- w.ops :: w.ops[k].Writing? && w.ops[k].jobID == jobID
  }

  function StartPlan(w: World, k: nat, jobID: string, source: string, target: string, mode: string, health: Option<bool>)
    : World
  {
    w.(ops := w.ops[k := Planning(jobID, source, target, mode, health, Create)])
  }

  function StartWrite(w: World, k: nat, kind: Kind, jobID: string, plan: MigrationPlan, approval: string): World {
    w.(
      ops := w.ops[k := Writing(kind, jobID, plan, approval, 0, CheckJob)],
      overlapped := if Busy(w, jobID) then w.overlapped + {jobID} else w.overlapped)
  }

  /** The id is that of a job that was there and is deleted. A job id comes from the
      clock's nanoseconds: two plans may draw the same one, and then the second fails to
      create its job, but the clock does not come back to the id of a deleted job. */
  predicate Retired(w: World, jobID: string) {
    jobID in w.requests && jobID !in w.store.jobs
  }

  /** The operation is not about to create a job under a retired id. */
  predicate Possible(w: World, op: Op) {
    op.Planning? && op.planStep.Create? ==> !Retired(w, op.jobID)
  }

  /** The world after an action; an action that is not possible changes nothing. */
  function Next(w: World, action: Action): World {
    match action
    case BeginPlan(k, jobID, rawSource, rawTarget, mode, health) =>
      if k in w.ops || Retired(w, jobID) then w
      else StartPlan(w, k, jobID, TrimSpace(rawSource), TrimSpace(rawTarget), mode, health)
    case BeginWrite(k, kind, jobID, plan, approval, confirmation) =>
      if k in w.ops || !Startable(kind, jobID, plan, confirmation) then w
      else StartWrite(w, k, kind, jobID, plan, approval)
    case Advance(k, io, now, planID) =>
      if k in w.ops && Possible(w, w.ops[k]) then Step(w, k, io, now, planID) else w
    case Crash(k) => w.(ops := w.ops - {k})
    case Delete(id) =>
      if Keyed(w.store.jobs) && Deletable(w.store.jobs, id) then w.(store := RemoveJob(w.store, id).value) else w
  }

  function Exec(w: World, actions: seq<Action>): World
    decreases |actions|
  {
    if actions == [] then w else Next(Exec(w, actions[..|actions| - 1]), actions[|actions| - 1])
  }

  lemma {:induction false} ExecAppend(w: World, a: seq<Action>, b: seq<Action>)
    ensures Exec(w, a + b) == Exec(Exec(w, a), b)
    decreases |b|
  {
    if b == [] {
      assert a + b == a;
    } else {
      assert (a + b)[..|a + b| - 1] == a + b[..|b| - 1];
      ExecAppend(w, a, b[..|b| - 1]);
    }
  }
}
