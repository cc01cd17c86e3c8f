/** One operation of the job manager from its begin to its end: what it leaves in the
    store, written out, and that the machine's steps leave just that.
    internal/jobs/jobs.go. */
module Traces {
  import opened Wrappers
  import opened Text
  import opened Model
  import opened Tables
  import opened Retarget
  import opened Store
  import opened Listing
  import opened Machine
  import opened Safety

  // -------------------------------------------------------------- what an operation leaves

  /** What the surroundings do to one operation: whether its n-th call to the store or to
      Dokploy gets through, and what the clock says then. */
  datatype Surroundings = Surroundings(through: nat -> bool, clock: nat -> string)

  predicate ChecksGetThrough(env: Surroundings) {
    env.through(0) && env.through(1)
  }

  /** The calls up to the transaction. */
  predicate WriteIsAnnounced(env: Surroundings) {
    ChecksGetThrough(env) && env.through(2) && env.through(3)
  }

  /** The calls that a rollback makes after its checks, and an apply but for its last. */
  predicate WriteGetsThrough(env: Surroundings) {
    env.through(2) && env.through(3) && env.through(4) && env.through(5) && env.through(6)
  }

  predicate RollbackGetsThrough(env: Surroundings) {
    env.through(0) && env.through(1) && WriteGetsThrough(env)
  }

  predicate ApplyGetsThrough(env: Surroundings) {
    env.through(0) && env.through(1) && WriteGetsThrough(env) && env.through(7)
  }

  /** The store with one job marked. */
  function Marked(s: Snapshot, id: string, status: JobStatus, checkpoint: string, now: string): Snapshot
    requires id in s.jobs
  {
    s.(jobs := s.jobs[id := s.jobs[id].(status := status, checkpoint := checkpoint, updatedAt := now)])
  }

  /** The store with one more event. */
  function Logged(s: Snapshot, jobID: string, message: Message, now: string): Snapshot {
    var n := s.lastEventID + 1;
    s.(events := s.events[n := Event(n, jobID, message, now)], lastEventID := n)
  }

  /** The store after an apply past its checks, whose transaction commits or not. */
  function ApplyLeaves(s: Snapshot, jobID: string, plan: MigrationPlan, env: Surroundings, commits: bool): Snapshot
    requires jobID in s.jobs
  {
    if !env.through(2) then s
    else
      var running := Marked(s, jobID, JobRunning, "apply-retarget", env.clock(2));
      if !env.through(3) then running
      else
        var announced := Logged(running, jobID, Applying(|plan.rows|), env.clock(3));
        if commits then RecordLeaves(announced, jobID, plan, env)
        else AbandonLeaves(announced, jobID, "apply-retarget", RetargetFailed, env)
  }

  /** After a committed apply: the report, its event and the final status. */
  function RecordLeaves(s: Snapshot, jobID: string, plan: MigrationPlan, env: Surroundings): Snapshot
    requires jobID in s.jobs
  {
    if !env.through(5) then s
    else
      ConcludeLeaves(s.(reports := s.reports[jobID := Report(jobID, plan)]), jobID, JobSucceeded,
        "metadata-retarget-complete", ReportSaved, env, 6)
  }

  /** After a failed transaction; errors are ignored. */
  function AbandonLeaves(s: Snapshot, jobID: string, checkpoint: string, message: Message, env: Surroundings): Snapshot
    requires jobID in s.jobs
  {
    var marked := if env.through(5) then Marked(s, jobID, JobFailed, checkpoint, env.clock(5)) else s;
    if env.through(6) then Logged(marked, jobID, message, env.clock(6)) else marked
  }

  /** The last event and the final status, from the n-th call on. */
  function ConcludeLeaves(
    s: Snapshot, jobID: string, status: JobStatus, checkpoint: string, message: Message, env: Surroundings, n: nat)
    : Snapshot
    requires jobID in s.jobs
  {
    if !env.through(n) then s
    else
      var logged := Logged(s, jobID, message, env.clock(n));
      if env.through(n + 1) then Marked(logged, jobID, status, checkpoint, env.clock(n + 1)) else logged
  }

  /** The store after a rollback past its checks, whose transaction commits or not. */
  function RollbackLeaves(s: Snapshot, jobID: string, plan: MigrationPlan, env: Surroundings, commits: bool): Snapshot
    requires jobID in s.jobs
  {
    if !env.through(2) then s
    else
      var running := Marked(s, jobID, JobRunning, "rollback-retarget", env.clock(2));
      if !env.through(3) then running
      else
        var announced := Logged(running, jobID, RollingBack(|plan.rows|), env.clock(3));
        if commits then RollbackRecordLeaves(announced, jobID, plan, env)
        else AbandonLeaves(announced, jobID, "rollback-retarget", RollbackFailed, env)
  }

  /** After a committed rollback: its event and the final status. */
  function RollbackRecordLeaves(s: Snapshot, jobID: string, plan: MigrationPlan, env: Surroundings): Snapshot
    requires jobID in s.jobs
  {
    ConcludeLeaves(s, jobID, JobRolledBack, "metadata-rollback-complete", RollbackApplied(|plan.rows|), env, 5)
  }

  /** What an apply past its checks leaves, field by field: the job succeeded if the
      transaction commits and every call gets through, failed if the transaction fails and
      that can be stored, and is running otherwise; the log announces the apply and says
      how it ended; and a commit leaves a report. */
  lemma ApplyLeavesExactly(s: Snapshot, jobID: string, plan: MigrationPlan, env: Surroundings, commits: bool)
    requires jobID in s.jobs
    ensures var after, n, job := ApplyLeaves(s, jobID, plan, env, commits), s.lastEventID, s.jobs[jobID];
      var announced := s.events[n + 1 := Event(n + 1, jobID, Applying(|plan.rows|), env.clock(3))];
      && after.jobs ==
        (if !env.through(2) then s.jobs
         else if env.through(3) && commits && env.through(5) && env.through(6) && env.through(7) then
           s.jobs[jobID := job.(
             status := JobSucceeded, checkpoint := "metadata-retarget-complete", updatedAt := env.clock(7))]
         else if env.through(3) && !commits && env.through(5) then
           s.jobs[jobID := job.(status := JobFailed, checkpoint := "apply-retarget", updatedAt := env.clock(5))]
         else
           s.jobs[jobID := job.(status := JobRunning, checkpoint := "apply-retarget", updatedAt := env.clock(2))])
      && (if !(env.through(2) && env.through(3)) then
            after.events == s.events && after.lastEventID == n
          else if !commits && env.through(6) then
            && after.events == announced[n + 2 := Event(n + 2, jobID, RetargetFailed, env.clock(6))]
            && after.lastEventID == n + 2
          else if commits && env.through(5) && env.through(6) then
            && after.events == announced[n + 2 := Event(n + 2, jobID, ReportSaved, env.clock(6))]
            && after.lastEventID == n + 2
          else
            after.events == announced && after.lastEventID == n + 1)
      && after.reports ==
        if env.through(2) && env.through(3) && commits && env.through(5)
        then s.reports[jobID := Report(jobID, plan)] else s.reports
  {
  }

  /** What a rollback past its checks leaves, field by field. */
  lemma RollbackLeavesExactly(s: Snapshot, jobID: string, plan: MigrationPlan, env: Surroundings, commits: bool)
    requires jobID in s.jobs
    ensures var after, n, job := RollbackLeaves(s, jobID, plan, env, commits), s.lastEventID, s.jobs[jobID];
      var announced := s.events[n + 1 := Event(n + 1, jobID, RollingBack(|plan.rows|), env.clock(3))];
      && after.jobs ==
        (if !env.through(2) then s.jobs
         else if env.through(3) && commits && env.through(5) && env.through(6) then
           s.jobs[jobID := job.(
             status := JobRolledBack, checkpoint := "metadata-rollback-complete", updatedAt := env.clock(6))]
         else if env.through(3) && !commits && env.through(5) then
           s.jobs[jobID := job.(status := JobFailed, checkpoint := "rollback-retarget", updatedAt := env.clock(5))]
         else
           s.jobs[jobID := job.(status := JobRunning, checkpoint := "rollback-retarget", updatedAt := env.clock(2))])
      && (if !(env.through(2) && env.through(3)) then
            after.events == s.events && after.lastEventID == n
          else if !commits && env.through(6) then
            && after.events == announced[n + 2 := Event(n + 2, jobID, RollbackFailed, env.clock(6))]
            && after.lastEventID == n + 2
          else if commits && env.through(5) then
            && after.events == announced[n + 2 := Event(n + 2, jobID, RollbackApplied(|plan.rows|), env.clock(5))]
            && after.lastEventID == n + 2
          else
            after.events == announced && after.lastEventID == n + 1)
      && after.reports == s.reports
  {
  }

  /** The store after a request for a plan with a known mode, from the dry-run that was
      built or not. The health event may fail to be stored. */
  function PlanLeaves(
    s: Snapshot, jobID: string, source: string, target: string, mode: string, health: Option<bool>,
    built: Option<MigrationPlan>, env: Surroundings)
    : Snapshot
  {
    if jobID in s.jobs || !env.through(0) then s
    else
      var job := Job(jobID, source, target, mode, JobPending, "", env.clock(0), env.clock(0));
      var created := s.(jobs := s.jobs[jobID := job]);
      if !env.through(1) then created
      else
        StoreBuiltLeaves(CreationLeaves(created, jobID, mode, health, env), jobID, built, env)
  }

  /** The first event of a job, and the outcome of a health check if there was one. */
  function CreationLeaves(s: Snapshot, jobID: string, mode: string, health: Option<bool>, env: Surroundings): Snapshot {
    var begun := Logged(s, jobID, JobCreated(mode), env.clock(1));
    if health.Some? && env.through(2) then Logged(begun, jobID, HealthChecked(health.value), env.clock(2)) else begun
  }

  /** The end of a request for a plan: the job is paused with its dry-run, or failed. */
  function StoreBuiltLeaves(s: Snapshot, jobID: string, built: Option<MigrationPlan>, env: Surroundings): Snapshot
    requires jobID in s.jobs
  {
    match built
    case None =>
      var marked := if env.through(4) then Marked(s, jobID, JobFailed, "plan", env.clock(4)) else s;
      if env.through(5) then Logged(marked, jobID, PlanFailed, env.clock(5)) else marked
    case Some(plan) =>
      if !env.through(4) then s
      else
        var marked := Marked(s, jobID, JobPaused, "dry-run-ready", env.clock(4));
        if env.through(5) then Logged(marked, jobID, DryRunReady(plan), env.clock(5)) else marked
  }

  lemma StoreBuiltLeavesJob(s: Snapshot, jobID: string, built: Option<MigrationPlan>, env: Surroundings)
    requires jobID in s.jobs
    ensures var after := StoreBuiltLeaves(s, jobID, built, env);
      && after.reports == s.reports
      && after.jobs ==
        if !env.through(4) then s.jobs
        else
          s.jobs[jobID := s.jobs[jobID].(
            status := if built.Some? then JobPaused else JobFailed,
            checkpoint := if built.Some? then "dry-run-ready" else "plan",
            updatedAt := env.clock(4))]
  {
  }

  /** What a request for a plan leaves of its job: one for the two servers and the mode,
      paused if a dry-run was built, failed if none was, and pending if its calls stopped
      before that. */
  lemma PlanLeavesJob(
    s: Snapshot, jobID: string, source: string, target: string, mode: string, health: Option<bool>,
    built: Option<MigrationPlan>, env: Surroundings)
    ensures var after := PlanLeaves(s, jobID, source, target, mode, health, built, env);
      var created, marked := jobID !in s.jobs && env.through(0), env.through(1) && env.through(4);
      && after.reports == s.reports
      && after.jobs ==
        if !created then s.jobs
        else
          s.jobs[jobID := Job(jobID, source, target, mode,
            if !marked then JobPending else if built.Some? then JobPaused else JobFailed,
            if !marked then "" else if built.Some? then "dry-run-ready" else "plan",
            env.clock(0), if marked then env.clock(4) else env.clock(0))]
  {
    if jobID !in s.jobs && env.through(0) && env.through(1) {
      var job := Job(jobID, source, target, mode, JobPending, "", env.clock(0), env.clock(0));
      var begun := CreationLeaves(s.(jobs := s.jobs[jobID := job]), jobID, mode, health, env);
      assert begun.jobs == s.jobs[jobID := job] && begun.reports == s.reports;
      StoreBuiltLeavesJob(begun, jobID, built, env);
    }
  }


  lemma StoreBuiltLeavesLog(s: Snapshot, jobID: string, built: Option<MigrationPlan>, env: Surroundings)
    requires jobID in s.jobs
    ensures var after, m := StoreBuiltLeaves(s, jobID, built, env), s.lastEventID;
      if env.through(5) && (built.None? || env.through(4)) then
        var last := if built.Some? then DryRunReady(built.value) else PlanFailed;
        after.events == s.events[m + 1 := Event(m + 1, jobID, last, env.clock(5))] && after.lastEventID == m + 1
      else
        after.events == s.events && after.lastEventID == m
  {
  }

  /** What it leaves in the log: the creation, the health check if there was one, and the
      dry-run or the failure to build one. */
  lemma PlanLeavesLog(
    s: Snapshot, jobID: string, source: string, target: string, mode: string, health: Option<bool>,
    built: Option<MigrationPlan>, env: Surroundings)
    ensures var after, n := PlanLeaves(s, jobID, source, target, mode, health, built, env), s.lastEventID;
      if !(jobID !in s.jobs && env.through(0) && env.through(1)) then
        after.events == s.events && after.lastEventID == n
      else
        var first := s.events[n + 1 := Event(n + 1, jobID, JobCreated(mode), env.clock(1))];
        var checked := health.Some? && env.through(2);
        var second :=
          if checked then first[n + 2 := Event(n + 2, jobID, HealthChecked(health.value), env.clock(2))] else first;
        var m := if checked then n + 2 else n + 1;
        if env.through(5) && (built.None? || env.through(4)) then
          var last := if built.Some? then DryRunReady(built.value) else PlanFailed;
          && after.events == second[m + 1 := Event(m + 1, jobID, last, env.clock(5))]
          && after.lastEventID == m + 1
        else
          after.events == second && after.lastEventID == m
  {
    if jobID !in s.jobs && env.through(0) && env.through(1) {
      var job := Job(jobID, source, target, mode, JobPending, "", env.clock(0), env.clock(0));
      StoreBuiltLeavesLog(
        CreationLeaves(s.(jobs := s.jobs[jobID := job]), jobID, mode, health, env), jobID, built, env);
    }
  }

  // -------------------------------------------------------------- runs of one operation

  lemma ExecStep(w: World, trace: seq<Action>, action: Action)
    ensures Exec(w, trace + [action]) == Next(Exec(w, trace), action)
  {
    assert (trace + [action])[..|trace|] == trace;
  }

  /** A statement that ran as the machine's next step says. */
  lemma StatementRuns(
    w: World, trace: seq<Action>, cur: World, k: nat, op: Op, effect: Effect, io: bool, now: string, ok: bool,
    after: Snapshot)
    returns (trace': seq<Action>, cur': World)
    requires cur == Exec(w, trace) && k in cur.ops && cur.ops[k] == op && IssuesStatement(op) && effect == EffectOf(op)
    requires Possible(cur, op)
    requires ok <==> io && Run(cur.store, effect, now).Success?
    requires after == if ok then Run(cur.store, effect, now).value else cur.store
    ensures cur' == Exec(w, trace') && cur'.store == after && cur'.dok == cur.dok && cur'.allowed == cur.allowed
    ensures cur'.ops == Put(cur.ops, k, if ok then OnSuccess(op, after.lastEventID) else OnFailure(op))
  {
    var action := Advance(k, io, now, "");
    trace', cur' := trace + [action], Next(cur, action);
    ExecStep(w, trace, action);
    StatementStep(cur, k, io, now, Built(cur, op, "", now),
      op.Writing? && StoredDryRunAccepts(EventsOf(cur.store, op.jobID), op.plan), Transaction(cur, op));
  }

  /** `cur` is where a run from `w` leads, with this store and these operations, and
      with the database and the allowlist of `prev`. */
  ghost predicate Leads(w: World, trace: seq<Action>, prev: World, cur: World, store: Snapshot, ops: map<nat, Op>) {
    && cur == Exec(w, trace)
    && cur.store == store && cur.ops == ops && cur.dok == prev.dok && cur.allowed == prev.allowed
  }

  predicate At(cur: World, k: nat, kind: Kind, jobID: string, plan: MigrationPlan, step: WriteStep) {
    && k in cur.ops && cur.ops[k].Writing? && cur.ops[k].kind == kind && cur.ops[k].jobID == jobID
    && cur.ops[k].plan == plan && cur.ops[k].step == step
  }

  function Ended(s: Snapshot, ok: bool, result: Result<Snapshot, StoreError>): Snapshot {
    if ok && result.Success? then result.value else s
  }

  lemma RunningMarked(
    w: World, trace: seq<Action>, cur: World, k: nat, kind: Kind, jobID: string, plan: MigrationPlan,
    io: bool, now: string, ok: bool, after: Snapshot)
    returns (trace': seq<Action>, cur': World)
    requires cur == Exec(w, trace) && At(cur, k, kind, jobID, plan, MarkRunning)
    requires ok <==> io && SetStatus(cur.store, jobID, JobRunning, WriteCheckpoint(kind), now).Success?
    requires after == Ended(cur.store, ok, SetStatus(cur.store, jobID, JobRunning, WriteCheckpoint(kind), now))
    ensures Leads(w, trace', cur, cur', after,
      if ok then cur.ops[k := cur.ops[k].(step := LogIntent)] else cur.ops - {k})
  {
    trace', cur' := StatementRuns(w, trace, cur, k, cur.ops[k], EffectOf(cur.ops[k]), io, now, ok, after);
  }

  lemma IntentLogged(
    w: World, trace: seq<Action>, cur: World, k: nat, kind: Kind, jobID: string, plan: MigrationPlan,
    io: bool, now: string, ok: bool, after: Snapshot)
    returns (trace': seq<Action>, cur': World)
    requires cur == Exec(w, trace) && At(cur, k, kind, jobID, plan, LogIntent)
    requires ok <==> io && LogEvent(cur.store, jobID, Intent(kind, |plan.rows|), now).Success?
    requires after == Ended(cur.store, ok, LogEvent(cur.store, jobID, Intent(kind, |plan.rows|), now))
    ensures Leads(w, trace', cur, cur', after,
      if ok then cur.ops[k := cur.ops[k].(step := Transact, audit := after.lastEventID)] else cur.ops - {k})
  {
    trace', cur' := StatementRuns(w, trace, cur, k, cur.ops[k], EffectOf(cur.ops[k]), io, now, ok, after);
  }

  lemma ReportWritten(
    w: World, trace: seq<Action>, cur: World, k: nat, jobID: string, plan: MigrationPlan,
    io: bool, now: string, ok: bool, after: Snapshot)
    returns (trace': seq<Action>, cur': World)
    requires cur == Exec(w, trace) && At(cur, k, Kind.Apply, jobID, plan, WriteReport)
    requires ok <==> io && PutReport(cur.store, jobID, Report(jobID, plan)).Success?
    requires after == Ended(cur.store, ok, PutReport(cur.store, jobID, Report(jobID, plan)))
    ensures Leads(w, trace', cur, cur', after,
      if ok then cur.ops[k := cur.ops[k].(step := LogDone)] else cur.ops - {k})
  {
    trace', cur' := StatementRuns(w, trace, cur, k, cur.ops[k], EffectOf(cur.ops[k]), io, now, ok, after);
  }

  lemma DoneLogged(
    w: World, trace: seq<Action>, cur: World, k: nat, kind: Kind, jobID: string, plan: MigrationPlan,
    io: bool, now: string, ok: bool, after: Snapshot)
    returns (trace': seq<Action>, cur': World)
    requires cur == Exec(w, trace) && At(cur, k, kind, jobID, plan, LogDone)
    requires ok <==> io && LogEvent(cur.store, jobID, DoneMessage(kind, |plan.rows|), now).Success?
    requires after == Ended(cur.store, ok, LogEvent(cur.store, jobID, DoneMessage(kind, |plan.rows|), now))
    ensures Leads(w, trace', cur, cur', after,
      if ok then cur.ops[k := cur.ops[k].(step := MarkDone)] else cur.ops - {k})
  {
    trace', cur' := StatementRuns(w, trace, cur, k, cur.ops[k], EffectOf(cur.ops[k]), io, now, ok, after);
  }

  lemma DoneMarked(
    w: World, trace: seq<Action>, cur: World, k: nat, kind: Kind, jobID: string, plan: MigrationPlan,
    io: bool, now: string, ok: bool, after: Snapshot)
    returns (trace': seq<Action>, cur': World)
    requires cur == Exec(w, trace) && At(cur, k, kind, jobID, plan, MarkDone)
    requires ok <==> io && SetStatus(cur.store, jobID, DoneStatus(kind), DoneCheckpoint(kind), now).Success?
    requires after == Ended(cur.store, ok, SetStatus(cur.store, jobID, DoneStatus(kind), DoneCheckpoint(kind), now))
    ensures Leads(w, trace', cur, cur', after, cur.ops - {k})
  {
    trace', cur' := StatementRuns(w, trace, cur, k, cur.ops[k], EffectOf(cur.ops[k]), io, now, ok, after);
  }

  lemma FailureMarked(
    w: World, trace: seq<Action>, cur: World, k: nat, kind: Kind, jobID: string, plan: MigrationPlan,
    io: bool, now: string, ok: bool, after: Snapshot)
    returns (trace': seq<Action>, cur': World)
    requires cur == Exec(w, trace) && At(cur, k, kind, jobID, plan, MarkFailed)
    requires ok <==> io && SetStatus(cur.store, jobID, JobFailed, WriteCheckpoint(kind), now).Success?
    requires after == Ended(cur.store, ok, SetStatus(cur.store, jobID, JobFailed, WriteCheckpoint(kind), now))
    ensures Leads(w, trace', cur, cur', after, cur.ops[k := cur.ops[k].(step := LogFailed)])
  {
    trace', cur' := StatementRuns(w, trace, cur, k, cur.ops[k], EffectOf(cur.ops[k]), io, now, ok, after);
  }

  lemma FailureLogged(
    w: World, trace: seq<Action>, cur: World, k: nat, kind: Kind, jobID: string, plan: MigrationPlan,
    io: bool, now: string, ok: bool, after: Snapshot)
    returns (trace': seq<Action>, cur': World)
    requires cur == Exec(w, trace) && At(cur, k, kind, jobID, plan, LogFailed)
    requires ok <==> io && LogEvent(cur.store, jobID, FailureMessage(kind), now).Success?
    requires after == Ended(cur.store, ok, LogEvent(cur.store, jobID, FailureMessage(kind), now))
    ensures Leads(w, trace', cur, cur', after, cur.ops - {k})
  {
    trace', cur' := StatementRuns(w, trace, cur, k, cur.ops[k], EffectOf(cur.ops[k]), io, now, ok, after);
  }

  /** The checks before a write, as the machine's first steps: they touch nothing, and
      leave the operation about to mark its job running exactly when they pass. */
  lemma ChecksRun(
    w: World, k: nat, kind: Kind, jobID: string, plan: MigrationPlan, approval: string, confirmation: string,
    ioJob: bool, ioEvents: bool)
    returns (trace: seq<Action>, cur: World)
    requires k !in w.ops
    ensures cur == Exec(w, trace) && cur.store == w.store && cur.dok == w.dok && cur.allowed == w.allowed
    ensures cur.ops ==
      if Startable(kind, jobID, plan, confirmation) && ioJob && ioEvents && AcceptsPlan(w.store, jobID, plan)
      then w.ops[k := Writing(kind, jobID, plan, approval, 0, MarkRunning)]
      else w.ops
  {
    trace, cur := [], w;
    if Startable(kind, jobID, plan, confirmation) {
      trace, cur := Begun(w, k, kind, jobID, plan, approval, confirmation);
      trace, cur := JobChecked(w, trace, cur, k, ioJob);
      if k in cur.ops {
        trace, cur := DryRunChecked(w, trace, cur, k, ioEvents);
      }
      assert w.ops[k := Writing(kind, jobID, plan, approval, 0, CheckJob)] - {k} == w.ops;
    }
  }

  lemma Begun(
    w: World, k: nat, kind: Kind, jobID: string, plan: MigrationPlan, approval: string, confirmation: string)
    returns (trace: seq<Action>, cur: World)
    requires k !in w.ops && Startable(kind, jobID, plan, confirmation)
    ensures cur == Exec(w, trace) && cur.store == w.store && cur.dok == w.dok && cur.allowed == w.allowed
    ensures cur.ops == w.ops[k := Writing(kind, jobID, plan, approval, 0, CheckJob)]
  {
    var action := BeginWrite(k, kind, jobID, plan, approval, confirmation);
    trace, cur := [action], Next(w, action);
    assert [action][..0] == [];
    assert Exec(w, []) == w;
  }

  lemma JobChecked(w: World, trace: seq<Action>, cur: World, k: nat, io: bool)
    returns (trace': seq<Action>, cur': World)
    requires cur == Exec(w, trace) && k in cur.ops && cur.ops[k].Writing? && cur.ops[k].step.CheckJob?
    ensures cur' == Exec(w, trace') && cur'.store == cur.store && cur'.dok == cur.dok && cur'.allowed == cur.allowed
    ensures cur'.ops == Put(cur.ops, k,
      if io && JobMatches(cur.store, cur.ops[k].jobID, cur.ops[k].plan)
      then Some(cur.ops[k].(step := CheckDryRun)) else None)
  {
    var action := Advance(k, io, "", "");
    trace', cur' := trace + [action], Next(cur, action);
    ExecStep(w, trace, action);
  }

  lemma DryRunChecked(w: World, trace: seq<Action>, cur: World, k: nat, io: bool)
    returns (trace': seq<Action>, cur': World)
    requires cur == Exec(w, trace) && k in cur.ops && cur.ops[k].Writing? && cur.ops[k].step.CheckDryRun?
    ensures cur' == Exec(w, trace') && cur'.store == cur.store && cur'.dok == cur.dok && cur'.allowed == cur.allowed
    ensures cur'.ops == Put(cur.ops, k,
      if io && StoredDryRunAccepts(EventsOf(cur.store, cur.ops[k].jobID), cur.ops[k].plan)
      then Some(cur.ops[k].(step := MarkRunning)) else None)
  {
    var action := Advance(k, io, "", "");
    trace', cur' := trace + [action], Next(cur, action);
    ExecStep(w, trace, action);
  }

  lemma TransactionRuns(w: World, trace: seq<Action>, cur: World, k: nat, io: bool, ok: bool, db: Dokploy)
    returns (trace': seq<Action>, cur': World)
    requires cur == Exec(w, trace) && k in cur.ops && cur.ops[k].Writing? && cur.ops[k].step.Transact?
    requires var op := cur.ops[k];
      var result := ApplyPlan(cur.dok, cur.allowed, Effective(op.kind, op.plan), op.approval);
      (ok <==> io && result.Success?) && db == if ok then result.value else cur.dok
    ensures cur' == Exec(w, trace') && cur'.store == cur.store && cur'.dok == db && cur'.allowed == cur.allowed
    ensures cur'.ops == cur.ops[k := cur.ops[k].(step :=
      if !ok then MarkFailed else if cur.ops[k].kind.Apply? then WriteReport else LogDone)]
  {
    var action := Advance(k, io, "", "");
    trace', cur' := trace + [action], Next(cur, action);
    ExecStep(w, trace, action);
    TransactionStep(cur, k, io, Built(cur, cur.ops[k], "", ""),
      StoredDryRunAccepts(EventsOf(cur.store, cur.ops[k].jobID), cur.ops[k].plan), Transaction(cur, cur.ops[k]));
    TransactionMeans(cur, cur.ops[k],
      ApplyPlan(cur.dok, cur.allowed, Effective(cur.ops[k].kind, cur.ops[k].plan), cur.ops[k].approval));
  }

  lemma TransactionMeans(w: World, op: Op, result: Result<Dokploy, ApplyError>)
    requires op.Writing? && result == ApplyPlan(w.dok, w.allowed, Effective(op.kind, op.plan), op.approval)
    ensures Transaction(w, op) == if result.Success? then Some(result.value) else None
  {
  }

  lemma TransactionStep(
    w: World, k: nat, io: bool, built: Option<MigrationPlan>, valid: bool, tx: Option<Dokploy>)
    requires k in w.ops && w.ops[k].Writing? && w.ops[k].step.Transact?
    ensures var after, ok := StepWith(w, k, io, "", built, valid, tx), io && tx.Some?;
      && after.store == w.store && after.allowed == w.allowed
      && after.dok == (if ok then tx.value else w.dok)
      && after.ops == w.ops[k := w.ops[k].(step :=
        if !ok then MarkFailed else if w.ops[k].kind.Apply? then WriteReport else LogDone)]
  {
  }

  lemma DryRunReads(
    w: World, trace: seq<Action>, cur: World, k: nat, io: bool, now: string, planID: string,
    built: Option<MigrationPlan>)
    returns (trace': seq<Action>, cur': World)
    requires cur == Exec(w, trace) && k in cur.ops && cur.ops[k].Planning? && cur.ops[k].planStep.ReadDokploy?
    requires built == Built(cur, cur.ops[k], planID, now)
    ensures cur' == Exec(w, trace') && cur'.store == cur.store && cur'.dok == cur.dok && cur'.allowed == cur.allowed
    ensures cur'.ops == cur.ops[k := cur.ops[k].(planStep :=
      if io && built.Some? then MarkReady(built.value) else MarkPlanFailed)]
  {
    var action := Advance(k, io, now, planID);
    trace', cur' := trace + [action], Next(cur, action);
    ExecStep(w, trace, action);
  }

  lemma PlanBegun(
    w: World, k: nat, jobID: string, rawSource: string, rawTarget: string, mode: string, health: Option<bool>)
    returns (trace: seq<Action>, cur: World)
    requires k !in w.ops && !Retired(w, jobID)
    ensures cur == Exec(w, trace) && cur.store == w.store && cur.dok == w.dok && cur.allowed == w.allowed
    ensures cur.requests == w.requests
    ensures cur.ops == w.ops[k := Planning(jobID, TrimSpace(rawSource), TrimSpace(rawTarget), mode, health, Create)]
  {
    var action := BeginPlan(k, jobID, rawSource, rawTarget, mode, health);
    trace, cur := [action], Next(w, action);
    assert [action][..0] == [];
    assert Exec(w, []) == w;
  }

  // -------------------------------------------------------------- whole writes

  lemma AnnounceRuns(
    w: World, before: seq<Action>, start: World, k: nat, kind: Kind, jobID: string, plan: MigrationPlan,
    checkpoint: string, message: Message, env: Surroundings)
    returns (trace: seq<Action>, cur: World)
    requires start == Exec(w, before) && At(start, k, kind, jobID, plan, MarkRunning) && jobID in start.store.jobs
    requires checkpoint == WriteCheckpoint(kind) && message == Intent(kind, |plan.rows|)
    ensures Leads(w, trace, start, cur,
      if !env.through(2) then start.store
      else
        var running := Marked(start.store, jobID, JobRunning, checkpoint, env.clock(2));
        if env.through(3) then Logged(running, jobID, message, env.clock(3)) else running,
      cur.ops)
    ensures cur.ops - {k} == start.ops - {k}
    ensures if env.through(2) && env.through(3)
            then At(cur, k, kind, jobID, plan, Transact) && cur.ops[k].approval == start.ops[k].approval
            else k !in cur.ops
  {
    var running := Marked(start.store, jobID, JobRunning, checkpoint, env.clock(2));
    trace, cur := RunningMarked(w, before, start, k, kind, jobID, plan, env.through(2), env.clock(2), env.through(2),
      if env.through(2) then running else start.store);
    if env.through(2) {
      trace, cur := IntentLogged(w, trace, cur, k, kind, jobID, plan, env.through(3), env.clock(3), env.through(3),
        if env.through(3) then Logged(running, jobID, message, env.clock(3)) else running);
    }
  }

  lemma AbandonRuns(
    w: World, before: seq<Action>, start: World, k: nat, kind: Kind, jobID: string, plan: MigrationPlan,
    checkpoint: string, message: Message, env: Surroundings)
    returns (trace: seq<Action>, cur: World)
    requires start == Exec(w, before) && At(start, k, kind, jobID, plan, MarkFailed) && jobID in start.store.jobs
    requires checkpoint == WriteCheckpoint(kind) && message == FailureMessage(kind)
    ensures Leads(w, trace, start, cur,
      AbandonLeaves(start.store, jobID, checkpoint, message, env), start.ops - {k})
  {
    var marked :=
      if env.through(5) then Marked(start.store, jobID, JobFailed, checkpoint, env.clock(5)) else start.store;
    trace, cur := FailureMarked(
      w, before, start, k, kind, jobID, plan, env.through(5), env.clock(5), env.through(5), marked);
    trace, cur := FailureLogged(
      w, trace, cur, k, kind, jobID, plan, env.through(6), env.clock(6), env.through(6),
      if env.through(6) then Logged(marked, jobID, message, env.clock(6)) else marked);
  }

  lemma ConcludeRuns(
    w: World, before: seq<Action>, start: World, k: nat, kind: Kind, jobID: string, plan: MigrationPlan,
    status: JobStatus, checkpoint: string, message: Message, env: Surroundings, n: nat)
    returns (trace: seq<Action>, cur: World)
    requires start == Exec(w, before) && At(start, k, kind, jobID, plan, LogDone) && jobID in start.store.jobs
    requires status == DoneStatus(kind) && checkpoint == DoneCheckpoint(kind)
    requires message == DoneMessage(kind, |plan.rows|)
    ensures Leads(w, trace, start, cur,
      ConcludeLeaves(start.store, jobID, status, checkpoint, message, env, n), start.ops - {k})
  {
    var logged := Logged(start.store, jobID, message, env.clock(n));
    trace, cur := DoneLogged(w, before, start, k, kind, jobID, plan, env.through(n), env.clock(n), env.through(n),
      if env.through(n) then logged else start.store);
    if env.through(n) {
      trace, cur := DoneMarked(
        w, trace, cur, k, kind, jobID, plan, env.through(n + 1), env.clock(n + 1), env.through(n + 1),
        if env.through(n + 1) then Marked(logged, jobID, status, checkpoint, env.clock(n + 1)) else logged);
    }
  }

  lemma RecordRuns(
    w: World, before: seq<Action>, start: World, k: nat, jobID: string, plan: MigrationPlan, env: Surroundings)
    returns (trace: seq<Action>, cur: World)
    requires start == Exec(w, before) && At(start, k, Kind.Apply, jobID, plan, WriteReport) && jobID in start.store.jobs
    ensures Leads(w, trace, start, cur, RecordLeaves(start.store, jobID, plan, env), start.ops - {k})
  {
    var reported := start.store.(reports := start.store.reports[jobID := Report(jobID, plan)]);
    trace, cur := ReportWritten(w, before, start, k, jobID, plan, env.through(5), env.clock(5), env.through(5),
      if env.through(5) then reported else start.store);
    if env.through(5) {
      trace, cur := ConcludeRuns(w, trace, cur, k, Kind.Apply, jobID, plan,
        JobSucceeded, "metadata-retarget-complete", ReportSaved, env, 6);
    }
  }

  /** A run from `w` leaves this store and this database, and no operation more or fewer. */
  ghost predicate Ran(w: World, trace: seq<Action>, store: Snapshot, dok: Dokploy) {
    var after := Exec(w, trace);
    after.store == store && after.dok == dok && after.allowed == w.allowed && after.ops == w.ops
  }

  /** The database that the transaction of a write leaves, if it commits. */
  ghost function Found(dok: Dokploy, allowed: set<string>, plan: MigrationPlan, approval: string, io: bool)
    : Option<Dokploy>
  {
    var result := ApplyPlan(dok, allowed, plan, approval);
    if io && result.Success? then Some(result.value) else None
  }

  lemma TransactRuns(
    w: World, before: seq<Action>, start: World, k: nat, kind: Kind, jobID: string, plan: MigrationPlan,
    approval: string, io: bool, tx: Option<Dokploy>)
    returns (trace: seq<Action>, cur: World)
    requires start == Exec(w, before) && At(start, k, kind, jobID, plan, Transact) && start.ops[k].approval == approval
    requires tx == Found(start.dok, start.allowed, Effective(kind, plan), approval, io)
    ensures cur == Exec(w, trace) && cur.store == start.store && cur.allowed == start.allowed
    ensures cur.dok == tx.GetOr(start.dok) && cur.ops - {k} == start.ops - {k}
    ensures At(cur, k, kind, jobID, plan,
      if tx.None? then MarkFailed else if kind.Apply? then WriteReport else LogDone)
  {
    trace, cur := TransactionRuns(w, before, start, k, io, tx.Some?, tx.GetOr(start.dok));
  }

  /** An accepted apply. */
  lemma ApplyRuns(
    w: World, k: nat, jobID: string, plan: MigrationPlan, approval: string, env: Surroundings, tx: Option<Dokploy>)
    returns (trace: seq<Action>)
    requires k !in w.ops && AcceptsPlan(w.store, jobID, plan) && ChecksGetThrough(env)
    requires tx == Found(w.dok, w.allowed, plan, approval, env.through(4))
    ensures jobID in w.store.jobs
    ensures Ran(w, trace, ApplyLeaves(w.store, jobID, plan, env, tx.Some?),
      if env.through(2) && env.through(3) then tx.GetOr(w.dok) else w.dok)
  {
    var cur;
    trace, cur := ChecksRun(w, k, Kind.Apply, jobID, plan, approval, APPLY_CONFIRMATION, true, true);
    assert cur.ops - {k} == w.ops;
    trace, cur := AnnounceRuns(
      w, trace, cur, k, Kind.Apply, jobID, plan, "apply-retarget", Applying(|plan.rows|), env);
    if env.through(2) && env.through(3) {
      trace, cur := TransactRuns(w, trace, cur, k, Kind.Apply, jobID, plan, approval, env.through(4), tx);
      if tx.None? {
        trace, cur := AbandonRuns(
          w, trace, cur, k, Kind.Apply, jobID, plan, "apply-retarget", RetargetFailed, env);
      } else {
        trace, cur := RecordRuns(w, trace, cur, k, jobID, plan, env);
      }
    }
  }

  /** An accepted rollback. */
  lemma RollbackRuns(
    w: World, k: nat, jobID: string, plan: MigrationPlan, approval: string, env: Surroundings, tx: Option<Dokploy>)
    returns (trace: seq<Action>)
    requires k !in w.ops && AcceptsPlan(w.store, jobID, plan) && ChecksGetThrough(env)
    requires tx == Found(w.dok, w.allowed, ReversePlan(plan), approval, env.through(4))
    ensures jobID in w.store.jobs
    ensures Ran(w, trace, RollbackLeaves(w.store, jobID, plan, env, tx.Some?),
      if env.through(2) && env.through(3) then tx.GetOr(w.dok) else w.dok)
  {
    var cur;
    trace, cur := ChecksRun(w, k, Kind.Rollback, jobID, plan, approval, "", true, true);
    assert cur.ops - {k} == w.ops;
    trace, cur := AnnounceRuns(
      w, trace, cur, k, Kind.Rollback, jobID, plan, "rollback-retarget", RollingBack(|plan.rows|), env);
    if env.through(2) && env.through(3) {
      trace, cur := TransactRuns(w, trace, cur, k, Kind.Rollback, jobID, plan, approval, env.through(4), tx);
      if tx.None? {
        trace, cur := AbandonRuns(
          w, trace, cur, k, Kind.Rollback, jobID, plan, "rollback-retarget", RollbackFailed, env);
      } else {
        trace, cur := ConcludeRuns(w, trace, cur, k, Kind.Rollback, jobID, plan,
          JobRolledBack, "metadata-rollback-complete", RollbackApplied(|plan.rows|), env, 5);
      }
    }
  }

  // -------------------------------------------------------------- requests for a plan

  /** The dry-run of a request, if its reads get through and it can be built. */
  ghost function Dry(
    dok: Dokploy, allowed: set<string>, source: string, target: string, planID: string, now: string, io: bool)
    : Option<MigrationPlan>
  {
    var result := BuildRetargetPlan(dok, allowed, source, target, planID, now);
    if io && result.Success? then Some(result.value) else None
  }

  lemma CreateRuns(w: World, before: seq<Action>, start: World, k: nat, op: Op, now: string)
    returns (trace: seq<Action>, cur: World)
    requires start == Exec(w, before) && k in start.ops && start.ops[k] == op
    requires op.Planning? && op.planStep.Create? && !Retired(start, op.jobID) && op.jobID !in start.store.jobs
    ensures Leads(w, trace, start, cur,
      start.store.(jobs := start.store.jobs[op.jobID :=
        Job(op.jobID, op.source, op.target, op.mode, JobPending, "", now, now)]),
      start.ops[k := op.(planStep := LogCreated)])
  {
    var job := Job(op.jobID, op.source, op.target, op.mode, JobPending, "", "", "");
    trace, cur := StatementRuns(
      w, before, start, k, op, Insert(job), true, now, true, InsertJob(start.store, job, now).value);
  }

  lemma CreationStops(w: World, before: seq<Action>, start: World, k: nat, op: Op)
    returns (trace: seq<Action>, cur: World)
    requires start == Exec(w, before) && k in start.ops && start.ops[k] == op
    requires op.Planning? && op.planStep.LogCreated?
    ensures Leads(w, trace, start, cur, start.store, start.ops - {k})
  {
    trace, cur := StatementRuns(w, before, start, k, op, EffectOf(op), false, "", false, start.store);
  }

  lemma CreationRuns(w: World, before: seq<Action>, start: World, k: nat, op: Op, env: Surroundings)
    returns (trace: seq<Action>, cur: World)
    requires start == Exec(w, before) && k in start.ops && start.ops[k] == op
    requires op.Planning? && op.planStep.LogCreated? && op.jobID in start.store.jobs
    ensures Leads(w, trace, start, cur,
      CreationLeaves(start.store, op.jobID, op.mode, op.health, env), start.ops[k := op.(planStep := ReadDokploy)])
  {
    trace, cur := StatementRuns(w, before, start, k, op, EffectOf(op), true, env.clock(1), true,
      Logged(start.store, op.jobID, JobCreated(op.mode), env.clock(1)));
    trace, cur := HealthRuns(w, trace, cur, k, op.(planStep := LogHealth), env);
  }

  lemma HealthRuns(w: World, before: seq<Action>, start: World, k: nat, op: Op, env: Surroundings)
    returns (trace: seq<Action>, cur: World)
    requires start == Exec(w, before) && k in start.ops && start.ops[k] == op
    requires op.Planning? && op.planStep.LogHealth? && op.jobID in start.store.jobs
    ensures Leads(w, trace, start, cur,
      if op.health.Some? && env.through(2)
      then Logged(start.store, op.jobID, HealthChecked(op.health.value), env.clock(2)) else start.store,
      start.ops[k := op.(planStep := ReadDokploy)])
  {
    trace, cur := StatementRuns(w, before, start, k, op, EffectOf(op), env.through(2), env.clock(2), env.through(2),
      if op.health.Some? && env.through(2)
      then Logged(start.store, op.jobID, HealthChecked(op.health.value), env.clock(2)) else start.store);
  }

  lemma BuildRuns(
    w: World, before: seq<Action>, start: World, k: nat, op: Op, planID: string, now: string, io: bool,
    built: Option<MigrationPlan>)
    returns (trace: seq<Action>, cur: World)
    requires start == Exec(w, before) && k in start.ops && start.ops[k] == op
    requires op.Planning? && op.planStep.ReadDokploy?
    requires built == Dry(start.dok, start.allowed, op.source, op.target, planID, now, io)
    ensures Leads(w, trace, start, cur, start.store,
      start.ops[k := op.(planStep := if built.Some? then MarkReady(built.value) else MarkPlanFailed)])
  {
    trace, cur := DryRunReads(w, before, start, k, io, now, planID, Built(start, op, planID, now));
  }

  lemma DryRunIsStored(
    w: World, before: seq<Action>, start: World, k: nat, op: Op, plan: MigrationPlan, env: Surroundings)
    returns (trace: seq<Action>, cur: World)
    requires start == Exec(w, before) && k in start.ops && start.ops[k] == op && op.jobID in start.store.jobs
    requires op.Planning? && op.planStep == MarkReady(plan)
    ensures Leads(w, trace, start, cur,
      StoreBuiltLeaves(start.store, op.jobID, Some(plan), env), start.ops - {k})
  {
    var marked := Marked(start.store, op.jobID, JobPaused, "dry-run-ready", env.clock(4));
    trace, cur := StatementRuns(w, before, start, k, op, EffectOf(op), env.through(4), env.clock(4), env.through(4),
      if env.through(4) then marked else start.store);
    if env.through(4) {
      var last := op.(planStep := LogReady(plan));
      trace, cur := StatementRuns(
        w, trace, cur, k, last, EffectOf(last), env.through(5), env.clock(5), env.through(5),
        if env.through(5) then Logged(marked, op.jobID, DryRunReady(plan), env.clock(5)) else marked);
    }
  }

  lemma PlanIsGivenUp(w: World, before: seq<Action>, start: World, k: nat, op: Op, env: Surroundings)
    returns (trace: seq<Action>, cur: World)
    requires start == Exec(w, before) && k in start.ops && start.ops[k] == op && op.jobID in start.store.jobs
    requires op.Planning? && op.planStep.MarkPlanFailed?
    ensures Leads(w, trace, start, cur, StoreBuiltLeaves(start.store, op.jobID, None, env), start.ops - {k})
  {
    var marked :=
      if env.through(4) then Marked(start.store, op.jobID, JobFailed, "plan", env.clock(4)) else start.store;
    trace, cur := StatementRuns(
      w, before, start, k, op, EffectOf(op), env.through(4), env.clock(4), env.through(4), marked);
    var last := op.(planStep := LogPlanFailed);
    trace, cur := StatementRuns(
      w, trace, cur, k, last, EffectOf(last), env.through(5), env.clock(5), env.through(5),
      if env.through(5) then Logged(marked, op.jobID, PlanFailed, env.clock(5)) else marked);
  }

  lemma StoreBuiltRuns(
    w: World, before: seq<Action>, start: World, k: nat, op: Op, built: Option<MigrationPlan>, env: Surroundings)
    returns (trace: seq<Action>, cur: World)
    requires start == Exec(w, before) && k in start.ops && start.ops[k] == op && op.jobID in start.store.jobs
    requires op.Planning? && op.planStep == if built.Some? then MarkReady(built.value) else MarkPlanFailed
    ensures Leads(w, trace, start, cur, StoreBuiltLeaves(start.store, op.jobID, built, env), start.ops - {k})
  {
    if built.Some? {
      trace, cur := DryRunIsStored(w, before, start, k, op, built.value, env);
    } else {
      trace, cur := PlanIsGivenUp(w, before, start, k, op, env);
    }
  }

  /** A request for a plan with a known mode. */
  lemma PlanRuns(
    w: World, k: nat, jobID: string, rawSource: string, rawTarget: string, mode: string, health: Option<bool>,
    planID: string, env: Surroundings, built: Option<MigrationPlan>)
    returns (trace: seq<Action>)
    requires k !in w.ops && !Retired(w, jobID)
    requires built == Dry(
      w.dok, w.allowed, TrimSpace(rawSource), TrimSpace(rawTarget), planID, env.clock(3), env.through(3))
    ensures Ran(w, trace,
      PlanLeaves(w.store, jobID, TrimSpace(rawSource), TrimSpace(rawTarget), mode, health, built, env), w.dok)
  {
    trace := [];
    if jobID !in w.store.jobs && env.through(0) {
      var op := Planning(jobID, TrimSpace(rawSource), TrimSpace(rawTarget), mode, health, Create);
      var cur;
      trace, cur := PlanBegun(w, k, jobID, rawSource, rawTarget, mode, health);
      assert w.ops[k := op] - {k} == w.ops;
      trace, cur := CreateAndBuildRuns(w, trace, cur, k, op, planID, env, built);
    }
  }

  lemma CreateAndBuildRuns(
    w: World, before: seq<Action>, start: World, k: nat, op: Op, planID: string, env: Surroundings,
    built: Option<MigrationPlan>)
    returns (trace: seq<Action>, cur: World)
    requires start == Exec(w, before) && k in start.ops && start.ops[k] == op
    requires op.Planning? && op.planStep.Create? && !Retired(start, op.jobID) && op.jobID !in start.store.jobs
    requires built == Dry(start.dok, start.allowed, op.source, op.target, planID, env.clock(3), env.through(3))
    requires env.through(0)
    ensures Leads(w, trace, start, cur,
      PlanLeaves(start.store, op.jobID, op.source, op.target, op.mode, op.health, built, env), start.ops - {k})
  {
    trace, cur := CreateRuns(w, before, start, k, op, env.clock(0));
    if env.through(1) {
      trace, cur := CreatedRuns(w, trace, cur, k, op.(planStep := LogCreated), planID, env, built);
    } else {
      trace, cur := CreationStops(w, trace, cur, k, op.(planStep := LogCreated));
    }
  }

  lemma CreatedRuns(
    w: World, before: seq<Action>, start: World, k: nat, op: Op, planID: string, env: Surroundings,
    built: Option<MigrationPlan>)
    returns (trace: seq<Action>, cur: World)
    requires start == Exec(w, before) && k in start.ops && start.ops[k] == op
    requires op.Planning? && op.planStep.LogCreated? && op.jobID in start.store.jobs
    requires built == Dry(start.dok, start.allowed, op.source, op.target, planID, env.clock(3), env.through(3))
    ensures Leads(w, trace, start, cur,
      StoreBuiltLeaves(CreationLeaves(start.store, op.jobID, op.mode, op.health, env), op.jobID, built, env),
      start.ops - {k})
  {
    trace, cur := CreationRuns(w, before, start, k, op, env);
    trace, cur := BuildRuns(
      w, trace, cur, k, op.(planStep := ReadDokploy), planID, env.clock(3), env.through(3), built);
    trace, cur := StoreBuiltRuns(w, trace, cur, k, cur.ops[k], built, env);
  }
}
