/** The job manager: internal/jobs/jobs.go. Each method issues its statements one by
    one, and is shown to be a run of the machine's steps. */
module Jobs {
  import opened Wrappers
  import opened Text
  import opened Model
  import opened Tables
  import opened Retarget
  import opened PlanSubset
  import opened Store
  import opened Listing
  import opened Machine
  import opened Safety
  import opened Traces
  import DokployAdapter

  datatype JobError =
    | ConfirmationMissing
    | NameMissing
    | UnsupportedMode
    | StoreRefused(store: StoreError)
    | HeaderMismatch
    | DryRunMismatch(subset: SubsetError)
    | DryRunNotFound
    | DryRunFailed(plan: PlanError)
    | WriteFailed(apply: ApplyError)

  // -------------------------------------------------------------- the manager

  const DEAD_RECOVERY := "dead_recovery"
  const PLANNED_RELOCATION := "planned_relocation"

  /** The mode to record: dead recovery unless another known mode is named. */
  function NormalizeMode(mode: string): Option<string> {
    if mode == "" then Some(DEAD_RECOVERY)
    else if mode == DEAD_RECOVERY || mode == PLANNED_RELOCATION then Some(mode)
    else None
  }

  lemma Suffix<T>(s: seq<T>, i: nat)
    requires i < |s|
    ensures s[i..] != [] && s[i..][0] == s[i] && s[i..][1..] == s[i + 1..]
  {
  }

  /** The two modes by name, or none. */
  predicate KnownMode(mode: string) {
    mode == "" || mode == "dead_recovery" || mode == "planned_relocation"
  }

  /** The event holds a dry-run with the plan's id. */
  predicate HoldsDryRun(event: Event, plan: MigrationPlan) {
    event.message.DryRunReady? && event.message.plan.id == plan.id
  }

  /** The event at place `i` is the first that holds a dry-run with the plan's id. */
  predicate FirstHolding(events: seq<Event>, plan: MigrationPlan, i: int) {
    0 <= i < |events| && HoldsDryRun(events[i], plan) && forall j | 0 <= j < i :: !HoldsDryRun(events[j], plan)
  }

  lemma {:induction false} FirstDryRunDecides(events: seq<Event>, plan: MigrationPlan)
    ensures StoredDryRunAccepts(events, plan) <==>
      exists i :: FirstHolding(events, plan, i) && IsSubset(events[i].message.plan, plan)
  {
    if events != [] {
      if HoldsDryRun(events[0], plan) {
        assert FirstHolding(events, plan, 0);
      } else {
        var rest := events[1..];
        FirstDryRunDecides(rest, plan);
        forall i | FirstHolding(rest, plan, i) ensures FirstHolding(events, plan, i + 1) {
          forall j | 0 <= j < i + 1 ensures !HoldsDryRun(events[j], plan) {
            assert j > 0 ==> events[j] == rest[j - 1];
          }
        }
        forall i | FirstHolding(events, plan, i) ensures i > 0 && FirstHolding(rest, plan, i - 1) {
        }
      }
    }
  }

  /** The loop over the job's events: the first stored dry-run with the plan's id decides. */
  method ValidateStoredDryRunPlan(events: seq<Event>, plan: MigrationPlan) returns (outcome: Outcome<JobError>)
    ensures outcome.Pass? <==> StoredDryRunAccepts(events, plan)
    ensures outcome.Pass? <==> exists i :: FirstHolding(events, plan, i) && IsSubset(events[i].message.plan, plan)
    ensures outcome.Fail? ==> !outcome.error.WriteFailed?
  {
    FirstDryRunDecides(events, plan);
    for i := 0 to |events|
      invariant StoredDryRunAccepts(events, plan) <==> StoredDryRunAccepts(events[i..], plan)
    {
      Suffix(events, i);
      var message := events[i].message;
      if !message.DryRunReady? || message.plan.id != plan.id {
        continue;
      }
      var verdict := ValidatePlanSubset(message.plan, plan);
      return if verdict.Pass? then Pass else Fail(DryRunMismatch(verdict.error));
    }
    return Fail(DryRunNotFound);
  }

  /** The write got as far as its transaction, and that failed. */
  predicate FailedWrite(outcome: Outcome<JobError>) {
    outcome.Fail? && outcome.error.WriteFailed?
  }

  class Manager {
    const store: JobStore
    const adapter: DokployAdapter.Adapter

    constructor (store: JobStore, adapter: DokployAdapter.Adapter)
      ensures this.store == store && this.adapter == adapter
    {
      this.store, this.adapter := store, adapter;
    }

    /** The manager's store and database are those of this world. */
    ghost predicate Mirrors(w: World)
      reads store, adapter
    {
      w.store == store.State() && w.dok == adapter.db && w.allowed == adapter.allowedHashes
    }

    method ValidateJobPlan(jobID: string, plan: MigrationPlan, ioJob: bool, ioEvents: bool)
      returns (outcome: Outcome<JobError>)
      ensures outcome.Pass? <==> ioJob && ioEvents && AcceptsPlan(store.State(), jobID, plan)
      ensures outcome.Pass? <==>
        && ioJob && ioEvents
        && !Blank(jobID) && !Blank(plan.id) && !Blank(plan.schemaHash) && jobID in store.jobs
        && store.jobs[jobID].sourceServerID == plan.sourceServerID
        && store.jobs[jobID].targetServerID == plan.targetServerID
        && StoredDryRunAccepts(EventsOf(store.State(), jobID), plan)
      ensures outcome.Fail? ==> !outcome.error.WriteFailed?
    {
      if Blank(jobID) || Blank(plan.id) || Blank(plan.schemaHash) {
        return Fail(NameMissing);
      }
      var job := store.GetJob(jobID, ioJob);
      if job.Failure? {
        return Fail(StoreRefused(job.error));
      }
      if job.value.sourceServerID != plan.sourceServerID || job.value.targetServerID != plan.targetServerID {
        return Fail(HeaderMismatch);
      }
      var events := store.ListEvents(jobID, ioEvents);
      if events.Failure? {
        return Fail(StoreRefused(events.error));
      }
      outcome := ValidateStoredDryRunPlan(events.value, plan);
    }

    // ------------------------------------------------------------ the parts of a write

    /** Marks the job running and announces the write in its log. */
    method Announce(jobID: string, checkpoint: string, message: Message, env: Surroundings)
      returns (outcome: Outcome<JobError>)
      requires jobID in store.jobs
      modifies store
      ensures outcome.Pass? <==> env.through(2) && env.through(3)
      ensures !FailedWrite(outcome)
      ensures store.State() ==
        if !env.through(2) then old(store.State())
        else
          var running := Marked(old(store.State()), jobID, JobRunning, checkpoint, env.clock(2));
          if env.through(3) then Logged(running, jobID, message, env.clock(3)) else running
    {
      var done := store.UpdateJob(jobID, JobRunning, checkpoint, env.clock(2), env.through(2));
      if done.Fail? {
        return Fail(StoreRefused(done.error));
      }
      done := store.AppendEvent(jobID, message, env.clock(3), env.through(3));
      outcome := if done.Fail? then Fail(StoreRefused(done.error)) else Pass;
    }

    /** After a failed transaction: marks the job failed and logs it, ignoring errors. */
    method Abandon(jobID: string, checkpoint: string, message: Message, env: Surroundings)
      requires jobID in store.jobs
      modifies store
      ensures store.State() == AbandonLeaves(old(store.State()), jobID, checkpoint, message, env)
    {
      var done := store.UpdateJob(jobID, JobFailed, checkpoint, env.clock(5), env.through(5));
      done := store.AppendEvent(jobID, message, env.clock(6), env.through(6));
    }

    /** Logs the end of the write and sets the job's final status. */
    method Conclude(
      jobID: string, status: JobStatus, checkpoint: string, message: Message, env: Surroundings, n: nat)
      returns (outcome: Outcome<JobError>)
      requires jobID in store.jobs
      modifies store
      ensures outcome.Pass? <==> env.through(n) && env.through(n + 1)
      ensures !FailedWrite(outcome)
      ensures store.State() == ConcludeLeaves(old(store.State()), jobID, status, checkpoint, message, env, n)
    {
      var done := store.AppendEvent(jobID, message, env.clock(n), env.through(n));
      if done.Fail? {
        return Fail(StoreRefused(done.error));
      }
      done := store.UpdateJob(jobID, status, checkpoint, env.clock(n + 1), env.through(n + 1));
      outcome := if done.Fail? then Fail(StoreRefused(done.error)) else Pass;
    }

    /** A committed apply: stores its report and concludes. */
    method RecordApply(jobID: string, plan: MigrationPlan, env: Surroundings) returns (outcome: Outcome<JobError>)
      requires jobID in store.jobs
      modifies store
      ensures outcome.Pass? <==> env.through(5) && env.through(6) && env.through(7)
      ensures !FailedWrite(outcome)
      ensures store.State() == RecordLeaves(old(store.State()), jobID, plan, env)
    {
      var saved := store.SaveReport(jobID, Report(jobID, plan), env.through(5));
      if saved.Fail? {
        return Fail(StoreRefused(saved.error));
      }
      outcome := Conclude(jobID, JobSucceeded, "metadata-retarget-complete", ReportSaved, env, 6);
    }

    /** A committed rollback concludes. */
    method RecordRollback(jobID: string, plan: MigrationPlan, env: Surroundings) returns (outcome: Outcome<JobError>)
      requires jobID in store.jobs
      modifies store
      ensures outcome.Pass? <==> env.through(5) && env.through(6)
      ensures !FailedWrite(outcome)
      ensures store.State() == RollbackRecordLeaves(old(store.State()), jobID, plan, env)
    {
      outcome := Conclude(
        jobID, JobRolledBack, "metadata-rollback-complete", RollbackApplied(|plan.rows|), env, 5);
    }

    /** An apply past its checks. `tx` is what its transaction finds. */
    method ApplyAccepted(
      jobID: string, plan: MigrationPlan, approval: string, env: Surroundings, ghost tx: Option<Dokploy>)
      returns (outcome: Outcome<JobError>)
      requires jobID in store.jobs
      requires tx == Found(adapter.db, adapter.allowedHashes, plan, approval, env.through(4))
      modifies store, adapter`db
      ensures outcome.Pass? <==> tx.Some? && WriteGetsThrough(env) && env.through(7)
      ensures FailedWrite(outcome) <==> env.through(2) && env.through(3) && tx.None?
      ensures store.State() == ApplyLeaves(old(store.State()), jobID, plan, env, tx.Some?)
      ensures adapter.db == if env.through(2) && env.through(3) then tx.GetOr(old(adapter.db)) else old(adapter.db)
    {
      outcome := Announce(jobID, "apply-retarget", Applying(|plan.rows|), env);
      if outcome.Fail? {
        return;
      }
      var written := adapter.ApplyRetargetPlan(plan, approval, !env.through(4));
      if written.Fail? {
        Abandon(jobID, "apply-retarget", RetargetFailed, env);
        return Fail(WriteFailed(written.error));
      }
      outcome := RecordApply(jobID, plan, env);
    }

    /** A rollback past its checks. `tx` is what its transaction finds. */
    method RollbackAccepted(
      jobID: string, plan: MigrationPlan, approval: string, env: Surroundings, ghost tx: Option<Dokploy>)
      returns (outcome: Outcome<JobError>)
      requires jobID in store.jobs
      requires tx == Found(adapter.db, adapter.allowedHashes, ReversePlan(plan), approval, env.through(4))
      modifies store, adapter`db
      ensures outcome.Pass? <==> tx.Some? && WriteGetsThrough(env)
      ensures FailedWrite(outcome) <==> env.through(2) && env.through(3) && tx.None?
      ensures store.State() == RollbackLeaves(old(store.State()), jobID, plan, env, tx.Some?)
      ensures adapter.db == if env.through(2) && env.through(3) then tx.GetOr(old(adapter.db)) else old(adapter.db)
    {
      outcome := Announce(jobID, "rollback-retarget", RollingBack(|plan.rows|), env);
      if outcome.Fail? {
        return;
      }
      var written := adapter.RollbackRetargetPlan(plan, approval, !env.through(4));
      if written.Fail? {
        Abandon(jobID, "rollback-retarget", RollbackFailed, env);
        return Fail(WriteFailed(written.error));
      }
      outcome := RecordRollback(jobID, plan, env);
    }

    // ------------------------------------------------------------ the operations

    /** Applies a reviewed plan and stores a report. `accepted` says that the request is
        confirmed, the plan accepted, and the two calls that check it get through; if not,
        nothing changes. `tx` is the database the transaction leaves, if the plan applies
        and the call gets through. The apply passes exactly when it is accepted, commits,
        and its other calls get through; its failure tells of the transaction exactly when
        that is what failed. The job, its log and its report are left as far as the calls
        got through. */
    method Apply(
      jobID: string, plan: MigrationPlan, approval: string, confirmation: string, env: Surroundings)
      returns (outcome: Outcome<JobError>, ghost accepted: bool, ghost tx: Option<Dokploy>)
      modifies store, adapter`db
      ensures accepted <==>
        confirmation == "APPLY" && AcceptsPlan(old(store.State()), jobID, plan) && env.through(0) && env.through(1)
      ensures tx == Found(old(adapter.db), adapter.allowedHashes, plan, approval, env.through(4))
      ensures outcome.Pass? <==> accepted && tx.Some? && WriteGetsThrough(env) && env.through(7)
      ensures FailedWrite(outcome) <==> accepted && env.through(2) && env.through(3) && tx.None?
      ensures adapter.db ==
        if accepted && env.through(2) && env.through(3) then tx.GetOr(old(adapter.db)) else old(adapter.db)
      ensures accepted ==> jobID in old(store.jobs)
      ensures store.State() ==
        if accepted then ApplyLeaves(old(store.State()), jobID, plan, env, tx.Some?) else old(store.State())
      ensures accepted ==>
        var job := old(store.jobs)[jobID];
        store.jobs ==
          if !env.through(2) then old(store.jobs)
          else if outcome.Pass? then
            old(store.jobs)[jobID := job.(
              status := JobSucceeded, checkpoint := "metadata-retarget-complete", updatedAt := env.clock(7))]
          else if FailedWrite(outcome) && env.through(5) then
            old(store.jobs)[jobID := job.(
              status := JobFailed, checkpoint := "apply-retarget", updatedAt := env.clock(5))]
          else
            old(store.jobs)[jobID := job.(
              status := JobRunning, checkpoint := "apply-retarget", updatedAt := env.clock(2))]
      ensures accepted ==>
        var n := old(store.lastEventID);
        var announced := old(store.events)[n + 1 := Event(n + 1, jobID, Applying(|plan.rows|), env.clock(3))];
        if !(env.through(2) && env.through(3)) then
          store.events == old(store.events) && store.lastEventID == n
        else if FailedWrite(outcome) && env.through(6) then
          && store.events == announced[n + 2 := Event(n + 2, jobID, RetargetFailed, env.clock(6))]
          && store.lastEventID == n + 2
        else if !FailedWrite(outcome) && env.through(5) && env.through(6) then
          && store.events == announced[n + 2 := Event(n + 2, jobID, ReportSaved, env.clock(6))]
          && store.lastEventID == n + 2
        else
          store.events == announced && store.lastEventID == n + 1
      ensures store.reports ==
        if accepted && env.through(2) && env.through(3) && tx.Some? && env.through(5)
        then old(store.reports)[jobID := Report(jobID, plan)] else old(store.reports)
    {
      accepted := false;
      tx := Found(adapter.db, adapter.allowedHashes, plan, approval, env.through(4));
      if confirmation != APPLY_CONFIRMATION {
        return Fail(ConfirmationMissing), accepted, tx;
      }
      outcome := ValidateJobPlan(jobID, plan, env.through(0), env.through(1));
      if outcome.Fail? {
        return;
      }
      accepted := true;
      ApplyLeavesExactly(store.State(), jobID, plan, env, tx.Some?);
      outcome := ApplyAccepted(jobID, plan, approval, env, tx);
    }

    /** Reverses the metadata changes of a reviewed plan; otherwise as for an apply, without
        confirmation and report. */
    method Rollback(jobID: string, plan: MigrationPlan, approval: string, env: Surroundings)
      returns (outcome: Outcome<JobError>, ghost accepted: bool, ghost tx: Option<Dokploy>)
      modifies store, adapter`db
      ensures accepted <==> AcceptsPlan(old(store.State()), jobID, plan) && env.through(0) && env.through(1)
      ensures tx == Found(old(adapter.db), adapter.allowedHashes, ReversePlan(plan), approval, env.through(4))
      ensures outcome.Pass? <==> accepted && tx.Some? && WriteGetsThrough(env)
      ensures FailedWrite(outcome) <==> accepted && env.through(2) && env.through(3) && tx.None?
      ensures adapter.db ==
        if accepted && env.through(2) && env.through(3) then tx.GetOr(old(adapter.db)) else old(adapter.db)
      ensures accepted ==> jobID in old(store.jobs)
      ensures store.State() ==
        if accepted then RollbackLeaves(old(store.State()), jobID, plan, env, tx.Some?) else old(store.State())
      ensures accepted ==>
        var job := old(store.jobs)[jobID];
        store.jobs ==
          if !env.through(2) then old(store.jobs)
          else if outcome.Pass? then
            old(store.jobs)[jobID := job.(
              status := JobRolledBack, checkpoint := "metadata-rollback-complete", updatedAt := env.clock(6))]
          else if FailedWrite(outcome) && env.through(5) then
            old(store.jobs)[jobID := job.(
              status := JobFailed, checkpoint := "rollback-retarget", updatedAt := env.clock(5))]
          else
            old(store.jobs)[jobID := job.(
              status := JobRunning, checkpoint := "rollback-retarget", updatedAt := env.clock(2))]
      ensures accepted ==>
        var n := old(store.lastEventID);
        var announced := old(store.events)[n + 1 := Event(n + 1, jobID, RollingBack(|plan.rows|), env.clock(3))];
        if !(env.through(2) && env.through(3)) then
          store.events == old(store.events) && store.lastEventID == n
        else if FailedWrite(outcome) && env.through(6) then
          && store.events == announced[n + 2 := Event(n + 2, jobID, RollbackFailed, env.clock(6))]
          && store.lastEventID == n + 2
        else if !FailedWrite(outcome) && env.through(5) then
          && store.events == announced[n + 2 := Event(n + 2, jobID, RollbackApplied(|plan.rows|), env.clock(5))]
          && store.lastEventID == n + 2
        else
          store.events == announced && store.lastEventID == n + 1
      ensures store.reports == old(store.reports)
    {
      accepted := false;
      tx := Found(adapter.db, adapter.allowedHashes, ReversePlan(plan), approval, env.through(4));
      outcome := ValidateJobPlan(jobID, plan, env.through(0), env.through(1));
      if outcome.Fail? {
        return;
      }
      accepted := true;
      RollbackLeavesExactly(store.State(), jobID, plan, env, tx.Some?);
      outcome := RollbackAccepted(jobID, plan, approval, env, tx);
    }

    /** Creates the job, logs that, and logs the outcome of a health check if there is one. */
    method Open(job: Job, health: Option<bool>, env: Surroundings) returns (outcome: Outcome<JobError>)
      requires job.createdAt == ""
      modifies store
      ensures outcome.Pass? <==> env.through(0) && env.through(1) && job.id !in old(store.jobs)
      ensures store.State() ==
        if job.id in old(store.jobs) || !env.through(0) then old(store.State())
        else
          var stamped := job.(createdAt := env.clock(0), updatedAt := env.clock(0));
          var created := old(store.State()).(jobs := old(store.jobs)[job.id := stamped]);
          if env.through(1) then CreationLeaves(created, job.id, job.mode, health, env) else created
    {
      var done := store.CreateJob(job, env.clock(0), env.through(0));
      if done.Fail? {
        return Fail(StoreRefused(done.error));
      }
      done := store.AppendEvent(job.id, JobCreated(job.mode), env.clock(1), env.through(1));
      if done.Fail? {
        return Fail(StoreRefused(done.error));
      }
      if health.Some? {
        done := store.AppendEvent(job.id, HealthChecked(health.value), env.clock(2), env.through(2));
      }
      outcome := Pass;
    }

    /** Pauses the job and stores its dry-run. */
    method StoreDryRun(jobID: string, plan: MigrationPlan, env: Surroundings) returns (outcome: Outcome<JobError>)
      requires jobID in store.jobs
      modifies store
      ensures outcome.Pass? <==> env.through(4) && env.through(5)
      ensures store.State() == StoreBuiltLeaves(old(store.State()), jobID, Some(plan), env)
    {
      var done := store.UpdateJob(jobID, JobPaused, "dry-run-ready", env.clock(4), env.through(4));
      if done.Fail? {
        return Fail(StoreRefused(done.error));
      }
      done := store.AppendEvent(jobID, DryRunReady(plan), env.clock(5), env.through(5));
      outcome := if done.Fail? then Fail(StoreRefused(done.error)) else Pass;
    }

    /** Marks the job failed and logs it, ignoring errors. */
    method GiveUp(jobID: string, env: Surroundings)
      requires jobID in store.jobs
      modifies store
      ensures store.State() == StoreBuiltLeaves(old(store.State()), jobID, None, env)
    {
      var done := store.UpdateJob(jobID, JobFailed, "plan", env.clock(4), env.through(4));
      done := store.AppendEvent(jobID, PlanFailed, env.clock(5), env.through(5));
    }

    /** The end of a request for a plan, whose dry-run was built or not. */
    method StoreBuilt(jobID: string, dry: Result<MigrationPlan, PlanError>, env: Surroundings)
      returns (result: Result<MigrationPlan, JobError>)
      requires jobID in store.jobs
      modifies store
      ensures result.Success? <==> dry.Success? && env.through(4) && env.through(5)
      ensures result.Success? ==> result.value == dry.value
      ensures dry.Failure? ==> result == Failure(DryRunFailed(dry.error))
      ensures store.State() ==
        StoreBuiltLeaves(old(store.State()), jobID, if dry.Success? then Some(dry.value) else None, env)
    {
      if dry.Failure? {
        GiveUp(jobID, env);
        return Failure(DryRunFailed(dry.error));
      }
      var outcome := StoreDryRun(jobID, dry.value, env);
      return if outcome.Fail? then Failure(outcome.error) else Success(dry.value);
    }

    /** Builds the dry-run; its reads are one call. */
    method BuildDryRun(source: string, target: string, planID: string, now: string, io: bool)
      returns (dry: Result<MigrationPlan, PlanError>)
      ensures (if dry.Success? then Some(dry.value) else None) ==
        Dry(adapter.db, adapter.allowedHashes, source, target, planID, now, io)
    {
      dry := adapter.BuildRetargetPlan(source, target, planID, now);
      if !io {
        return Failure(ListingFailed);
      }
    }

    /** A request for a plan with a known mode. */
    method PlanKnown(
      source: string, target: string, mode: string, jobID: string, planID: string, health: Option<bool>,
      env: Surroundings, ghost built: Option<MigrationPlan>)
      returns (result: Result<MigrationPlan, JobError>)
      requires built == Dry(
        adapter.db, adapter.allowedHashes, source, target, planID, env.clock(3), env.through(3))
      modifies store
      ensures result.Success? <==>
        && jobID !in old(store.jobs) && built.Some?
        && env.through(0) && env.through(1) && env.through(4) && env.through(5)
      ensures result.Success? ==> Some(result.value) == built
      ensures store.State() == PlanLeaves(old(store.State()), jobID, source, target, mode, health, built, env)
    {
      var outcome := Open(Job(jobID, source, target, mode, JobPending, "", "", ""), health, env);
      if outcome.Fail? {
        return Failure(outcome.error);
      }
      var dry := BuildDryRun(source, target, planID, env.clock(3), env.through(3));
      result := StoreBuilt(jobID, dry, env);
    }

    /** Creates a durable dry-run job. `jobID` and `planID` come from the clock, `health`
        from the Dokploy API if one is configured. `built` is the dry-run, if it can be
        built and its reads get through. The request succeeds exactly when the mode is
        known, the job id is free, the dry-run is built, and the other calls get through,
        save that for the health event, which may fail. An unknown mode changes nothing. The
        job and its log are left as far as the calls got through. */
    method Plan(
      rawSource: string, rawTarget: string, rawMode: string, jobID: string, planID: string, health: Option<bool>,
      env: Surroundings)
      returns (result: Result<MigrationPlan, JobError>, ghost built: Option<MigrationPlan>)
      modifies store
      ensures built == Dry(
        adapter.db, adapter.allowedHashes, TrimSpace(rawSource), TrimSpace(rawTarget), planID, env.clock(3), env.through(3))
      ensures result.Success? <==>
        && KnownMode(rawMode) && jobID !in old(store.jobs) && built.Some?
        && env.through(0) && env.through(1) && env.through(4) && env.through(5)
      ensures result.Success? ==> Some(result.value) == built
      ensures !KnownMode(rawMode) ==> result == Failure(UnsupportedMode) && store.State() == old(store.State())
      ensures KnownMode(rawMode) ==>
        store.State() == PlanLeaves(old(store.State()), jobID, TrimSpace(rawSource), TrimSpace(rawTarget),
          if rawMode == "" then "dead_recovery" else rawMode, health, built, env)
      ensures KnownMode(rawMode) ==>
        store.jobs ==
          if jobID in old(store.jobs) || !env.through(0) then old(store.jobs)
          else
            var marked := env.through(1) && env.through(4);
            old(store.jobs)[jobID := Job(jobID, TrimSpace(rawSource), TrimSpace(rawTarget),
              if rawMode == "" then "dead_recovery" else rawMode,
              if !marked then JobPending else if built.Some? then JobPaused else JobFailed,
              if !marked then "" else if built.Some? then "dry-run-ready" else "plan",
              env.clock(0), if marked then env.clock(4) else env.clock(0))]
      ensures KnownMode(rawMode) && jobID !in old(store.jobs) && env.through(0) && env.through(1) ==>
        var n := old(store.lastEventID);
        var mode := if rawMode == "" then "dead_recovery" else rawMode;
        var first := old(store.events)[n + 1 := Event(n + 1, jobID, JobCreated(mode), env.clock(1))];
        var checked := health.Some? && env.through(2);
        var second :=
          if checked then first[n + 2 := Event(n + 2, jobID, HealthChecked(health.value), env.clock(2))] else first;
        var m := if checked then n + 2 else n + 1;
        if env.through(5) && (built.None? || env.through(4)) then
          var last := if built.Some? then DryRunReady(built.value) else PlanFailed;
          && store.events == second[m + 1 := Event(m + 1, jobID, last, env.clock(5))]
          && store.lastEventID == m + 1
        else
          store.events == second && store.lastEventID == m
      ensures !(KnownMode(rawMode) && jobID !in old(store.jobs) && env.through(0) && env.through(1)) ==>
        store.events == old(store.events) && store.lastEventID == old(store.lastEventID)
      ensures store.reports == old(store.reports)
    {
      var source, target := TrimSpace(rawSource), TrimSpace(rawTarget);
      built := Dry(adapter.db, adapter.allowedHashes, source, target, planID, env.clock(3), env.through(3));
      var normalized := NormalizeMode(rawMode);
      if normalized.None? {
        return Failure(UnsupportedMode), built;
      }
      PlanLeavesJob(store.State(), jobID, source, target, normalized.value, health, built, env);
      PlanLeavesLog(store.State(), jobID, source, target, normalized.value, health, built, env);
      result := PlanKnown(source, target, normalized.value, jobID, planID, health, env, built);
    }

    // ------------------------------------------------------------ the machine

    /** An apply is a run of the machine, whatever happens: from any world that the store and
        the database mirror, steps of one operation lead to the world they mirror then. */
    method ApplyAsRun(
      jobID: string, plan: MigrationPlan, approval: string, confirmation: string, env: Surroundings,
      ghost w: World, ghost k: nat)
      returns (outcome: Outcome<JobError>, ghost trace: seq<Action>)
      requires Mirrors(w) && k !in w.ops
      modifies store, adapter`db
      ensures Mirrors(Exec(w, trace)) && Exec(w, trace).ops == w.ops
    {
      ghost var accepted, tx;
      outcome, accepted, tx := Apply(jobID, plan, approval, confirmation, env);
      trace := [];
      if accepted {
        trace := ApplyRuns(w, k, jobID, plan, approval, env, tx);
      }
    }

    /** So is a rollback. */
    method RollbackAsRun(
      jobID: string, plan: MigrationPlan, approval: string, env: Surroundings, ghost w: World, ghost k: nat)
      returns (outcome: Outcome<JobError>, ghost trace: seq<Action>)
      requires Mirrors(w) && k !in w.ops
      modifies store, adapter`db
      ensures Mirrors(Exec(w, trace)) && Exec(w, trace).ops == w.ops
    {
      ghost var accepted, tx;
      outcome, accepted, tx := Rollback(jobID, plan, approval, env);
      trace := [];
      if accepted {
        trace := RollbackRuns(w, k, jobID, plan, approval, env, tx);
      }
    }

    /** And a request for a plan, under a job id that is not a deleted job's. */
    method PlanAsRun(
      rawSource: string, rawTarget: string, rawMode: string, jobID: string, planID: string, health: Option<bool>,
      env: Surroundings, ghost w: World, ghost k: nat)
      returns (result: Result<MigrationPlan, JobError>, ghost trace: seq<Action>)
      requires Mirrors(w) && k !in w.ops && !Retired(w, jobID)
      modifies store
      ensures Mirrors(Exec(w, trace)) && Exec(w, trace).ops == w.ops
    {
      ghost var built;
      result, built := Plan(rawSource, rawTarget, rawMode, jobID, planID, health, env);
      trace := [];
      if KnownMode(rawMode) {
        trace := PlanRuns(w, k, jobID, rawSource, rawTarget,
          if rawMode == "" then "dead_recovery" else rawMode, health, planID, env, built);
      }
    }
  }
}
