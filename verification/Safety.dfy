/** What every run of the machine keeps: job identity, the stored dry-runs, and what
    may be written. */
module Safety {
  import opened Wrappers
  import opened Text
  import opened Model
  import opened Tables
  import opened Retarget
  import opened PlanSubset
  import opened Store
  import opened History
  import opened Listing
  import opened Machine

  // -------------------------------------------------------------- one statement

  /** What an operation's statement is about. */
  predicate EffectFits(op: Op, effect: Effect) {
    && (effect.Insert? ==>
        && op.Planning? && op.planStep.Create?
        && effect.job.id == op.jobID && effect.job.sourceServerID == op.source
        && effect.job.targetServerID == op.target && effect.job.status == JobPending)
    && (op.Planning? && op.planStep.Create? ==> effect.Insert?)
    && (effect.Status? ==> effect.id == op.jobID)
    && (effect.Status? && effect.status == JobSucceeded ==> op.Writing? && op.kind.Apply? && op.step.MarkDone?)
    && (effect.Status? && effect.status == JobRolledBack ==> op.Writing? && op.kind.Rollback? && op.step.MarkDone?)
    && (effect.Status? && effect.status == JobPaused ==> op.Planning? && op.planStep.MarkReady?)
    && (effect.Status? && op.Writing? && op.step.MarkRunning? ==> effect.status == JobRunning)
    && (effect.Status? && op.Writing? && op.step.MarkFailed? ==> effect.status == JobFailed)
    && (effect.Log? ==> effect.jobID == op.jobID)
    && (op.Planning? && op.planStep.LogReady? ==> effect == Log(op.jobID, DryRunReady(op.planStep.plan)))
    && (effect.Log? && effect.message.DryRunReady? ==> op.Planning? && op.planStep.LogReady?)
    && (effect.SaveReport? ==>
        op.Writing? && op.step.WriteReport? && effect == SaveReport(op.jobID, Report(op.jobID, op.plan)))
    && (op.Writing? && op.step.LogIntent? ==> effect == Log(op.jobID, Intent(op.kind, |op.plan.rows|)))
    && (op.Writing? && op.step.MarkRunning? ==> effect.Status?)
    && (op.Writing? && op.step.LogDone? ==> effect.Log?)
    && (op.Writing? && op.step.WriteReport? ==> effect.SaveReport?)
  }

  /** What stays of an operation from one step to the next. */
  predicate Continues(op: Op, next: Op) {
    match op
    case Planning(jobID, source, target, _, _, step) =>
      && next.Planning? && next.jobID == jobID && next.source == source && next.target == target
      && !next.planStep.Create?
      && !next.planStep.MarkReady?
      && (next.planStep.LogReady? ==> step.MarkReady? && next.planStep.plan == step.plan)
      && !step.LogReady?
    case Writing(kind, jobID, plan, approval, audit, step) =>
      && next.Writing? && next.kind == kind && next.jobID == jobID && next.plan == plan && next.approval == approval
      && (step.LogIntent? || next.audit == audit)
      && match next.step {
        case LogIntent => step.MarkRunning?
        case Transact => step.LogIntent?
        case LogDone => step.WriteReport?
        case MarkDone => step.LogDone?
        case LogFailed => step.MarkFailed?
        case _ => false
      }
  }

  lemma EffectOfFits(op: Op)
    ensures EffectFits(op, EffectOf(op))
  {
  }

  /** Steps that issue a statement. */
  predicate IssuesStatement(op: Op) {
    match op
    case Planning(_, _, _, _, _, step) => !step.ReadDokploy?
    case Writing(_, _, _, _, _, step) => !step.CheckJob? && !step.CheckDryRun? && !step.Transact?
  }

  lemma OutcomeContinues(op: Op, eventID: nat)
    requires IssuesStatement(op)
    ensures OnSuccess(op, eventID).Some? ==> Continues(op, OnSuccess(op, eventID).value)
    ensures OnFailure(op).Some? ==> Continues(op, OnFailure(op).value)
  {
  }

  /** What one statement can do to the store. */
  ghost predicate StoreMoves(s: Snapshot, after: Snapshot, effect: Effect) {
    && Consistent(after)
    && s.lastEventID <= after.lastEventID
    && JobsMove(s, after, effect)
    && EventsMove(s, after, effect)
    && ReportsMove(s, after, effect)
  }

  ghost predicate JobsMove(s: Snapshot, after: Snapshot, effect: Effect) {
    && (forall id <- s.jobs ::
      && id in after.jobs
      && after.jobs[id].sourceServerID == s.jobs[id].sourceServerID
      && after.jobs[id].targetServerID == s.jobs[id].targetServerID
      && after.jobs[id].status == (if effect.Status? && effect.id == id then effect.status else s.jobs[id].status))
    && (forall id <- after.jobs | id !in s.jobs ::
      && effect.Insert? && effect.job.id == id
      && after.jobs[id].sourceServerID == effect.job.sourceServerID
      && after.jobs[id].targetServerID == effect.job.targetServerID
      && after.jobs[id].status == effect.job.status)
  }

  ghost predicate EventsMove(s: Snapshot, after: Snapshot, effect: Effect) {
    && (forall e <- s.events :: e in after.events && after.events[e] == s.events[e])
    && (forall e <- after.events | e !in s.events ::
      && effect.Log? && e == after.lastEventID
      && after.events[e].jobID == effect.jobID && after.events[e].message == effect.message)
    && (effect.Log? ==>
      && after.lastEventID == s.lastEventID + 1 && after.lastEventID in after.events
      && after.events[after.lastEventID].jobID == effect.jobID
      && after.events[after.lastEventID].message == effect.message)
  }

  ghost predicate ReportsMove(s: Snapshot, after: Snapshot, effect: Effect) {
    && (forall id <- s.reports | !(effect.SaveReport? && effect.jobID == id) ::
      id in after.reports && after.reports[id] == s.reports[id])
    && (effect.SaveReport? ==> effect.jobID in after.reports && after.reports[effect.jobID] == effect.report)
  }

  lemma RunMoves(s: Snapshot, effect: Effect, now: string)
    requires Consistent(s) && Run(s, effect, now).Success?
    ensures StoreMoves(s, Run(s, effect, now).value, effect)
  {
    RunMovesEvents(s, effect, now);
    RunMovesJobs(s, effect, now);
  }

  lemma RunMovesEvents(s: Snapshot, effect: Effect, now: string)
    requires Consistent(s) && Run(s, effect, now).Success?
    ensures EventsMove(s, Run(s, effect, now).value, effect) && s.lastEventID <= Run(s, effect, now).value.lastEventID
  {
  }

  lemma RunMovesJobs(s: Snapshot, effect: Effect, now: string)
    requires Consistent(s) && Run(s, effect, now).Success?
    ensures JobsMove(s, Run(s, effect, now).value, effect)
  {
  }

  /** A statement step as a change of the store and of the operation. */
  ghost predicate StepShape(
    w: World, k: nat, after: World, ok: bool, effect: Effect, store: Snapshot, next: Option<Op>)
    requires k in w.ops
  {
    var op := w.ops[k];
    && EffectFits(op, effect)
    && (ok ==> StoreMoves(w.store, store, effect))
    && (!ok ==> store == w.store)
    && (ok && effect.Insert? ==> op.jobID !in w.requests)
    && (next.Some? ==> Continues(op, next.value))
    && (next.Some? && op.Writing? && !ok ==> next.value.step.LogFailed?)
    && (next.Some? && op.Planning? && op.planStep.Create? ==> ok)
    && (next.Some? && op.Writing? && op.step.LogIntent? ==> next.value.audit == store.lastEventID)
    && after == w.(
      store := store,
      ops := Put(w.ops, k, next),
      requests := if ok && effect.Insert? then w.requests[op.jobID := (op.source, op.target)] else w.requests,
      dryRuns :=
        if ok && op.Planning? && op.planStep.LogReady?
        then w.dryRuns[op.jobID := DryRun(store.lastEventID, op.planStep.plan)]
        else w.dryRuns)
  }

  lemma StoreStepShape(w: World, k: nat, io: bool, now: string)
    returns (ok: bool, effect: Effect, store: Snapshot, next: Option<Op>)
    requires k in w.ops && Consistent(w.store) && IssuesStatement(w.ops[k]) && Possible(w, w.ops[k])
    ensures StepShape(w, k, StoreStep(w, k, io, now), ok, effect, store, next)
  {
    var op := w.ops[k];
    effect := EffectOf(op);
    EffectOfFits(op);
    var result := if io then Run(w.store, effect, now) else Failure(StoreError.StorageFailed);
    ok := result.Success?;
    if ok {
      RunMoves(w.store, effect, now);
      store := result.value;
      next := OnSuccess(op, store.lastEventID);
    } else {
      store := w.store;
      next := OnFailure(op);
    }
    OutcomeContinues(op, store.lastEventID);
  }

  lemma StatementStep(
    w: World, k: nat, io: bool, now: string, built: Option<MigrationPlan>, valid: bool, tx: Option<Dokploy>)
    requires k in w.ops && IssuesStatement(w.ops[k])
    ensures StepWith(w, k, io, now, built, valid, tx) == StoreStep(w, k, io, now)
  {
  }

  // -------------------------------------------------------------- job identity

  /** A planning operation that has created its job works for the servers the job was
      created for, has stored no dry-run yet, and will store one that goes that way. */
  predicate PlanningFits(w: World, op: Op)
    requires op.Planning?
  {
    && Trimmed(op.source) && Trimmed(op.target)
    && (!op.planStep.Create? ==>
      op.jobID in w.requests && w.requests[op.jobID] == (op.source, op.target) && op.jobID !in w.dryRuns)
    && (op.planStep.MarkReady? || op.planStep.LogReady? ==>
        op.planStep.plan.sourceServerID == op.source && op.planStep.plan.targetServerID == op.target)
  }

  predicate Created(w: World, k: nat) {
    k in w.ops && w.ops[k].Planning? && !w.ops[k].planStep.Create?
  }

  ghost predicate PlanningsFit(w: World) {
    && (forall k <- w.ops | w.ops[k].Planning? :: PlanningFits(w, w.ops[k]))
    && (forall k: nat, l: nat | Created(w, k) && Created(w, l) && w.ops[k].jobID == w.ops[l].jobID :: k == l)
  }

  /** The servers of a job and of its dry-run are those the job was created for. */
  ghost predicate Identified(w: World) {
    && (forall id <- w.store.jobs ::
      id in w.requests && w.requests[id] == (w.store.jobs[id].sourceServerID, w.store.jobs[id].targetServerID))
    && (forall id <- w.dryRuns ::
      && id in w.requests
      && w.requests[id] == (w.dryRuns[id].plan.sourceServerID, w.dryRuns[id].plan.targetServerID))
  }

  /** Every dry-run event in the store is the recorded dry-run of its job. */
  ghost predicate EventsRecorded(s: Snapshot, dryRuns: map<string, DryRun>) {
    forall e <- s.events | s.events[e].message.DryRunReady? ::
      && s.events[e].jobID in dryRuns
      && dryRuns[s.events[e].jobID] == DryRun(e, s.events[e].message.plan)
  }

  /** The recorded dry-run of every job still there is in the store. */
  ghost predicate RecordsStored(s: Snapshot, dryRuns: map<string, DryRun>) {
    forall id <- dryRuns ::
      && dryRuns[id].eventID <= s.lastEventID
      && (id in s.jobs ==>
        && dryRuns[id].eventID in s.events
        && s.events[dryRuns[id].eventID].jobID == id
        && s.events[dryRuns[id].eventID].message == DryRunReady(dryRuns[id].plan))
  }

  ghost predicate DryRunsStored(w: World) {
    EventsRecorded(w.store, w.dryRuns) && RecordsStored(w.store, w.dryRuns)
  }

  ghost predicate Planned(w: World) {
    Consistent(w.store) && PlanningsFit(w) && Identified(w) && DryRunsStored(w)
  }

  /** What a built plan says about its servers. */
  predicate BuiltFits(op: Op, built: Option<MigrationPlan>) {
    op.Planning? && built.Some? ==>
      built.value.sourceServerID == op.source && built.value.targetServerID == op.target
  }

  lemma StatementKeepsPlannings(
    w: World, k: nat, after: World, ok: bool, effect: Effect, store: Snapshot, next: Option<Op>)
    requires Planned(w) && k in w.ops && StepShape(w, k, after, ok, effect, store, next)
    ensures PlanningsFit(after)
  {
    forall l <- after.ops | after.ops[l].Planning? ensures PlanningFits(after, after.ops[l]) {
      assert PlanningFits(w, w.ops[l]);
      assert w.ops[k].Planning? ==> PlanningFits(w, w.ops[k]);
    }
    forall l: nat | Created(after, l)
      ensures after.ops[l].jobID == w.ops[l].jobID
      ensures l != k ==> Created(w, l) && w.ops[l].jobID in w.requests
      ensures l == k ==> Created(w, k) || w.ops[k].jobID !in w.requests
    {
      assert l != k ==> PlanningFits(w, w.ops[l]);
    }
  }

  lemma StatementKeepsIdentity(
    w: World, k: nat, after: World, ok: bool, effect: Effect, store: Snapshot, next: Option<Op>)
    requires Planned(w) && k in w.ops && StepShape(w, k, after, ok, effect, store, next)
    ensures Identified(after)
  {
    assert w.ops[k].Planning? ==> PlanningFits(w, w.ops[k]);
    forall id <- after.store.jobs
      ensures id in after.requests
      ensures after.requests[id] == (after.store.jobs[id].sourceServerID, after.store.jobs[id].targetServerID)
    {
      assert id !in w.store.jobs ==> ok && effect.Insert? && id == w.ops[k].jobID;
    }
  }

  /** A statement that stores no dry-run. */
  lemma OtherStatementKeepsDryRuns(s: Snapshot, after: Snapshot, effect: Effect, dryRuns: map<string, DryRun>)
    requires EventsRecorded(s, dryRuns) && RecordsStored(s, dryRuns)
    requires StoreMoves(s, after, effect) && !(effect.Log? && effect.message.DryRunReady?)
    requires effect.Insert? ==> effect.job.id !in dryRuns
    ensures EventsRecorded(after, dryRuns) && RecordsStored(after, dryRuns)
  {
    forall id <- dryRuns | id in after.jobs ensures id in s.jobs {
    }
  }

  /** The statement that stores the job's first dry-run. */
  lemma FirstDryRunStored(
    s: Snapshot, after: Snapshot, jobID: string, plan: MigrationPlan, dryRuns: map<string, DryRun>)
    requires EventsRecorded(s, dryRuns) && RecordsStored(s, dryRuns)
    requires Consistent(s) && StoreMoves(s, after, Log(jobID, DryRunReady(plan))) && jobID !in dryRuns
    ensures EventsRecorded(after, dryRuns[jobID := DryRun(after.lastEventID, plan)])
    ensures RecordsStored(after, dryRuns[jobID := DryRun(after.lastEventID, plan)])
  {
    forall e <- after.events | e !in s.events ensures e == after.lastEventID {
    }
    forall id <- dryRuns | id in after.jobs ensures id in s.jobs {
    }
  }

  lemma StatementKeepsDryRuns(
    w: World, k: nat, after: World, ok: bool, effect: Effect, store: Snapshot, next: Option<Op>)
    requires Planned(w) && k in w.ops && StepShape(w, k, after, ok, effect, store, next)
    ensures DryRunsStored(after)
  {
    var op := w.ops[k];
    assert op.Planning? ==> PlanningFits(w, op);
    if ok {
      if op.Planning? && op.planStep.LogReady? {
        FirstDryRunStored(w.store, store, op.jobID, op.planStep.plan, w.dryRuns);
      } else {
        OtherStatementKeepsDryRuns(w.store, store, effect, w.dryRuns);
      }
    }
  }

  lemma StatementKeepsPlanned(w: World, k: nat, io: bool, now: string)
    requires Planned(w) && k in w.ops && IssuesStatement(w.ops[k]) && Possible(w, w.ops[k])
    ensures Planned(StoreStep(w, k, io, now))
  {
    var ok, effect, store, next := StoreStepShape(w, k, io, now);
    var after := StoreStep(w, k, io, now);
    StatementKeepsPlannings(w, k, after, ok, effect, store, next);
    StatementKeepsIdentity(w, k, after, ok, effect, store, next);
    StatementKeepsDryRuns(w, k, after, ok, effect, store, next);
  }

  /** The remaining steps leave the store, the requests and the dry-runs alone. */
  lemma OtherStepKeepsPlanned(w: World, k: nat, after: World)
    requires Planned(w) && k in w.ops
    requires after.store == w.store && after.requests == w.requests && after.dryRuns == w.dryRuns
    requires forall l <- after.ops | l != k :: l in w.ops && after.ops[l] == w.ops[l]
    requires k in after.ops && after.ops[k].Planning? ==>
      Created(w, k) && after.ops[k].jobID == w.ops[k].jobID && PlanningFits(after, after.ops[k])
    ensures Planned(after)
  {
    forall l <- after.ops | after.ops[l].Planning? ensures PlanningFits(after, after.ops[l]) {
      assert l != k ==> PlanningFits(w, w.ops[l]);
    }
    forall l: nat | Created(after, l) ensures Created(w, l) && after.ops[l].jobID == w.ops[l].jobID {
    }
  }

  lemma StepKeepsPlanned(
    w: World, k: nat, io: bool, now: string, built: Option<MigrationPlan>, valid: bool, tx: Option<Dokploy>)
    requires Planned(w) && k in w.ops && BuiltFits(w.ops[k], built) && Possible(w, w.ops[k])
    ensures Planned(StepWith(w, k, io, now, built, valid, tx))
  {
    if IssuesStatement(w.ops[k]) {
      StatementKeepsPlanned(w, k, io, now);
      StatementStep(w, k, io, now, built, valid, tx);
    } else {
      ReadStepShape(w, k, io, now, built, valid, tx);
      OtherStepKeepsPlanned(w, k, StepWith(w, k, io, now, built, valid, tx));
    }
  }

  /** A step that issues no statement leaves the store and the records of planning alone. */
  lemma ReadStepShape(
    w: World, k: nat, io: bool, now: string, built: Option<MigrationPlan>, valid: bool, tx: Option<Dokploy>)
    requires PlanningsFit(w) && k in w.ops && !IssuesStatement(w.ops[k]) && BuiltFits(w.ops[k], built)
    ensures var after := StepWith(w, k, io, now, built, valid, tx);
      && after.store == w.store && after.requests == w.requests && after.dryRuns == w.dryRuns
      && (forall l <- after.ops | l != k :: l in w.ops && after.ops[l] == w.ops[l])
      && (k in after.ops && after.ops[k].Planning? ==>
          Created(w, k) && after.ops[k].jobID == w.ops[k].jobID && PlanningFits(after, after.ops[k]))
  {
    assert w.ops[k].Planning? ==> PlanningFits(w, w.ops[k]);
  }

  // -------------------------------------------------------------- all actions

  /** A built plan goes between the operation's servers. */
  lemma BuiltPlanFits(w: World, op: Op, planID: string, now: string)
    requires op.Planning? ==> Trimmed(op.source) && Trimmed(op.target)
    ensures BuiltFits(op, Built(w, op, planID, now))
  {
  }

  lemma StartPlanKeepsPlanned(
    w: World, k: nat, jobID: string, source: string, target: string, mode: string, health: Option<bool>)
    requires Planned(w) && k !in w.ops && Trimmed(source) && Trimmed(target)
    ensures Planned(StartPlan(w, k, jobID, source, target, mode, health))
  {
    var after := StartPlan(w, k, jobID, source, target, mode, health);
    forall l <- after.ops | after.ops[l].Planning?
      ensures PlanningFits(after, after.ops[l])
    {
      assert l != k ==> PlanningFits(w, w.ops[l]);
    }
    forall l: nat | Created(after, l) ensures Created(w, l) && after.ops[l] == w.ops[l] {
    }
  }

  lemma StartWriteKeepsPlanned(w: World, k: nat, kind: Kind, jobID: string, plan: MigrationPlan, approval: string)
    requires Planned(w) && k !in w.ops
    ensures Planned(StartWrite(w, k, kind, jobID, plan, approval))
  {
    var after := StartWrite(w, k, kind, jobID, plan, approval);
    forall l <- after.ops | after.ops[l].Planning? ensures PlanningFits(after, after.ops[l]) {
      assert PlanningFits(w, w.ops[l]);
    }
    forall l: nat | Created(after, l) ensures Created(w, l) && after.ops[l] == w.ops[l] {
    }
  }

  lemma CrashKeepsPlanned(w: World, k: nat)
    requires Planned(w)
    ensures Planned(w.(ops := w.ops - {k}))
  {
    var after := w.(ops := w.ops - {k});
    forall l: nat | Created(after, l) ensures Created(w, l) && after.ops[l] == w.ops[l] {
    }
  }

  lemma DeleteKeepsPlanned(w: World, id: string)
    requires Planned(w) && id in w.store.jobs
    ensures Planned(w.(store := RemoveJob(w.store, id).value))
  {
    var after := w.(store := RemoveJob(w.store, id).value);
    forall k <- after.ops | after.ops[k].Planning? ensures PlanningFits(after, after.ops[k]) {
      assert PlanningFits(w, w.ops[k]);
    }
    forall l: nat | Created(after, l) ensures Created(w, l) {
    }
  }

  lemma NextKeepsPlanned(w: World, action: Action)
    requires Planned(w)
    ensures Planned(Next(w, action))
  {
    match action
    case BeginPlan(k, jobID, rawSource, rawTarget, mode, health) =>
      TrimSpaceIsTrimmed(rawSource);
      TrimSpaceIsTrimmed(rawTarget);
      if k !in w.ops {
        StartPlanKeepsPlanned(w, k, jobID, TrimSpace(rawSource), TrimSpace(rawTarget), mode, health);
      }
    case BeginWrite(k, kind, jobID, plan, approval, _) =>
      if k !in w.ops {
        StartWriteKeepsPlanned(w, k, kind, jobID, plan, approval);
      }
    case Advance(k, io, now, planID) =>
      if k in w.ops && Possible(w, w.ops[k]) {
        var op := w.ops[k];
        assert op.Planning? ==> PlanningFits(w, op);
        BuiltPlanFits(w, op, planID, now);
        StepKeepsPlanned(w, k, io, now, Built(w, op, planID, now),
          op.Writing? && StoredDryRunAccepts(EventsOf(w.store, op.jobID), op.plan), Transaction(w, op));
      }
    case Crash(k) =>
      CrashKeepsPlanned(w, k);
    case Delete(id) =>
      if Keyed(w.store.jobs) && Deletable(w.store.jobs, id) {
        DeleteKeepsPlanned(w, id);
      }
  }

  lemma {:induction false} RunsKeepPlanned(dok: Dokploy, allowed: set<string>, actions: seq<Action>)
    ensures Planned(Exec(Init(dok, allowed), actions))
    decreases |actions|
  {
    if actions != [] {
      RunsKeepPlanned(dok, allowed, actions[..|actions| - 1]);
      NextKeepsPlanned(Exec(Init(dok, allowed), actions[..|actions| - 1]), actions[|actions| - 1]);
    }
  }
}
