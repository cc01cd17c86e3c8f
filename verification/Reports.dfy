/** What a job's status tells at every point of every run: a succeeded job has a report;
    and unless two writes of the job ran at once, a succeeded job's last committed write
    is an apply and the report is of its plan, a rolled back job's last committed write
    is a rollback, and a job is running while a write of it is between its first and its
    last status. */
module Reports {
  import opened Wrappers
  import Text
  import opened Model
  import opened Tables
  import opened PlanSubset
  import opened Store
  import opened History
  import opened Machine
  import opened Safety
  import opened Audit

  /** The last committed write of a job. */
  function LastCommit(commits: seq<Commit>, jobID: string): Option<Commit> {
    if commits == [] then None
    else if commits[|commits| - 1].jobID == jobID then Some(commits[|commits| - 1])
    else LastCommit(commits[..|commits| - 1], jobID)
  }

  lemma LastCommitAppend(commits: seq<Commit>, c: Commit, jobID: string)
    ensures LastCommit(commits + [c], jobID) == if c.jobID == jobID then Some(c) else LastCommit(commits, jobID)
  {
    assert (commits + [c])[..|commits|] == commits;
  }

  predicate Succeeded(s: Snapshot, id: string) {
    id in s.jobs && s.jobs[id].status == JobSucceeded
  }

  /** An apply that has saved its report finds it there. */
  predicate HasReport(w: World, op: Op)
    requires op.Writing?
  {
    && (op.step.WriteReport? ==> op.kind.Apply?)
    && ((op.step.LogDone? || op.step.MarkDone?) && op.kind.Apply? && op.jobID in w.store.jobs ==>
        op.jobID in w.store.reports)
  }

  ghost predicate Reported(w: World) {
    && (forall id <- w.store.jobs | Succeeded(w.store, id) :: id in w.store.reports)
    && (forall k <- w.ops | w.ops[k].Writing? :: HasReport(w, w.ops[k]))
  }

  /** No other write runs on the job of a write that never overlapped. */
  ghost predicate Alone(w: World) {
    forall k <- w.ops, l <- w.ops |
      w.ops[k].Writing? && w.ops[l].Writing? && w.ops[k].jobID == w.ops[l].jobID && w.ops[k].jobID !in w.overlapped ::
      k == l
  }

  /** The write that committed last is the one in hand. */
  predicate JustCommitted(w: World, op: Op)
    requires op.Writing?
  {
    match LastCommit(w.commits, op.jobID)
    case None => false
    case Some(c) => c.kind == op.kind && c.plan == op.plan
  }

  /** From the moment a write has marked its job running. */
  predicate AtWork(step: WriteStep) {
    !step.CheckJob? && !step.CheckDryRun? && !step.MarkRunning?
  }

  predicate InHand(w: World, op: Op)
    requires op.Writing?
  {
    && (AtWork(op.step) && op.jobID in w.store.jobs ==>
      || w.store.jobs[op.jobID].status == JobRunning
      || (op.step.LogFailed? && w.store.jobs[op.jobID].status == JobFailed))
    && (op.step.WriteReport? || op.step.LogDone? || op.step.MarkDone? ==> JustCommitted(w, op))
    && ((op.step.LogDone? || op.step.MarkDone?) && op.kind.Apply? && op.jobID in w.store.jobs ==>
      op.jobID in w.store.reports && w.store.reports[op.jobID] == Report(op.jobID, op.plan))
  }

  /** The report is that of the last committed write, an apply. */
  predicate ReportsLastApply(w: World, id: string) {
    match LastCommit(w.commits, id)
    case None => false
    case Some(c) => c.kind.Apply? && id in w.store.reports && w.store.reports[id] == Report(id, c.plan)
  }

  predicate LastIsRollback(w: World, id: string) {
    match LastCommit(w.commits, id)
    case None => false
    case Some(c) => c.kind.Rollback?
  }

  /** What the status of a job tells about its last committed write. */
  predicate Told(w: World, id: string)
    requires id in w.store.jobs
  {
    && (w.store.jobs[id].status == JobSucceeded ==> ReportsLastApply(w, id))
    && (w.store.jobs[id].status == JobRolledBack ==> LastIsRollback(w, id))
  }

  ghost predicate Settled(w: World) {
    && Alone(w)
    && (forall k <- w.ops | w.ops[k].Writing? && w.ops[k].jobID !in w.overlapped :: InHand(w, w.ops[k]))
    && (forall id <- w.store.jobs | id !in w.overlapped :: Told(w, id))
  }

  // -------------------------------------------------------------- statements

  /** A job is not created once a write on it has passed its checks. */
  lemma NoLateCreate(w: World, k: nat, l: nat, effect: Effect)
    requires Planned(w) && Audited(w) && k in w.ops && l in w.ops && EffectFits(w.ops[k], effect) && effect.Insert?
    requires w.ops[k].jobID !in w.requests
    requires w.ops[l].Writing? && AtWork(w.ops[l].step)
    ensures effect.job.id != w.ops[l].jobID
  {
    assert WritingFits(w, w.ops[l]);
    assert (w.ops[l].jobID, w.ops[l].plan) in w.accepted;
  }

  /** While a lone write is at work, no other operation sets its job's status. */
  lemma NoForeignStatus(w: World, k: nat, l: nat, effect: Effect)
    requires Planned(w) && Audited(w) && Alone(w) && k in w.ops && l in w.ops && k != l
    requires EffectFits(w.ops[k], effect) && effect.Status?
    requires w.ops[l].Writing? && AtWork(w.ops[l].step) && w.ops[l].jobID !in w.overlapped
    ensures effect.id != w.ops[l].jobID
  {
    assert WritingFits(w, w.ops[l]);
    assert (w.ops[l].jobID, w.ops[l].plan) in w.accepted;
    assert w.ops[k].Planning? ==> PlanningFits(w, w.ops[k]);
  }

  lemma OtherStatementKeepsReport(w: World, op: Op, effect: Effect, store: Snapshot, after: World)
    requires op.Writing? && HasReport(w, op)
    requires StoreMoves(w.store, store, effect) && after.store == store
    requires effect.Insert? && AtWork(op.step) ==> effect.job.id != op.jobID
    ensures HasReport(after, op)
  {
  }

  lemma OwnStatementKeepsReport(w: World, op: Op, effect: Effect, store: Snapshot, after: World, next: Op)
    requires op.Writing? && HasReport(w, op) && EffectFits(op, effect) && Continues(op, next) && IssuesStatement(op)
    requires StoreMoves(w.store, store, effect) && after.store == store
    ensures HasReport(after, next)
  {
  }

  lemma StatementKeepsHasReport(
    w: World, k: nat, l: nat, after: World, ok: bool, effect: Effect, store: Snapshot, next: Option<Op>)
    requires Planned(w) && Audited(w) && Reported(w) && k in w.ops && IssuesStatement(w.ops[k])
    requires StepShape(w, k, after, ok, effect, store, next)
    requires l in after.ops && after.ops[l].Writing?
    ensures HasReport(after, after.ops[l])
  {
    assert w.ops[l].Writing? && HasReport(w, w.ops[l]);
    if ok && l == k {
      OwnStatementKeepsReport(w, w.ops[k], effect, store, after, next.value);
    } else if ok {
      if effect.Insert? && AtWork(w.ops[l].step) {
        NoLateCreate(w, k, l, effect);
      }
      OtherStatementKeepsReport(w, w.ops[l], effect, store, after);
    }
  }

  /** No statement takes a report away, and only an insert makes a job. */
  lemma ReportsStay(s: Snapshot, after: Snapshot, effect: Effect)
    requires StoreMoves(s, after, effect)
    ensures forall id <- s.reports :: id in after.reports
    ensures forall id <- after.jobs | id !in s.jobs :: effect.Insert? && effect.job.id == id
  {
  }

  lemma StatementKeepsReported(
    w: World, k: nat, after: World, ok: bool, effect: Effect, store: Snapshot, next: Option<Op>)
    requires Planned(w) && Audited(w) && Reported(w) && k in w.ops && IssuesStatement(w.ops[k])
    requires StepShape(w, k, after, ok, effect, store, next)
    ensures Reported(after)
  {
    forall l <- after.ops | after.ops[l].Writing? ensures HasReport(after, after.ops[l]) {
      StatementKeepsHasReport(w, k, l, after, ok, effect, store, next);
    }
    assert w.ops[k].Writing? ==> HasReport(w, w.ops[k]);
    if ok {
      ReportsStay(w.store, store, effect);
    }
  }

  /** A statement of another operation leaves a lone write's job as it needs it. */
  lemma OtherStatementKeepsInHand(w: World, op: Op, effect: Effect, store: Snapshot, after: World)
    requires op.Writing? && InHand(w, op)
    requires StoreMoves(w.store, store, effect) && after.store == store && after.commits == w.commits
    requires effect.Insert? && AtWork(op.step) ==> effect.job.id != op.jobID
    requires effect.Status? && AtWork(op.step) ==> effect.id != op.jobID
    requires effect.SaveReport? ==> effect.jobID != op.jobID
    ensures InHand(after, op)
  {
  }

  lemma OwnStatementKeepsInHand(w: World, op: Op, effect: Effect, store: Snapshot, after: World, next: Op)
    requires op.Writing? && InHand(w, op) && EffectFits(op, effect) && Continues(op, next)
    requires StoreMoves(w.store, store, effect) && after.store == store && after.commits == w.commits
    requires IssuesStatement(op)
    ensures InHand(after, next)
  {
  }

  lemma FailedStatementKeepsInHand(w: World, op: Op, after: World, next: Op)
    requires op.Writing? && InHand(w, op) && Continues(op, next) && next.step.LogFailed?
    requires after.store == w.store && after.commits == w.commits
    ensures InHand(after, next)
  {
  }

  lemma OwnStepKeepsInHand(
    w: World, k: nat, after: World, ok: bool, effect: Effect, store: Snapshot, next: Option<Op>)
    requires k in w.ops && w.ops[k].Writing? && InHand(w, w.ops[k]) && IssuesStatement(w.ops[k])
    requires StepShape(w, k, after, ok, effect, store, next) && k in after.ops
    ensures InHand(after, after.ops[k])
  {
    if ok {
      OwnStatementKeepsInHand(w, w.ops[k], effect, store, after, next.value);
    } else {
      FailedStatementKeepsInHand(w, w.ops[k], after, next.value);
    }
  }

  lemma OtherStepKeepsInHand(
    w: World, k: nat, l: nat, after: World, ok: bool, effect: Effect, store: Snapshot, next: Option<Op>)
    requires Planned(w) && Audited(w) && Alone(w) && k in w.ops && l in w.ops && l != k
    requires w.ops[l].Writing? && w.ops[l].jobID !in w.overlapped && InHand(w, w.ops[l])
    requires StepShape(w, k, after, ok, effect, store, next)
    ensures InHand(after, w.ops[l])
  {
    var op := w.ops[l];
    if ok {
      if effect.Insert? && AtWork(op.step) {
        NoLateCreate(w, k, l, effect);
      } else if effect.Status? && AtWork(op.step) {
        NoForeignStatus(w, k, l, effect);
      }
      OtherStatementKeepsInHand(w, op, effect, store, after);
    }
  }

  lemma StatementKeepsInHand(
    w: World, k: nat, l: nat, after: World, ok: bool, effect: Effect, store: Snapshot, next: Option<Op>)
    requires Planned(w) && Audited(w) && Settled(w) && k in w.ops && IssuesStatement(w.ops[k])
    requires StepShape(w, k, after, ok, effect, store, next)
    requires l in after.ops && after.ops[l].Writing? && after.ops[l].jobID !in w.overlapped
    ensures InHand(after, after.ops[l])
  {
    assert w.ops[l].Writing? && InHand(w, w.ops[l]);
    if l == k {
      OwnStepKeepsInHand(w, k, after, ok, effect, store, next);
    } else {
      OtherStepKeepsInHand(w, k, l, after, ok, effect, store, next);
    }
  }

  lemma StatementKeepsTold(
    w: World, k: nat, id: string, after: World, ok: bool, effect: Effect, store: Snapshot, next: Option<Op>)
    requires Planned(w) && Settled(w) && k in w.ops && IssuesStatement(w.ops[k])
    requires StepShape(w, k, after, ok, effect, store, next)
    requires id in after.store.jobs && id !in w.overlapped
    ensures Told(after, id)
  {
    assert w.ops[k].Writing? && w.ops[k].jobID !in w.overlapped ==> InHand(w, w.ops[k]);
    if ok && effect.Status? && effect.id == id {
      assert w.ops[k].jobID == id;
    } else if id in w.store.jobs {
      assert Told(w, id);
    }
  }

  lemma StatementKeepsSettled(
    w: World, k: nat, after: World, ok: bool, effect: Effect, store: Snapshot, next: Option<Op>)
    requires Planned(w) && Audited(w) && Settled(w) && k in w.ops && IssuesStatement(w.ops[k])
    requires StepShape(w, k, after, ok, effect, store, next)
    ensures Settled(after)
  {
    forall l <- after.ops | after.ops[l].Writing? && after.ops[l].jobID !in after.overlapped
      ensures InHand(after, after.ops[l])
    {
      StatementKeepsInHand(w, k, l, after, ok, effect, store, next);
    }
    forall id <- after.store.jobs | id !in after.overlapped ensures Told(after, id) {
      StatementKeepsTold(w, k, id, after, ok, effect, store, next);
    }
  }

  // -------------------------------------------------------------- other steps

  lemma TransactionKeepsSettled(
    w: World, k: nat, io: bool, now: string, built: Option<MigrationPlan>, valid: bool, tx: Option<Dokploy>)
    requires Reported(w) && Settled(w) && Transacting(w, k)
    ensures Reported(StepWith(w, k, io, now, built, valid, tx))
    ensures Settled(StepWith(w, k, io, now, built, valid, tx))
  {
    var op, after := w.ops[k], StepWith(w, k, io, now, built, valid, tx);
    assert HasReport(w, op);
    assert op.jobID !in w.overlapped ==> InHand(w, op);
    var c := Commit(op.kind, op.jobID, op.plan, op.approval, op.audit);
    forall id: string ensures LastCommit(w.commits + [c], id) == if id == c.jobID then Some(c) else LastCommit(w.commits, id) {
      LastCommitAppend(w.commits, c, id);
    }
    forall l <- after.ops | after.ops[l].Writing?
      ensures HasReport(after, after.ops[l])
      ensures after.ops[l].jobID !in after.overlapped ==> InHand(after, after.ops[l])
    {
      assert l != k ==> HasReport(w, w.ops[l]);
      assert l != k && w.ops[l].jobID !in w.overlapped ==> InHand(w, w.ops[l]) && w.ops[l].jobID != op.jobID;
    }
    forall id <- after.store.jobs | id !in after.overlapped ensures Told(after, id) {
      assert Told(w, id);
    }
  }

  /** A step that only moves one operation on, before it marks its job running. */
  lemma QuietStepKeepsSettled(w: World, k: nat, after: World)
    requires Reported(w) && Settled(w) && k in w.ops
    requires after.store == w.store && after.commits == w.commits && after.overlapped == w.overlapped
    requires forall l <- after.ops | l != k :: l in w.ops && after.ops[l] == w.ops[l]
    requires k in after.ops && after.ops[k].Writing? ==>
      && w.ops[k].Writing? && after.ops[k].jobID == w.ops[k].jobID
      && (after.ops[k].step.CheckDryRun? || after.ops[k].step.MarkRunning?)
    ensures Reported(after) && Settled(after)
  {
    forall l <- after.ops | after.ops[l].Writing?
      ensures HasReport(after, after.ops[l])
      ensures after.ops[l].jobID !in after.overlapped ==> InHand(after, after.ops[l])
    {
      assert l != k ==> HasReport(w, w.ops[l]);
      assert l != k && w.ops[l].jobID !in w.overlapped ==> InHand(w, w.ops[l]);
    }
    forall id <- after.store.jobs | id !in after.overlapped ensures Told(after, id) {
      assert Told(w, id);
    }
  }

  lemma CheckKeepsSettled(
    w: World, k: nat, io: bool, now: string, built: Option<MigrationPlan>, valid: bool, tx: Option<Dokploy>)
    requires Reported(w) && Settled(w) && k in w.ops && !IssuesStatement(w.ops[k]) && !Transacting(w, k)
    ensures Reported(StepWith(w, k, io, now, built, valid, tx))
    ensures Settled(StepWith(w, k, io, now, built, valid, tx))
  {
    QuietStepKeepsSettled(w, k, StepWith(w, k, io, now, built, valid, tx));
  }

  lemma StatementStepKeepsSettled(w: World, k: nat, io: bool, now: string)
    requires Planned(w) && Audited(w) && Reported(w) && Settled(w)
    requires k in w.ops && IssuesStatement(w.ops[k]) && Possible(w, w.ops[k])
    ensures Reported(StoreStep(w, k, io, now)) && Settled(StoreStep(w, k, io, now))
  {
    var ok, effect, store, next := StoreStepShape(w, k, io, now);
    StatementKeepsReported(w, k, StoreStep(w, k, io, now), ok, effect, store, next);
    StatementKeepsSettled(w, k, StoreStep(w, k, io, now), ok, effect, store, next);
  }

  lemma StepKeepsSettled(
    w: World, k: nat, io: bool, now: string, built: Option<MigrationPlan>, valid: bool, tx: Option<Dokploy>)
    requires Planned(w) && Audited(w) && Reported(w) && Settled(w) && k in w.ops && Possible(w, w.ops[k])
    ensures Reported(StepWith(w, k, io, now, built, valid, tx))
    ensures Settled(StepWith(w, k, io, now, built, valid, tx))
  {
    if IssuesStatement(w.ops[k]) {
      StatementStepKeepsSettled(w, k, io, now);
      StatementStep(w, k, io, now, built, valid, tx);
    } else if Transacting(w, k) {
      TransactionKeepsSettled(w, k, io, now, built, valid, tx);
    } else {
      CheckKeepsSettled(w, k, io, now, built, valid, tx);
    }
  }

  lemma StartWriteKeepsSettled(w: World, k: nat, kind: Kind, jobID: string, plan: MigrationPlan, approval: string)
    requires Reported(w) && Settled(w) && k !in w.ops
    ensures Reported(StartWrite(w, k, kind, jobID, plan, approval))
    ensures Settled(StartWrite(w, k, kind, jobID, plan, approval))
  {
    var after := StartWrite(w, k, kind, jobID, plan, approval);
    forall l <- after.ops | after.ops[l].Writing?
      ensures HasReport(after, after.ops[l])
      ensures after.ops[l].jobID !in after.overlapped ==> InHand(after, after.ops[l])
    {
      assert l != k ==> HasReport(w, w.ops[l]);
      assert l != k && w.ops[l].jobID !in w.overlapped ==> InHand(w, w.ops[l]);
    }
    assert Alone(after) by {
      forall l <- w.ops | w.ops[l].Writing? && w.ops[l].jobID == jobID ensures jobID in after.overlapped {
        assert Busy(w, jobID);
      }
    }
    forall id <- after.store.jobs | id !in after.overlapped ensures Told(after, id) {
      assert Told(w, id);
    }
  }

  lemma StartPlanKeepsSettled(
    w: World, k: nat, jobID: string, source: string, target: string, mode: string, health: Option<bool>)
    requires Reported(w) && Settled(w) && k !in w.ops
    ensures Reported(StartPlan(w, k, jobID, source, target, mode, health))
    ensures Settled(StartPlan(w, k, jobID, source, target, mode, health))
  {
    var after := StartPlan(w, k, jobID, source, target, mode, health);
    forall l <- after.ops | after.ops[l].Writing?
      ensures HasReport(after, after.ops[l])
      ensures after.ops[l].jobID !in after.overlapped ==> InHand(after, after.ops[l])
    {
      assert HasReport(w, w.ops[l]);
      assert w.ops[l].jobID !in w.overlapped ==> InHand(w, w.ops[l]);
    }
    forall id <- after.store.jobs | id !in after.overlapped ensures Told(after, id) {
      assert Told(w, id);
    }
  }

  lemma DeleteKeepsSettled(w: World, id: string)
    requires Reported(w) && Settled(w) && id in w.store.jobs
    ensures Reported(w.(store := RemoveJob(w.store, id).value))
    ensures Settled(w.(store := RemoveJob(w.store, id).value))
  {
    var after := w.(store := RemoveJob(w.store, id).value);
    forall l <- after.ops | after.ops[l].Writing?
      ensures HasReport(after, after.ops[l])
      ensures after.ops[l].jobID !in after.overlapped ==> InHand(after, after.ops[l])
    {
      assert HasReport(w, w.ops[l]);
      assert w.ops[l].jobID !in w.overlapped ==> InHand(w, w.ops[l]);
    }
    forall other <- after.store.jobs | other !in after.overlapped ensures Told(after, other) {
      assert Told(w, other);
    }
  }

  lemma AdvanceKeepsSettled(w: World, k: nat, io: bool, now: string, planID: string)
    requires Planned(w) && Audited(w) && Reported(w) && Settled(w) && k in w.ops && Possible(w, w.ops[k])
    ensures Reported(Step(w, k, io, now, planID)) && Settled(Step(w, k, io, now, planID))
  {
    var op := w.ops[k];
    StepKeepsSettled(w, k, io, now, Built(w, op, planID, now),
      op.Writing? && StoredDryRunAccepts(EventsOf(w.store, op.jobID), op.plan), Transaction(w, op));
  }

  lemma CrashKeepsSettled(w: World, k: nat)
    requires Reported(w) && Settled(w)
    ensures Reported(w.(ops := w.ops - {k})) && Settled(w.(ops := w.ops - {k}))
  {
    if k in w.ops {
      QuietStepKeepsSettled(w, k, w.(ops := w.ops - {k}));
    } else {
      assert w.ops - {k} == w.ops;
    }
  }

  lemma NextKeepsSettled(w: World, action: Action)
    requires Planned(w) && Audited(w) && Reported(w) && Settled(w)
    ensures Reported(Next(w, action)) && Settled(Next(w, action))
  {
    match action
    case BeginPlan(k, jobID, rawSource, rawTarget, mode, health) =>
      if k !in w.ops {
        StartPlanKeepsSettled(w, k, jobID, Text.TrimSpace(rawSource), Text.TrimSpace(rawTarget), mode, health);
      }
    case BeginWrite(k, kind, jobID, plan, approval, _) =>
      if k !in w.ops {
        StartWriteKeepsSettled(w, k, kind, jobID, plan, approval);
      }
    case Advance(k, io, now, planID) =>
      if k in w.ops && Possible(w, w.ops[k]) {
        AdvanceKeepsSettled(w, k, io, now, planID);
      }
    case Crash(k) =>
      CrashKeepsSettled(w, k);
    case Delete(id) =>
      if id in w.store.jobs {
        DeleteKeepsSettled(w, id);
      }
  }

  lemma {:induction false} RunsKeepSettled(dok: Dokploy, allowed: set<string>, actions: seq<Action>)
    ensures Reported(Exec(Init(dok, allowed), actions)) && Settled(Exec(Init(dok, allowed), actions))
    decreases |actions|
  {
    if actions != [] {
      var front := actions[..|actions| - 1];
      RunsKeepAudited(dok, allowed, front);
      RunsKeepSettled(dok, allowed, front);
      NextKeepsSettled(Exec(Init(dok, allowed), front), actions[|actions| - 1]);
    }
  }

  // -------------------------------------------------------------- main results

  /** At every point of every run, a job marked succeeded has a report; if two writes
      of the job never ran at once, its last committed write is an apply and the report
      is of exactly that plan. */
  lemma SucceededJobsAreReported(dok: Dokploy, allowed: set<string>, actions: seq<Action>, id: string)
    requires Succeeded(Exec(Init(dok, allowed), actions).store, id)
    ensures id in Exec(Init(dok, allowed), actions).store.reports
    ensures id !in Exec(Init(dok, allowed), actions).overlapped ==>
      var w := Exec(Init(dok, allowed), actions);
      && LastCommit(w.commits, id).Some?
      && LastCommit(w.commits, id).value.kind == Apply
      && w.store.reports[id] == Report(id, LastCommit(w.commits, id).value.plan)
  {
    RunsKeepSettled(dok, allowed, actions);
    var w := Exec(Init(dok, allowed), actions);
    if id !in w.overlapped {
      assert Told(w, id);
    }
  }

  /** At every point of every run, the last committed write of a job marked rolled back
      is a rollback, if two writes of the job never ran at once. */
  lemma RolledBackJobsWereRolledBack(dok: Dokploy, allowed: set<string>, actions: seq<Action>, id: string)
    requires id in Exec(Init(dok, allowed), actions).store.jobs
    requires Exec(Init(dok, allowed), actions).store.jobs[id].status == JobRolledBack
    requires id !in Exec(Init(dok, allowed), actions).overlapped
    ensures var last := LastCommit(Exec(Init(dok, allowed), actions).commits, id); last.Some? && last.value.kind.Rollback?
  {
    RunsKeepSettled(dok, allowed, actions);
    assert Told(Exec(Init(dok, allowed), actions), id);
  }

  // -------------------------------------------------------------- overlaps

  predicate WritesTwice(w: World, id: string, k: nat, l: nat) {
    && k in w.ops && l in w.ops && k != l
    && w.ops[k].Writing? && w.ops[l].Writing? && w.ops[k].jobID == id && w.ops[l].jobID == id
  }

  lemma StepKeepsOverlaps(
    w: World, k: nat, io: bool, now: string, built: Option<MigrationPlan>, valid: bool, tx: Option<Dokploy>)
    requires k in w.ops
    ensures StepWith(w, k, io, now, built, valid, tx).overlapped == w.overlapped
  {
  }

  lemma NewOverlapIsReal(w: World, action: Action, id: string) returns (k: nat, l: nat)
    requires id in Next(w, action).overlapped && id !in w.overlapped
    ensures WritesTwice(Next(w, action), id, k, l)
  {
    k, l := 0, 0;
    match action
    case BeginWrite(op, _, jobID, _, _, _) =>
      k := op;
      l :| l in w.ops && w.ops[l].Writing? && w.ops[l].jobID == jobID;
    case Advance(op, io, now, planID) =>
      if op in w.ops {
        StepKeepsOverlaps(w, op, io, now, Built(w, w.ops[op], planID, now),
          w.ops[op].Writing? && StoredDryRunAccepts(EventsOf(w.store, w.ops[op].jobID), w.ops[op].plan),
          Transaction(w, w.ops[op]));
      }
    case _ =>
  }

  /** A job counts as overlapped only if at some point of the run two writes of it ran at once. */
  lemma {:induction false} OverlapWasReal(dok: Dokploy, allowed: set<string>, actions: seq<Action>, id: string)
    returns (n: nat, k: nat, l: nat)
    requires id in Exec(Init(dok, allowed), actions).overlapped
    ensures n <= |actions| && WritesTwice(Exec(Init(dok, allowed), actions[..n]), id, k, l)
    decreases |actions|
  {
    var front := actions[..|actions| - 1];
    if id in Exec(Init(dok, allowed), front).overlapped {
      n, k, l := OverlapWasReal(dok, allowed, front, id);
      assert front[..n] == actions[..n];
    } else {
      n := |actions|;
      assert actions[..n] == actions;
      k, l := NewOverlapIsReal(Exec(Init(dok, allowed), front), actions[|actions| - 1], id);
    }
  }
}
