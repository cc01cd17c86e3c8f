/** Write-ahead audit: whatever reaches the Dokploy database was reviewed in a stored
    dry-run and announced in the job's log before. */
module Audit {
  import opened Wrappers
  import opened Model
  import opened Tables
  import opened Retarget
  import opened PlanSubset
  import opened Store
  import opened Machine
  import opened Safety
  import opened Authority

  /** Every plan that passed the checks is reviewed by the job's dry-run. */
  ghost predicate AcceptedFits(w: World) {
    forall a <- w.accepted :: a.0 in w.dryRuns && Reviews(w.dryRuns[a.0].plan, a.1)
  }

  /** The event `audit` announces this write, behind the job's dry-run event. */
  predicate Announced(
    s: Snapshot, dryRuns: map<string, DryRun>, kind: Kind, jobID: string, plan: MigrationPlan, audit: nat)
  {
    && jobID in dryRuns
    && dryRuns[jobID].eventID < audit <= s.lastEventID
    && (jobID in s.jobs ==>
      && audit in s.events
      && s.events[audit].jobID == jobID
      && s.events[audit].message == Intent(kind, |plan.rows|))
  }

  /** A write that got past its checks was accepted, and announced before it transacts. */
  predicate WritingFits(w: World, op: Op)
    requires op.Writing?
  {
    && (!op.step.CheckJob? && !op.step.CheckDryRun? ==> (op.jobID, op.plan) in w.accepted)
    && (op.step.Transact? ==> Announced(w.store, w.dryRuns, op.kind, op.jobID, op.plan, op.audit))
  }

  predicate CommitFits(w: World, c: Commit) {
    (c.jobID, c.plan) in w.accepted && Announced(w.store, w.dryRuns, c.kind, c.jobID, c.plan, c.audit)
  }

  predicate Transacting(w: World, k: nat) {
    k in w.ops && w.ops[k].Writing? && w.ops[k].step.Transact?
  }

  /** Each announcement stands for at most one transaction. */
  ghost predicate AuditsDiffer(w: World) {
    && (forall i, j | 0 <= i < j < |w.commits| :: w.commits[i].audit != w.commits[j].audit)
    && (forall i, k: nat | 0 <= i < |w.commits| && Transacting(w, k) :: w.commits[i].audit != w.ops[k].audit)
    && (forall k: nat, l: nat | Transacting(w, k) && Transacting(w, l) && w.ops[k].audit == w.ops[l].audit :: k == l)
  }

  ghost predicate Audited(w: World) {
    && AcceptedFits(w)
    && (forall k <- w.ops | w.ops[k].Writing? :: WritingFits(w, w.ops[k]))
    && (forall i | 0 <= i < |w.commits| :: CommitFits(w, w.commits[i]))
    && AuditsDiffer(w)
  }

  // -------------------------------------------------------------- statements

  lemma StatementKeepsAnnounced(
    s: Snapshot, after: Snapshot, effect: Effect, dryRuns: map<string, DryRun>, next: map<string, DryRun>,
    kind: Kind, jobID: string, plan: MigrationPlan, audit: nat)
    requires Announced(s, dryRuns, kind, jobID, plan, audit) && StoreMoves(s, after, effect)
    requires effect.Insert? ==> effect.job.id !in dryRuns
    requires jobID in next && next[jobID] == dryRuns[jobID]
    ensures Announced(after, next, kind, jobID, plan, audit)
  {
  }

  /** What a statement step does to the records. */
  lemma StatementFrame(w: World, k: nat, after: World, ok: bool, effect: Effect, store: Snapshot, next: Option<Op>)
    requires Planned(w) && k in w.ops && StepShape(w, k, after, ok, effect, store, next)
    ensures after.commits == w.commits && after.accepted == w.accepted
    ensures ok && effect.Insert? ==> effect.job.id !in w.dryRuns
    ensures forall id <- w.dryRuns :: id in after.dryRuns && after.dryRuns[id] == w.dryRuns[id]
  {
    assert w.ops[k].Planning? ==> PlanningFits(w, w.ops[k]);
  }

  lemma StatementKeepsOthers(
    w: World, k: nat, l: nat, after: World, ok: bool, effect: Effect, store: Snapshot, next: Option<Op>)
    requires Planned(w) && Audited(w) && k in w.ops && StepShape(w, k, after, ok, effect, store, next)
    requires l in after.ops && l != k && after.ops[l].Writing?
    ensures WritingFits(after, after.ops[l])
  {
    StatementFrame(w, k, after, ok, effect, store, next);
    var op := w.ops[l];
    assert WritingFits(w, op);
    if ok && op.step.Transact? {
      StatementKeepsAnnounced(w.store, store, effect, w.dryRuns, after.dryRuns, op.kind, op.jobID, op.plan, op.audit);
    }
  }

  lemma StatementKeepsCommit(
    w: World, k: nat, i: nat, after: World, ok: bool, effect: Effect, store: Snapshot, next: Option<Op>)
    requires Planned(w) && Audited(w) && k in w.ops && StepShape(w, k, after, ok, effect, store, next)
    requires i < |after.commits|
    ensures CommitFits(after, after.commits[i])
  {
    StatementFrame(w, k, after, ok, effect, store, next);
    var c := w.commits[i];
    assert CommitFits(w, c);
    if ok {
      StatementKeepsAnnounced(w.store, store, effect, w.dryRuns, after.dryRuns, c.kind, c.jobID, c.plan, c.audit);
    }
  }

  lemma StatementKeepsOwn(
    w: World, k: nat, after: World, ok: bool, effect: Effect, store: Snapshot, next: Option<Op>)
    requires Planned(w) && Audited(w) && k in w.ops && StepShape(w, k, after, ok, effect, store, next)
    requires IssuesStatement(w.ops[k]) && w.ops[k].Writing? && next.Some?
    ensures WritingFits(after, next.value)
  {
    var op := w.ops[k];
    assert WritingFits(w, op);
    StatementFrame(w, k, after, ok, effect, store, next);
    if next.value.step.Transact? {
      assert (op.jobID, op.plan) in w.accepted;
      assert w.dryRuns[op.jobID].eventID <= w.store.lastEventID;
    }
  }

  /** An announcement gets an event id that no transaction was announced by. */
  lemma StatementKeepsAudits(
    w: World, k: nat, after: World, ok: bool, effect: Effect, store: Snapshot, next: Option<Op>)
    requires Planned(w) && Audited(w) && k in w.ops && StepShape(w, k, after, ok, effect, store, next)
    requires IssuesStatement(w.ops[k])
    ensures AuditsDiffer(after)
  {
    StatementFrame(w, k, after, ok, effect, store, next);
    forall l: nat | Transacting(after, l)
      ensures if l == k then after.ops[l].audit == w.store.lastEventID + 1
              else Transacting(w, l) && after.ops[l] == w.ops[l] && w.ops[l].audit <= w.store.lastEventID
    {
      AuditAfterStatement(w, k, l, after, ok, effect, store, next);
    }
    forall i | 0 <= i < |w.commits| ensures w.commits[i].audit <= w.store.lastEventID {
      assert CommitFits(w, w.commits[i]);
    }
    FreshAuditDiffers(w, k, after);
  }

  lemma AuditAfterStatement(
    w: World, k: nat, l: nat, after: World, ok: bool, effect: Effect, store: Snapshot, next: Option<Op>)
    requires Audited(w) && k in w.ops && StepShape(w, k, after, ok, effect, store, next)
    requires IssuesStatement(w.ops[k]) && Transacting(after, l)
    ensures if l == k then after.ops[l].audit == w.store.lastEventID + 1
            else Transacting(w, l) && after.ops[l] == w.ops[l] && w.ops[l].audit <= w.store.lastEventID
  {
    if l == k {
      assert effect.Log?;
    } else {
      assert WritingFits(w, w.ops[l]);
    }
  }

  lemma FreshAuditDiffers(w: World, k: nat, after: World)
    requires AuditsDiffer(w) && after.commits == w.commits
    requires forall i | 0 <= i < |w.commits| :: w.commits[i].audit <= w.store.lastEventID
    requires forall l: nat | Transacting(after, l) ::
      if l == k then after.ops[l].audit == w.store.lastEventID + 1
      else Transacting(w, l) && after.ops[l] == w.ops[l] && w.ops[l].audit <= w.store.lastEventID
    ensures AuditsDiffer(after)
  {
  }

  lemma StatementKeepsAudited(w: World, k: nat, io: bool, now: string)
    requires Planned(w) && Audited(w) && k in w.ops && IssuesStatement(w.ops[k]) && Possible(w, w.ops[k])
    ensures Audited(StoreStep(w, k, io, now))
  {
    var ok, effect, store, next := StoreStepShape(w, k, io, now);
    var after := StoreStep(w, k, io, now);
    StatementFrame(w, k, after, ok, effect, store, next);
    StatementKeepsAudits(w, k, after, ok, effect, store, next);
    forall l <- after.ops | after.ops[l].Writing? ensures WritingFits(after, after.ops[l]) {
      if l == k {
        StatementKeepsOwn(w, k, after, ok, effect, store, next);
      } else {
        StatementKeepsOthers(w, k, l, after, ok, effect, store, next);
      }
    }
    forall i | 0 <= i < |after.commits| ensures CommitFits(after, after.commits[i]) {
      StatementKeepsCommit(w, k, i, after, ok, effect, store, next);
    }
    AcceptedStays(w, after);
  }

  lemma AcceptedStays(w: World, after: World)
    requires AcceptedFits(w) && after.accepted == w.accepted
    requires forall id <- w.dryRuns :: id in after.dryRuns && after.dryRuns[id] == w.dryRuns[id]
    ensures AcceptedFits(after)
  {
    forall a <- after.accepted ensures a.0 in after.dryRuns && Reviews(after.dryRuns[a.0].plan, a.1) {
      assert a.0 in w.dryRuns && Reviews(w.dryRuns[a.0].plan, a.1);
    }
  }

  // -------------------------------------------------------------- other steps

  /** The verdict of the dry-run check. */
  predicate VerdictFits(w: World, op: Op, valid: bool) {
    valid ==> op.Writing? && op.jobID in w.dryRuns && Reviews(w.dryRuns[op.jobID].plan, op.plan)
  }

  lemma StoredVerdictFits(w: World, op: Op)
    requires Planned(w)
    ensures VerdictFits(w, op, op.Writing? && StoredDryRunAccepts(EventsOf(w.store, op.jobID), op.plan))
  {
    var events := EventsOf(w.store, op.jobID);
    EventsOfExact(w.store, op.jobID);
    if op.jobID in w.dryRuns && op.Writing? {
      AcceptedByOnlyDryRun(events, w.dryRuns[op.jobID].plan, op.plan);
    } else if op.Writing? {
      forall event <- events ensures !event.message.DryRunReady? {
        assert event.id in w.store.events;
      }
      AcceptedByOnlyDryRun(events, op.plan, op.plan);
    }
  }

  lemma AcceptedGrows(w: World, after: World, jobID: string, plan: MigrationPlan)
    requires AcceptedFits(w) && after.accepted == w.accepted + {(jobID, plan)} && after.dryRuns == w.dryRuns
    requires jobID in w.dryRuns && Reviews(w.dryRuns[jobID].plan, plan)
    ensures AcceptedFits(after)
  {
    forall a <- after.accepted ensures a.0 in after.dryRuns && Reviews(after.dryRuns[a.0].plan, a.1) {
      assert a in w.accepted || a == (jobID, plan);
    }
  }

  /** A step that only moves one operation on, past its checks if its plan was accepted. */
  lemma QuietStepKeepsAudited(w: World, k: nat, after: World)
    requires Audited(w)
    requires after.store == w.store && after.commits == w.commits && after.dryRuns == w.dryRuns
    requires w.accepted <= after.accepted && AcceptedFits(after)
    requires forall l <- after.ops | l != k :: l in w.ops && after.ops[l] == w.ops[l]
    requires k in after.ops && after.ops[k].Writing? ==>
      && !after.ops[k].step.Transact?
      && (after.ops[k].step.CheckDryRun? || (after.ops[k].jobID, after.ops[k].plan) in after.accepted)
    ensures Audited(after)
  {
    forall l: nat | Transacting(after, l) ensures l != k && Transacting(w, l) && after.ops[l] == w.ops[l] {
    }
    forall l <- after.ops | after.ops[l].Writing? ensures WritingFits(after, after.ops[l]) {
      assert l != k ==> WritingFits(w, w.ops[l]);
    }
    forall i | 0 <= i < |after.commits| ensures CommitFits(after, after.commits[i]) {
      assert CommitFits(w, w.commits[i]);
    }
  }

  lemma CheckKeepsAudited(
    w: World, k: nat, io: bool, now: string, built: Option<MigrationPlan>, valid: bool, tx: Option<Dokploy>)
    requires Audited(w) && k in w.ops && VerdictFits(w, w.ops[k], valid)
    requires !IssuesStatement(w.ops[k]) && !Transacting(w, k)
    ensures Audited(StepWith(w, k, io, now, built, valid, tx))
  {
    var op, after := w.ops[k], StepWith(w, k, io, now, built, valid, tx);
    if op.Writing? && op.step.CheckDryRun? && io && valid {
      AcceptedGrows(w, after, op.jobID, op.plan);
    } else {
      AcceptedStays(w, after);
    }
    QuietStepKeepsAudited(w, k, after);
  }

  lemma TransactionKeepsAudited(
    w: World, k: nat, io: bool, now: string, built: Option<MigrationPlan>, valid: bool, tx: Option<Dokploy>)
    requires Audited(w) && Transacting(w, k)
    ensures Audited(StepWith(w, k, io, now, built, valid, tx))
  {
    var after := StepWith(w, k, io, now, built, valid, tx);
    assert WritingFits(w, w.ops[k]);
    forall l: nat | Transacting(after, l) ensures l != k && Transacting(w, l) && after.ops[l] == w.ops[l] {
    }
    forall l <- after.ops | after.ops[l].Writing? ensures WritingFits(after, after.ops[l]) {
      assert WritingFits(w, w.ops[l]);
    }
    forall i | 0 <= i < |after.commits| ensures CommitFits(after, after.commits[i]) {
      assert i < |w.commits| ==> CommitFits(w, w.commits[i]);
    }
  }

  lemma StepKeepsAudited(
    w: World, k: nat, io: bool, now: string, built: Option<MigrationPlan>, valid: bool, tx: Option<Dokploy>)
    requires Planned(w) && Audited(w) && k in w.ops && VerdictFits(w, w.ops[k], valid) && Possible(w, w.ops[k])
    ensures Audited(StepWith(w, k, io, now, built, valid, tx))
  {
    if IssuesStatement(w.ops[k]) {
      StatementKeepsAudited(w, k, io, now);
    } else if Transacting(w, k) {
      TransactionKeepsAudited(w, k, io, now, built, valid, tx);
    } else {
      CheckKeepsAudited(w, k, io, now, built, valid, tx);
    }
  }

  /** An action that runs no step of an operation. */
  lemma OtherActionKeepsAudited(w: World, after: World)
    requires Planned(w) && Audited(w)
    requires after.commits == w.commits && after.accepted == w.accepted && after.dryRuns == w.dryRuns
    requires after.store.lastEventID == w.store.lastEventID
    requires forall id <- after.store.jobs :: id in w.store.jobs
    requires forall e <- w.store.events | w.store.events[e].jobID in after.store.jobs ::
      e in after.store.events && after.store.events[e] == w.store.events[e]
    requires forall k <- after.ops ::
      (k in w.ops && after.ops[k] == w.ops[k]) || after.ops[k].Planning? || after.ops[k].step.CheckJob?
    ensures Audited(after)
  {
    forall l <- after.ops | after.ops[l].Writing? ensures WritingFits(after, after.ops[l]) {
      assert l in w.ops && w.ops[l].Writing? ==> WritingFits(w, w.ops[l]);
    }
    forall i | 0 <= i < |after.commits| ensures CommitFits(after, after.commits[i]) {
      assert CommitFits(w, w.commits[i]);
    }
    forall l: nat | Transacting(after, l) ensures Transacting(w, l) && after.ops[l] == w.ops[l] {
    }
    AcceptedStays(w, after);
  }

  lemma OtherActionShape(w: World, action: Action)
    requires Consistent(w.store) && !action.Advance?
    ensures var after := Next(w, action);
      && after.commits == w.commits && after.accepted == w.accepted && after.dryRuns == w.dryRuns
      && after.store.lastEventID == w.store.lastEventID
      && (forall id <- after.store.jobs :: id in w.store.jobs)
      && (forall e <- w.store.events | w.store.events[e].jobID in after.store.jobs ::
          e in after.store.events && after.store.events[e] == w.store.events[e])
      && (forall k <- after.ops ::
          (k in w.ops && after.ops[k] == w.ops[k]) || after.ops[k].Planning? || after.ops[k].step.CheckJob?)
  {
  }

  lemma AdvanceKeepsAudited(w: World, k: nat, io: bool, now: string, planID: string)
    requires Planned(w) && Audited(w) && k in w.ops && Possible(w, w.ops[k])
    ensures Audited(Step(w, k, io, now, planID))
  {
    var op := w.ops[k];
    StoredVerdictFits(w, op);
    StepKeepsAudited(w, k, io, now, Built(w, op, planID, now),
      op.Writing? && StoredDryRunAccepts(EventsOf(w.store, op.jobID), op.plan), Transaction(w, op));
  }

  lemma NextKeepsAudited(w: World, action: Action)
    requires Planned(w) && Audited(w)
    ensures Audited(Next(w, action))
  {
    if action.Advance? {
      if action.op in w.ops && Possible(w, w.ops[action.op]) {
        AdvanceKeepsAudited(w, action.op, action.io, action.now, action.planID);
      }
    } else {
      OtherActionShape(w, action);
      OtherActionKeepsAudited(w, Next(w, action));
    }
  }

  lemma {:induction false} RunsKeepAudited(dok: Dokploy, allowed: set<string>, actions: seq<Action>)
    ensures Planned(Exec(Init(dok, allowed), actions)) && Audited(Exec(Init(dok, allowed), actions))
    decreases |actions|
  {
    RunsKeepPlanned(dok, allowed, actions);
    if actions != [] {
      RunsKeepAudited(dok, allowed, actions[..|actions| - 1]);
      NextKeepsAudited(Exec(Init(dok, allowed), actions[..|actions| - 1]), actions[|actions| - 1]);
    }
  }

  // -------------------------------------------------------------- main results

  /** At every point of every run, each committed write of a job still there stands
      behind two events of that job's log: first the dry-run that reviewed its plan,
      then the announcement of this very write. No two commits share an announcement. */
  lemma CommitsAreAnnounced(dok: Dokploy, allowed: set<string>, actions: seq<Action>, i: nat)
    requires i < |Exec(Init(dok, allowed), actions).commits|
    requires Exec(Init(dok, allowed), actions).commits[i].jobID in Exec(Init(dok, allowed), actions).store.jobs
    ensures var w := Exec(Init(dok, allowed), actions);
      var c := w.commits[i];
      exists e <- w.store.events ::
        && w.store.events[e].jobID == c.jobID
        && w.store.events[e].message.DryRunReady?
        && Reviews(w.store.events[e].message.plan, c.plan)
        && e < c.audit
    ensures var w := Exec(Init(dok, allowed), actions);
      var c := w.commits[i];
      && c.audit in w.store.events
      && w.store.events[c.audit].jobID == c.jobID
      && w.store.events[c.audit].message ==
           (if c.kind.Apply? then Applying(|c.plan.rows|) else RollingBack(|c.plan.rows|))
      && forall j | 0 <= j < |w.commits| && j != i :: w.commits[j].audit != c.audit
  {
    RunsKeepAudited(dok, allowed, actions);
    var w := Exec(Init(dok, allowed), actions);
    var c := w.commits[i];
    assert CommitFits(w, c);
    assert (c.jobID, c.plan) in w.accepted;
    var e := w.dryRuns[c.jobID].eventID;
    assert e in w.store.events && w.store.events[e].message == DryRunReady(w.dryRuns[c.jobID].plan);
  }

  /** Every committed batch ever is a reviewed subset of its job's dry-run, or the
      reversal of one, even after the job is deleted: it has the dry-run's id, servers and
      schema hash, and its rows are different rows of the dry-run. */
  lemma CommitsAreReviewed(dok: Dokploy, allowed: set<string>, actions: seq<Action>, i: nat)
    requires i < |Exec(Init(dok, allowed), actions).commits|
    ensures var w := Exec(Init(dok, allowed), actions);
      var c := w.commits[i];
      && c.jobID in w.dryRuns && Reviews(w.dryRuns[c.jobID].plan, c.plan)
      && var dryRun := w.dryRuns[c.jobID].plan;
      && c.plan.id == dryRun.id && c.plan.schemaHash == dryRun.schemaHash
      && c.plan.sourceServerID == dryRun.sourceServerID && c.plan.targetServerID == dryRun.targetServerID
      && c.plan.rows != [] && (forall row <- c.plan.rows :: row in dryRun.rows)
      && (forall j, k | 0 <= j < k < |c.plan.rows| :: c.plan.rows[j] != c.plan.rows[k])
  {
    RunsKeepAudited(dok, allowed, actions);
    assert CommitFits(Exec(Init(dok, allowed), actions), Exec(Init(dok, allowed), actions).commits[i]);
  }
}
