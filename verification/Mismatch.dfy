/** Runs after which a job's status does not mirror the Dokploy database: nothing in
    internal/jobs/jobs.go looks at the status before it writes. */
module Mismatch {
  import opened Wrappers
  import opened Text
  import opened Model
  import opened Tables
  import opened Retarget
  import opened PlanSubset
  import opened Store
  import opened Listing
  import opened DryRun
  import opened Machine
  import opened Safety
  import opened Authority
  import opened Audit
  import opened Reports
  import opened Chain
  import opened Traces

  // -------------------------------------------------------------- parts of a run

  /** The first `n` calls of an operation get through, and the clock stands still. */
  function FirstCalls(n: nat, now: string): Surroundings {
    Surroundings(i => i < n, _ => now)
  }

  /** An accepted apply after whose commit no call gets through any more: the plan is
      applied and the job stays running. */
  lemma AppliedButStopped(
    w: World, k: nat, jobID: string, plan: MigrationPlan, approval: string, db: Dokploy)
    returns (trace: seq<Action>)
    requires k !in w.ops && AcceptsPlan(w.store, jobID, plan)
    requires ApplyPlan(w.dok, w.allowed, plan, approval) == Success(db)
    ensures var after := Exec(w, trace);
      && after.dok == db && after.ops == w.ops
      && jobID in after.store.jobs && after.store.jobs[jobID].status == JobRunning
  {
    trace := ApplyRuns(w, k, jobID, plan, approval, FirstCalls(5, ""), Some(db));
  }

  /** An accepted apply of a plan that does not apply: the job ends failed and the database
      is as it was. */
  lemma RefusedAndFailed(w: World, k: nat, jobID: string, plan: MigrationPlan, approval: string)
    returns (trace: seq<Action>)
    requires k !in w.ops && AcceptsPlan(w.store, jobID, plan)
    requires ApplyPlan(w.dok, w.allowed, plan, approval).Failure?
    ensures var after := Exec(w, trace);
      && after.dok == w.dok && after.ops == w.ops
      && jobID in after.store.jobs && after.store.jobs[jobID].status == JobFailed
  {
    trace := ApplyRuns(w, k, jobID, plan, approval, FirstCalls(8, ""), None);
  }

  /** An accepted apply that runs to its end. */
  lemma AppliedFully(
    w: World, k: nat, jobID: string, plan: MigrationPlan, approval: string, db: Dokploy)
    returns (trace: seq<Action>)
    requires k !in w.ops && AcceptsPlan(w.store, jobID, plan)
    requires ApplyPlan(w.dok, w.allowed, plan, approval) == Success(db)
    ensures var after := Exec(w, trace);
      && after.dok == db && after.allowed == w.allowed && after.ops == w.ops
      && jobID in after.store.jobs && after.store.jobs[jobID].status == JobSucceeded
  {
    trace := ApplyRuns(w, k, jobID, plan, approval, FirstCalls(8, ""), Some(db));
  }

  /** A plan accepted before a run is accepted after it, if the job is still there. */
  lemma StillAccepted(w: World, trace: seq<Action>, jobID: string, plan: MigrationPlan)
    requires Planned(w) && AcceptsPlan(w.store, jobID, plan) && jobID in Exec(w, trace).store.jobs
    ensures AcceptsPlan(Exec(w, trace).store, jobID, plan)
  {
    RunsKeepRecords(w, trace);
    AcceptsWhatDryRunReviews(w, jobID, plan);
    AcceptsWhatDryRunReviews(Exec(w, trace), jobID, plan);
  }

  /** An accepted plan applied twice: the second apply fails, so the job ends failed with
      the rows of the first still moved. */
  lemma AppliedTwice(
    w: World, k: nat, jobID: string, plan: MigrationPlan, approval: string, db: Dokploy)
    returns (trace: seq<Action>)
    requires Planned(w) && k !in w.ops && AcceptsPlan(w.store, jobID, plan)
    requires WellFormed(w.dok) && UniquePlanIDs(w.dok, plan.rows)
    requires ApplyPlan(w.dok, w.allowed, plan, approval) == Success(db)
    ensures var after := Exec(w, trace);
      && after.dok == db && after.ops == w.ops
      && jobID in after.store.jobs && after.store.jobs[jobID].status == JobFailed
  {
    var first := AppliedFully(w, k, jobID, plan, approval, db);
    var mid := Exec(w, first);
    StillAccepted(w, first, jobID, plan);
    SecondApplyIsRefused(w.dok, w.allowed, plan, approval, db);
    var second := RefusedAndFailed(mid, k, jobID, plan, approval);
    trace := first + second;
    ExecAppend(w, first, second);
  }

  lemma SecondApplyIsRefused(db: Dokploy, allowed: set<string>, plan: MigrationPlan, approval: string, after: Dokploy)
    requires WellFormed(db) && UniquePlanIDs(db, plan.rows) && ApplyPlan(db, allowed, plan, approval) == Success(after)
    ensures ApplyPlan(after, allowed, plan, approval).Failure?
  {
    ApplyIsCommitted(db, allowed, plan, approval);
    ApplyIsCommitted(after, allowed, plan, approval);
    SecondApplyFails(db, allowed, plan, approval, approval);
  }

  // -------------------------------------------------------------- from the start

  /** A dry-run of the initial database, requested and stored. */
  lemma DryRunStored(
    db: Dokploy, allowed: set<string>, plan: MigrationPlan, rawSource: string, rawTarget: string, jobID: string)
    returns (trace: seq<Action>)
    requires BuildRetargetPlan(db, allowed, rawSource, rawTarget, plan.id, plan.createdAt) == Success(plan)
    requires Addressed(jobID, plan) && plan.rows != [] && WellFormedRows(plan.rows)
    ensures var after := Exec(Init(db, allowed), trace);
      after.dok == db && after.allowed == allowed && after.ops == map[] && AcceptsPlan(after.store, jobID, plan)
  {
    var w := Init(db, allowed);
    assert w.ops == map[] && w.store.jobs == map[] && w.requests == map[];
    BuiltAgain(db, allowed, plan, rawSource, rawTarget);
    trace := PlanRuns(
      w, 0, jobID, rawSource, rawTarget, "dead_recovery", None, plan.id, FirstCalls(6, plan.createdAt), Some(plan));
    RunsKeepPlanned(db, allowed, trace);
    OwnPlanIsAccepted(Exec(w, trace), jobID, plan);
  }

  lemma BuiltAgain(db: Dokploy, allowed: set<string>, plan: MigrationPlan, rawSource: string, rawTarget: string)
    requires BuildRetargetPlan(db, allowed, rawSource, rawTarget, plan.id, plan.createdAt) == Success(plan)
    ensures Dry(db, allowed, TrimSpace(rawSource), TrimSpace(rawTarget), plan.id, plan.createdAt, true) == Some(plan)
  {
    TrimSpaceIsTrimmed(rawSource);
    TrimSpaceIsTrimmed(rawTarget);
  }

  lemma OwnPlanIsAccepted(w: World, jobID: string, plan: MigrationPlan)
    requires Planned(w) && jobID in w.store.jobs && w.store.lastEventID in w.store.events
    requires w.store.events[w.store.lastEventID].jobID == jobID
    requires w.store.events[w.store.lastEventID].message == DryRunReady(plan)
    requires Addressed(jobID, plan) && plan.rows != [] && WellFormedRows(plan.rows)
    ensures AcceptsPlan(w.store, jobID, plan)
  {
    AcceptsWhatDryRunReviews(w, jobID, plan);
    assert w.dryRuns[jobID].plan == plan;
    WholePlanIsSubset(plan);
  }

  lemma WholePlanIsSubset(plan: MigrationPlan)
    requires plan.rows != [] && WellFormedRows(plan.rows)
    ensures IsSubset(plan, plan)
  {
    forall i, j | 0 <= i < j < |plan.rows| ensures plan.rows[i] != plan.rows[j] {
      assert IdentityOf(plan.rows[i]) != IdentityOf(plan.rows[j]);
    }
  }

  // -------------------------------------------------------------- main results

  /** For every database with sound ids and a nonempty dry-run whose rows can be chosen,
      there is a run that starts with nothing, applies that dry-run, and ends with all
      its rows moved and its job failed. */
  lemma SomeRunEndsFailedYetMoved(
    db: Dokploy, allowed: set<string>, plan: MigrationPlan, approval: string, rawSource: string, rawTarget: string,
    jobID: string)
    returns (trace: seq<Action>)
    requires WholeDryRun(db, allowed, plan, approval, rawSource, rawTarget)
    requires WellFormedRows(plan.rows) && !Blank(jobID)
    ensures Committed(db, allowed, plan, approval).Some?
    ensures var after := Exec(Init(db, allowed), trace);
      && after.dok == Committed(db, allowed, plan, approval).value
      && after.ops == map[]
      && jobID in after.store.jobs && after.store.jobs[jobID].status == JobFailed
  {
    var applied := ReadyToApply(db, allowed, plan, approval, rawSource, rawTarget);
    var first := DryRunStored(db, allowed, plan, rawSource, rawTarget, jobID);
    RunsKeepPlanned(db, allowed, first);
    var second := AppliedTwice(Exec(Init(db, allowed), first), 0, jobID, plan, approval, applied);
    trace := first + second;
    ExecAppend(Init(db, allowed), first, second);
  }

  /** Likewise there is a run that ends with all rows moved and the job running. */
  lemma SomeRunEndsRunningYetMoved(
    db: Dokploy, allowed: set<string>, plan: MigrationPlan, approval: string, rawSource: string, rawTarget: string,
    jobID: string)
    returns (trace: seq<Action>)
    requires WholeDryRun(db, allowed, plan, approval, rawSource, rawTarget)
    requires WellFormedRows(plan.rows) && !Blank(jobID)
    ensures Committed(db, allowed, plan, approval).Some?
    ensures var after := Exec(Init(db, allowed), trace);
      && after.dok == Committed(db, allowed, plan, approval).value
      && after.ops == map[]
      && jobID in after.store.jobs && after.store.jobs[jobID].status == JobRunning
  {
    var applied := ReadyToApply(db, allowed, plan, approval, rawSource, rawTarget);
    var first := DryRunStored(db, allowed, plan, rawSource, rawTarget, jobID);
    var second := AppliedButStopped(Exec(Init(db, allowed), first), 0, jobID, plan, approval, applied);
    trace := first + second;
    ExecAppend(Init(db, allowed), first, second);
  }

  lemma ReadyToApply(
    db: Dokploy, allowed: set<string>, plan: MigrationPlan, approval: string, rawSource: string, rawTarget: string)
    returns (applied: Dokploy)
    requires WholeDryRun(db, allowed, plan, approval, rawSource, rawTarget)
    ensures Committed(db, allowed, plan, approval) == Some(applied)
    ensures ApplyPlan(db, allowed, plan, approval) == Success(applied)
    ensures WellFormed(db) && UniquePlanIDs(db, plan.rows) && !Blank(plan.id) && !Blank(plan.schemaHash)
  {
    DryRunDrains(db, allowed, plan, approval, rawSource, rawTarget);
    ApplyIsCommitted(db, allowed, plan, approval);
    applied := Committed(db, allowed, plan, approval).value;
    WholeDryRunIsWholePlan(db, allowed, plan, approval, rawSource, rawTarget);
    SupportedTablesUsable(db);
    DryRunIsReady(db, SupportedTables(db), plan.sourceServerID, plan.targetServerID);
  }

  /** In every run: a write that stops right after its transaction commits leaves its job
      running, if the job is there and no other write of it ever ran beside this one. */
  lemma StopAfterCommitLeavesRunning(
    dok: Dokploy, allowed: set<string>, actions: seq<Action>, k: nat, now: string)
    requires var w := Exec(Init(dok, allowed), actions);
      && Transacting(w, k) && Transaction(w, w.ops[k]).Some?
      && w.ops[k].jobID in w.store.jobs && w.ops[k].jobID !in w.overlapped
    ensures var w := Exec(Init(dok, allowed), actions);
      var after := Exec(Init(dok, allowed), actions + [Advance(k, true, now, "")] + [Crash(k)]);
      && after.dok == Transaction(w, w.ops[k]).value && |after.commits| == |w.commits| + 1
      && k !in after.ops && after.store == w.store
      && after.store.jobs[w.ops[k].jobID].status == JobRunning
  {
    var w := Exec(Init(dok, allowed), actions);
    RunsKeepSettled(dok, allowed, actions);
    assert InHand(w, w.ops[k]);
    ExecStep(Init(dok, allowed), actions, Advance(k, true, now, ""));
    ExecStep(Init(dok, allowed), actions + [Advance(k, true, now, "")], Crash(k));
    CommitStep(w, k, now);
  }

  lemma CommitStep(w: World, k: nat, now: string)
    requires Transacting(w, k) && Transaction(w, w.ops[k]).Some?
    ensures var after := Next(w, Advance(k, true, now, ""));
      && after.store == w.store && after.dok == Transaction(w, w.ops[k]).value && |after.commits| == |w.commits| + 1
  {
    CommitStepWith(w, k, now, Built(w, w.ops[k], "", now),
      StoredDryRunAccepts(EventsOf(w.store, w.ops[k].jobID), w.ops[k].plan), Transaction(w, w.ops[k]));
  }

  lemma CommitStepWith(
    w: World, k: nat, now: string, built: Option<MigrationPlan>, valid: bool, tx: Option<Dokploy>)
    requires Transacting(w, k) && tx.Some?
    ensures var after := StepWith(w, k, true, now, built, valid, tx);
      after.store == w.store && after.dok == tx.value && |after.commits| == |w.commits| + 1
  {
  }
}
