/** Where dry-runs come from: in every run, whatever a job's log holds as its dry-run, and
    whatever a paused job is paused with, was built from the Dokploy database as it stood
    at an earlier point of that run. */
module Provenance {
  import opened Wrappers
  import opened Text
  import opened Model
  import opened Tables
  import opened Retarget
  import opened Store
  import opened History
  import opened Listing
  import opened Machine
  import opened Safety
  import opened Audit
  import opened Chain

  /** The action is the read of a request for a plan by this job, gets through, and finds
      this dry-run of the database as it is now. */
  predicate ReadsPlan(w: World, action: Action, jobID: string, plan: MigrationPlan) {
    && action.Advance? && action.io && action.op in w.ops
    && var op := w.ops[action.op];
    && op.Planning? && op.planStep.ReadDokploy? && op.jobID == jobID
    && Built(w, op, action.planID, action.now) == Some(plan)
  }

  /** The n-th action of the run reads this dry-run. */
  predicate ReadAt(
    dok: Dokploy, allowed: set<string>, actions: seq<Action>, n: nat, jobID: string, plan: MigrationPlan)
  {
    n < |actions| && ReadsPlan(Exec(Init(dok, allowed), actions[..n]), actions[n], jobID, plan)
  }

  ghost predicate WasRead(dok: Dokploy, allowed: set<string>, actions: seq<Action>, jobID: string, plan: MigrationPlan) {
    exists n: nat :: ReadAt(dok, allowed, actions, n, jobID, plan)
  }

  lemma StillRead(
    dok: Dokploy, allowed: set<string>, actions: seq<Action>, action: Action, n: nat, jobID: string, plan: MigrationPlan)
    requires ReadAt(dok, allowed, actions, n, jobID, plan)
    ensures ReadAt(dok, allowed, actions + [action], n, jobID, plan)
  {
    assert (actions + [action])[..n] == actions[..n] && (actions + [action])[n] == actions[n];
  }

  lemma ReadNow(
    dok: Dokploy, allowed: set<string>, actions: seq<Action>, action: Action, w: World, jobID: string,
    plan: MigrationPlan)
    requires w == Exec(Init(dok, allowed), actions) && ReadsPlan(w, action, jobID, plan)
    ensures ReadAt(dok, allowed, actions + [action], |actions|, jobID, plan)
  {
    assert (actions + [action])[..|actions|] == actions && (actions + [action])[|actions|] == action;
  }

  /** The plan an operation is about to store. */
  predicate AboutToStore(op: Op, plan: MigrationPlan) {
    op.Planning? && (op.planStep == MarkReady(plan) || op.planStep == LogReady(plan))
  }

  predicate Paused(s: Snapshot, id: string) {
    id in s.jobs && s.jobs[id].status == JobPaused
  }

  /** `built` holds of all dry-runs in hand or stored, and of some dry-run of each paused job. */
  ghost predicate Sourced(w: World, built: (string, MigrationPlan) -> bool) {
    && (forall k <- w.ops, plan: MigrationPlan | AboutToStore(w.ops[k], plan) :: built(w.ops[k].jobID, plan))
    && (forall id <- w.dryRuns :: built(id, w.dryRuns[id].plan))
    && (forall id <- w.store.jobs | Paused(w.store, id) :: exists plan :: built(id, plan))
  }

  lemma SourcedGrows(w: World, built: (string, MigrationPlan) -> bool, more: (string, MigrationPlan) -> bool)
    requires Sourced(w, built) && forall id, plan | built(id, plan) :: more(id, plan)
    ensures Sourced(w, more)
  {
    forall id <- w.store.jobs | Paused(w.store, id) ensures exists plan :: more(id, plan) {
      var plan :| built(id, plan);
      assert more(id, plan);
    }
  }

  lemma StatementKeepsSourced(
    w: World, k: nat, after: World, ok: bool, effect: Effect, store: Snapshot, next: Option<Op>,
    built: (string, MigrationPlan) -> bool)
    requires Sourced(w, built) && k in w.ops && StepShape(w, k, after, ok, effect, store, next)
    ensures Sourced(after, built)
  {
    var op := w.ops[k];
    forall l <- after.ops, plan: MigrationPlan | AboutToStore(after.ops[l], plan) ensures built(after.ops[l].jobID, plan) {
      assert l == k ==> AboutToStore(op, plan);
    }
    forall id <- after.dryRuns ensures built(id, after.dryRuns[id].plan) {
      assert op.Planning? && op.planStep.LogReady? ==> AboutToStore(op, op.planStep.plan);
    }
    forall id <- after.store.jobs | Paused(after.store, id) ensures exists plan :: built(id, plan) {
      if ok && effect.Status? && effect.id == id {
        assert AboutToStore(op, op.planStep.plan);
      } else {
        assert Paused(w.store, id);
      }
    }
  }

  /** A step that issues no statement: the read of a request, or one of a write. */
  lemma ReadKeepsSourced(
    w: World, k: nat, io: bool, now: string, plan: Option<MigrationPlan>, valid: bool, tx: Option<Dokploy>,
    built: (string, MigrationPlan) -> bool)
    requires Sourced(w, built) && k in w.ops && !IssuesStatement(w.ops[k])
    requires w.ops[k].Planning? && io && plan.Some? ==> built(w.ops[k].jobID, plan.value)
    ensures Sourced(StepWith(w, k, io, now, plan, valid, tx), built)
  {
    var after := StepWith(w, k, io, now, plan, valid, tx);
    forall l <- after.ops, p: MigrationPlan | AboutToStore(after.ops[l], p) ensures built(after.ops[l].jobID, p) {
      assert l != k ==> l in w.ops && AboutToStore(w.ops[l], p);
    }
    assert after.store == w.store && after.dryRuns == w.dryRuns;
  }

  lemma OtherActionKeepsSourced(w: World, action: Action, built: (string, MigrationPlan) -> bool)
    requires Sourced(w, built) && !action.Advance?
    ensures Sourced(Next(w, action), built)
  {
    var after := Next(w, action);
    forall l <- after.ops, p: MigrationPlan | AboutToStore(after.ops[l], p) ensures built(after.ops[l].jobID, p) {
      assert l in w.ops && AboutToStore(w.ops[l], p);
    }
    forall id <- after.store.jobs | Paused(after.store, id) ensures Paused(w.store, id) {
    }
  }

  lemma AdvanceKeepsSourced(
    w: World, k: nat, io: bool, now: string, planID: string, built: (string, MigrationPlan) -> bool)
    requires Sourced(w, built) && Consistent(w.store) && k in w.ops && Possible(w, w.ops[k])
    requires w.ops[k].Planning? && w.ops[k].planStep.ReadDokploy? && io && Built(w, w.ops[k], planID, now).Some? ==>
      built(w.ops[k].jobID, Built(w, w.ops[k], planID, now).value)
    ensures Sourced(Step(w, k, io, now, planID), built)
  {
    var op := w.ops[k];
    var plan, valid, tx := Built(w, op, planID, now),
      op.Writing? && StoredDryRunAccepts(EventsOf(w.store, op.jobID), op.plan), Transaction(w, op);
    if IssuesStatement(op) {
      var ok, effect, store, next := StoreStepShape(w, k, io, now);
      StatementStep(w, k, io, now, plan, valid, tx);
      StatementKeepsSourced(w, k, StoreStep(w, k, io, now), ok, effect, store, next, built);
    } else {
      ReadKeepsSourced(w, k, io, now, plan, valid, tx, built);
    }
  }

  lemma NextKeepsSourced(w: World, action: Action, built: (string, MigrationPlan) -> bool)
    requires Sourced(w, built) && Consistent(w.store)
    requires forall id, plan | ReadsPlan(w, action, id, plan) :: built(id, plan)
    ensures Sourced(Next(w, action), built)
  {
    if !action.Advance? {
      OtherActionKeepsSourced(w, action, built);
    } else if action.op in w.ops && Possible(w, w.ops[action.op]) {
      var op := w.ops[action.op];
      if op.Planning? && op.planStep.ReadDokploy? && action.io && Built(w, op, action.planID, action.now).Some? {
        assert ReadsPlan(w, action, op.jobID, Built(w, op, action.planID, action.now).value);
      }
      AdvanceKeepsSourced(w, action.op, action.io, action.now, action.planID, built);
    }
  }

  /** Read at some point of the run so far. */
  ghost function ReadSoFar(dok: Dokploy, allowed: set<string>, actions: seq<Action>): (string, MigrationPlan) -> bool {
    (jobID, plan) => WasRead(dok, allowed, actions, jobID, plan)
  }

  lemma {:induction false} RunsKeepSourced(dok: Dokploy, allowed: set<string>, actions: seq<Action>)
    ensures Sourced(Exec(Init(dok, allowed), actions), ReadSoFar(dok, allowed, actions))
    decreases |actions|
  {
    if actions != [] {
      var front, action := actions[..|actions| - 1], actions[|actions| - 1];
      var w, built := Exec(Init(dok, allowed), front), ReadSoFar(dok, allowed, actions);
      assert actions == front + [action];
      RunsKeepSourced(dok, allowed, front);
      RunsKeepPlanned(dok, allowed, front);
      ReadsGrow(dok, allowed, front, action, w);
      SourcedGrows(w, ReadSoFar(dok, allowed, front), built);
      NextKeepsSourced(w, action, built);
    }
  }

  lemma ReadsGrow(dok: Dokploy, allowed: set<string>, front: seq<Action>, action: Action, w: World)
    requires w == Exec(Init(dok, allowed), front)
    ensures forall id, plan | WasRead(dok, allowed, front, id, plan) :: WasRead(dok, allowed, front + [action], id, plan)
    ensures forall id, plan | ReadsPlan(w, action, id, plan) :: WasRead(dok, allowed, front + [action], id, plan)
  {
    forall id, plan | WasRead(dok, allowed, front, id, plan) ensures WasRead(dok, allowed, front + [action], id, plan) {
      var n: nat :| ReadAt(dok, allowed, front, n, id, plan);
      StillRead(dok, allowed, front, action, n, id, plan);
    }
    forall id, plan | ReadsPlan(w, action, id, plan) ensures WasRead(dok, allowed, front + [action], id, plan) {
      ReadNow(dok, allowed, front, action, w, id, plan);
    }
  }

  // -------------------------------------------------------------- main results

  /** A plan read from a database is the dry-run of that database for the plan's own
      servers, under its own id and time. */
  lemma ReadIsDryRun(w: World, action: Action, jobID: string, plan: MigrationPlan)
    requires Planned(w) && ReadsPlan(w, action, jobID, plan)
    ensures BuildRetargetPlan(w.dok, w.allowed, plan.sourceServerID, plan.targetServerID, plan.id, plan.createdAt)
            == Success(plan)
  {
    assert PlanningFits(w, w.ops[action.op]);
  }

  /** The n-th action of the run is a step of a request for a plan by this job, and the
      plan is the dry-run of the database as it stood then. */
  predicate BuiltAt(
    dok: Dokploy, allowed: set<string>, actions: seq<Action>, n: nat, jobID: string, plan: MigrationPlan)
  {
    && n < |actions| && actions[n].Advance?
    && var at := Exec(Init(dok, allowed), actions[..n]);
    && actions[n].op in at.ops && at.ops[actions[n].op].Planning? && at.ops[actions[n].op].jobID == jobID
    && BuildRetargetPlan(
         at.dok, allowed, plan.sourceServerID, plan.targetServerID, plan.id, plan.createdAt) == Success(plan)
  }

  lemma ReadIsBuilt(
    dok: Dokploy, allowed: set<string>, actions: seq<Action>, n: nat, jobID: string, plan: MigrationPlan)
    requires ReadAt(dok, allowed, actions, n, jobID, plan)
    ensures BuiltAt(dok, allowed, actions, n, jobID, plan)
  {
    RunsKeepPlanned(dok, allowed, actions[..n]);
    RunsReplay(dok, allowed, actions[..n]);
    ReadIsDryRun(Exec(Init(dok, allowed), actions[..n]), actions[n], jobID, plan);
  }

  /** Every dry-run in a job's log was built from the database as it stood at an earlier
      point of the run, by a request of that job. */
  lemma DryRunsWereBuilt(dok: Dokploy, allowed: set<string>, actions: seq<Action>, e: nat) returns (n: nat)
    requires var events := Exec(Init(dok, allowed), actions).store.events; e in events && events[e].message.DryRunReady?
    ensures var event := Exec(Init(dok, allowed), actions).store.events[e];
      BuiltAt(dok, allowed, actions, n, event.jobID, event.message.plan)
  {
    var w := Exec(Init(dok, allowed), actions);
    RunsKeepPlanned(dok, allowed, actions);
    RunsKeepSourced(dok, allowed, actions);
    n := RecordWasBuilt(dok, allowed, actions, w, w.store.events[e].jobID);
  }

  lemma RecordWasBuilt(dok: Dokploy, allowed: set<string>, actions: seq<Action>, w: World, id: string) returns (n: nat)
    requires Sourced(w, ReadSoFar(dok, allowed, actions)) && id in w.dryRuns
    ensures BuiltAt(dok, allowed, actions, n, id, w.dryRuns[id].plan)
  {
    assert ReadSoFar(dok, allowed, actions)(id, w.dryRuns[id].plan);
    n :| ReadAt(dok, allowed, actions, n, id, w.dryRuns[id].plan);
    ReadIsBuilt(dok, allowed, actions, n, id, w.dryRuns[id].plan);
  }

  /** A paused job is paused with a dry-run that a request of it built at an earlier point
      of the run: the one in its log, if there is one; otherwise its log write failed, or
      stopped before it, or is still to come. */
  lemma PausedJobsWereBuilt(dok: Dokploy, allowed: set<string>, actions: seq<Action>, id: string)
    returns (n: nat, plan: MigrationPlan)
    requires Paused(Exec(Init(dok, allowed), actions).store, id)
    ensures BuiltAt(dok, allowed, actions, n, id, plan)
    ensures var events := Exec(Init(dok, allowed), actions).store.events;
      forall e <- events | events[e].jobID == id && events[e].message.DryRunReady? :: events[e].message.plan == plan
  {
    var w := Exec(Init(dok, allowed), actions);
    RunsKeepPlanned(dok, allowed, actions);
    RunsKeepSourced(dok, allowed, actions);
    if id in w.dryRuns {
      plan := w.dryRuns[id].plan;
      n := RecordWasBuilt(dok, allowed, actions, w, id);
    } else {
      n, plan := PausedWasBuilt(dok, allowed, actions, w, id);
    }
  }

  lemma PausedWasBuilt(dok: Dokploy, allowed: set<string>, actions: seq<Action>, w: World, id: string)
    returns (n: nat, plan: MigrationPlan)
    requires Sourced(w, ReadSoFar(dok, allowed, actions)) && Paused(w.store, id)
    ensures BuiltAt(dok, allowed, actions, n, id, plan)
  {
    plan :| ReadSoFar(dok, allowed, actions)(id, plan);
    n :| ReadAt(dok, allowed, actions, n, id, plan);
    ReadIsBuilt(dok, allowed, actions, n, id, plan);
  }

  /** Every row that a commit ever moved, or moved back, was listed by a dry-run of the
      database as it stood at an earlier point of the run, by a request of the same job. */
  lemma CommittedRowsWereListed(dok: Dokploy, allowed: set<string>, actions: seq<Action>, i: nat)
    returns (n: nat, dryRun: MigrationPlan)
    requires i < |Exec(Init(dok, allowed), actions).commits|
    ensures var c := Exec(Init(dok, allowed), actions).commits[i];
      BuiltAt(dok, allowed, actions, n, c.jobID, dryRun) && forall row <- c.plan.rows :: row in dryRun.rows
  {
    var w := Exec(Init(dok, allowed), actions);
    CommitsAreReviewed(dok, allowed, actions, i);
    RunsKeepSourced(dok, allowed, actions);
    dryRun := w.dryRuns[w.commits[i].jobID].plan;
    n := RecordWasBuilt(dok, allowed, actions, w, w.commits[i].jobID);
  }
}
