/** What a job authorises: at most one dry-run, fixed servers, and a fixed set of
    accepted plans for as long as the job exists. */
module Authority {
  import opened Wrappers
  import opened Text
  import opened Model
  import opened Tables
  import opened PlanSubset
  import opened Store
  import opened Machine
  import opened Safety

  /** The dry-run reviews this plan: same id, and a subset. */
  predicate Reviews(dryRun: MigrationPlan, plan: MigrationPlan) {
    plan.id == dryRun.id && IsSubset(dryRun, plan)
  }

  /** No apply is begun without its confirmation, and no write without a job id, a plan id
      and a schema hash. */
  lemma UnconfirmedBeginsNothing(
    w: World, k: nat, kind: Kind, jobID: string, plan: MigrationPlan, approval: string, confirmation: string)
    requires (kind.Apply? && confirmation != "APPLY") || Blank(jobID) || Blank(plan.id) || Blank(plan.schemaHash)
    ensures Next(w, BeginWrite(k, kind, jobID, plan, approval, confirmation)) == w
  {
  }

  predicate HasDryRun(s: Snapshot, jobID: string) {
    exists e <- s.events :: s.events[e].jobID == jobID && s.events[e].message.DryRunReady?
  }

  lemma {:induction false} AcceptedByOnlyDryRun(events: seq<Event>, dryRun: MigrationPlan, plan: MigrationPlan)
    requires forall event <- events | event.message.DryRunReady? :: event.message.plan == dryRun
    ensures StoredDryRunAccepts(events, plan) <==>
      (exists event <- events :: event.message.DryRunReady?) && Reviews(dryRun, plan)
    decreases |events|
  {
    if events != [] {
      assert events == [events[0]] + events[1..];
      AcceptedByOnlyDryRun(events[1..], dryRun, plan);
    }
  }

  /** No job ever has two dry-run events. */
  lemma OneDryRunPerJob(dok: Dokploy, allowed: set<string>, actions: seq<Action>, e: nat, f: nat)
    requires var events := Exec(Init(dok, allowed), actions).store.events;
      && e in events && f in events && events[e].jobID == events[f].jobID
      && events[e].message.DryRunReady? && events[f].message.DryRunReady?
    ensures e == f
  {
    RunsKeepPlanned(dok, allowed, actions);
  }

  /** The manager accepts exactly what the job's dry-run reviews. */
  lemma AcceptsWhatDryRunReviews(w: World, jobID: string, plan: MigrationPlan)
    requires Planned(w) && jobID in w.store.jobs
    ensures HasDryRun(w.store, jobID) <==> jobID in w.dryRuns
    ensures AcceptsPlan(w.store, jobID, plan) <==>
      && !Blank(jobID) && !Blank(plan.id) && !Blank(plan.schemaHash)
      && jobID in w.dryRuns && plan.id == w.dryRuns[jobID].plan.id && IsSubset(w.dryRuns[jobID].plan, plan)
  {
    EventsOfExact(w.store, jobID);
    var events := EventsOf(w.store, jobID);
    if jobID in w.dryRuns {
      var dryRun := w.dryRuns[jobID];
      assert w.store.events[dryRun.eventID] in events;
      AcceptedByOnlyDryRun(events, dryRun.plan, plan);
      if SameHeader(dryRun.plan, plan) {
        HeaderFollows(w, jobID, plan);
      }
    } else {
      forall event <- events ensures !event.message.DryRunReady? {
        assert event.id in w.store.events;
      }
      AcceptedByOnlyDryRun(events, plan, plan);
    }
  }

  lemma HeaderFollows(w: World, jobID: string, plan: MigrationPlan)
    requires Planned(w) && jobID in w.store.jobs && jobID in w.dryRuns
    requires SameHeader(w.dryRuns[jobID].plan, plan)
    ensures JobMatches(w.store, jobID, plan)
  {
  }

  /** Records are only ever added. */
  lemma NextKeepsRecords(w: World, action: Action)
    requires Planned(w)
    ensures forall id <- w.requests :: id in Next(w, action).requests && Next(w, action).requests[id] == w.requests[id]
    ensures forall id <- w.dryRuns :: id in Next(w, action).dryRuns && Next(w, action).dryRuns[id] == w.dryRuns[id]
  {
    if action.Advance? && action.op in w.ops && Possible(w, w.ops[action.op]) {
      var op := w.ops[action.op];
      assert op.Planning? ==> PlanningFits(w, op);
      StepKeepsRecords(w, action.op, action.io, action.now, Built(w, op, action.planID, action.now),
        op.Writing? && StoredDryRunAccepts(EventsOf(w.store, op.jobID), op.plan), Transaction(w, op));
    }
  }

  lemma StepKeepsRecords(
    w: World, k: nat, io: bool, now: string, built: Option<MigrationPlan>, valid: bool, tx: Option<Dokploy>)
    requires Planned(w) && k in w.ops && Possible(w, w.ops[k])
    ensures forall id <- w.requests ::
      && id in StepWith(w, k, io, now, built, valid, tx).requests
      && StepWith(w, k, io, now, built, valid, tx).requests[id] == w.requests[id]
    ensures forall id <- w.dryRuns ::
      && id in StepWith(w, k, io, now, built, valid, tx).dryRuns
      && StepWith(w, k, io, now, built, valid, tx).dryRuns[id] == w.dryRuns[id]
  {
    var op := w.ops[k];
    assert op.Planning? ==> PlanningFits(w, op);
    if IssuesStatement(op) {
      var ok, effect, store, next := StoreStepShape(w, k, io, now);
      StatementStep(w, k, io, now, built, valid, tx);
    }
  }

  lemma {:induction false} RunsKeepRecords(w: World, actions: seq<Action>)
    requires Planned(w)
    ensures Planned(Exec(w, actions))
    ensures forall id <- w.requests :: id in Exec(w, actions).requests && Exec(w, actions).requests[id] == w.requests[id]
    ensures forall id <- w.dryRuns :: id in Exec(w, actions).dryRuns && Exec(w, actions).dryRuns[id] == w.dryRuns[id]
    decreases |actions|
  {
    if actions != [] {
      var front := actions[..|actions| - 1];
      RunsKeepRecords(w, front);
      NextKeepsRecords(Exec(w, front), actions[|actions| - 1]);
      NextKeepsPlanned(Exec(w, front), actions[|actions| - 1]);
    }
  }

  /** A job's servers never change, and from the moment its dry-run is stored the
      accepted plans stay the same for as long as the job exists, whatever runs, fails
      or stops meanwhile. */
  lemma AuthorityIsFixed(
    dok: Dokploy, allowed: set<string>, before: seq<Action>, later: seq<Action>, jobID: string, plan: MigrationPlan)
    requires var now, after := Exec(Init(dok, allowed), before), Exec(Init(dok, allowed), before + later);
      jobID in now.store.jobs && jobID in after.store.jobs
    ensures var now, after := Exec(Init(dok, allowed), before), Exec(Init(dok, allowed), before + later);
      && after.store.jobs[jobID].sourceServerID == now.store.jobs[jobID].sourceServerID
      && after.store.jobs[jobID].targetServerID == now.store.jobs[jobID].targetServerID
      && (HasDryRun(now.store, jobID) ==>
          (AcceptsPlan(after.store, jobID, plan) <==> AcceptsPlan(now.store, jobID, plan)))
  {
    var now, after := Exec(Init(dok, allowed), before), Exec(Init(dok, allowed), before + later);
    ExecAppend(Init(dok, allowed), before, later);
    RunsKeepPlanned(dok, allowed, before);
    RunsKeepRecords(now, later);
    AcceptsWhatDryRunReviews(now, jobID, plan);
    AcceptsWhatDryRunReviews(after, jobID, plan);
  }
}
