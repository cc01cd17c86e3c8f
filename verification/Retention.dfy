/** Retention over whole runs: which jobs and events stay, and which never come back. */
module Retention {
  import opened Wrappers
  import opened Text
  import opened Model
  import opened Tables
  import opened Store
  import opened History
  import opened Machine
  import opened Safety
  import opened Authority

  lemma SubsetIsNoLarger<T>(a: set<T>, b: set<T>)
    requires a <= b
    ensures |a| <= |b|
  {
    assert b == a + (b - a);
  }

  /** Every event that is new after an action has a new id, above all ids ever given out. */
  ghost predicate EventsAppend(s: Snapshot, after: Snapshot) {
    && s.lastEventID <= after.lastEventID
    && (forall e <- after.events | e in s.events :: after.events[e] == s.events[e])
    && (forall e <- after.events | e !in s.events :: s.lastEventID < e <= after.lastEventID)
  }

  lemma StepKeepsJobs(
    w: World, k: nat, io: bool, now: string, built: Option<MigrationPlan>, valid: bool, tx: Option<Dokploy>)
    requires Consistent(w.store) && k in w.ops && Possible(w, w.ops[k])
    ensures var after := StepWith(w, k, io, now, built, valid, tx).store;
      w.store.jobs.Keys <= after.jobs.Keys && EventsAppend(w.store, after)
  {
    if IssuesStatement(w.ops[k]) {
      StatementStep(w, k, io, now, built, valid, tx);
      StatementKeepsJobs(w, k, io, now);
    }
  }

  lemma StatementKeepsJobs(w: World, k: nat, io: bool, now: string)
    requires Consistent(w.store) && k in w.ops && IssuesStatement(w.ops[k]) && Possible(w, w.ops[k])
    ensures var after := StoreStep(w, k, io, now).store;
      w.store.jobs.Keys <= after.jobs.Keys && EventsAppend(w.store, after)
  {
    var ok, effect, store, next := StoreStepShape(w, k, io, now);
    assert forall id <- w.store.jobs :: id in store.jobs;
  }

  lemma AdvanceRetains(w: World, k: nat, io: bool, now: string, planID: string)
    requires Consistent(w.store) && k in w.ops && Possible(w, w.ops[k])
    ensures var after := Step(w, k, io, now, planID).store;
      w.store.jobs.Keys <= after.jobs.Keys && EventsAppend(w.store, after)
  {
    var op := w.ops[k];
    StepKeepsJobs(w, k, io, now, Built(w, op, planID, now),
      op.Writing? && StoredDryRunAccepts(EventsOf(w.store, op.jobID), op.plan), Transaction(w, op));
  }

  /** A delete takes a job from behind the first 50 and leaves those as they were, or
      changes nothing. */
  lemma DeleteRetains(w: World, id: string)
    requires Consistent(w.store)
    ensures EventsAppend(w.store, Next(w, Delete(id)).store)
    ensures if Deletable(w.store.jobs, id) then
        && |NewestFirst(w.store.jobs)| > PROTECTED_JOB_COUNT
        && Next(w, Delete(id)).store.jobs == w.store.jobs - {id} && Keyed(w.store.jobs - {id})
        && |NewestFirst(w.store.jobs - {id})| >= PROTECTED_JOB_COUNT
        && NewestFirst(w.store.jobs - {id})[..PROTECTED_JOB_COUNT] == NewestFirst(w.store.jobs)[..PROTECTED_JOB_COUNT]
      else
        Next(w, Delete(id)) == w
  {
    if Deletable(w.store.jobs, id) {
      DeletionKeepsProtected(w.store.jobs, id);
    }
  }

  /** Only a delete removes a job, and never one of the last 50. */
  lemma NextRetains(w: World, action: Action)
    requires Consistent(w.store)
    ensures EventsAppend(w.store, Next(w, action).store)
    ensures !action.Delete? ==> w.store.jobs.Keys <= Next(w, action).store.jobs.Keys
    ensures |w.store.jobs| >= PROTECTED_JOB_COUNT ==> |Next(w, action).store.jobs| >= PROTECTED_JOB_COUNT
  {
    match action
    case Delete(id) =>
      DeleteRetains(w, id);
      if Deletable(w.store.jobs, id) {
        NewestFirstExact(w.store.jobs - {id});
      }
    case Advance(k, io, now, planID) =>
      if k in w.ops && Possible(w, w.ops[k]) {
        AdvanceRetains(w, k, io, now, planID);
        SubsetIsNoLarger(w.store.jobs.Keys, Next(w, action).store.jobs.Keys);
      }
    case _ =>
  }

  /** Once 50 jobs exist there are never fewer, and event ids only grow. */
  lemma {:induction false} RunsRetain(w: World, actions: seq<Action>)
    requires Planned(w)
    ensures |w.store.jobs| >= PROTECTED_JOB_COUNT ==> |Exec(w, actions).store.jobs| >= PROTECTED_JOB_COUNT
    ensures EventsAppend(w.store, Exec(w, actions).store)
    decreases |actions|
  {
    if actions != [] {
      var front := actions[..|actions| - 1];
      RunsRetain(w, front);
      RunsKeepRecords(w, front);
      NextRetains(Exec(w, front), actions[|actions| - 1]);
    }
  }

  /** In every run: no event or report refers to a missing job, the job count never
      drops below 50 again, and every later event has a higher id than all earlier ones. */
  lemma HistoryIsRetained(dok: Dokploy, allowed: set<string>, before: seq<Action>, later: seq<Action>)
    ensures var now, after := Exec(Init(dok, allowed), before).store, Exec(Init(dok, allowed), before + later).store;
      && (forall e <- after.events :: after.events[e].jobID in after.jobs)
      && (forall id <- after.reports :: id in after.jobs)
      && (|now.jobs| >= 50 ==> |after.jobs| >= 50)
      && (forall e <- now.events, f <- after.events | f !in now.events :: e < f)
      && (forall e <- now.events | e in after.events :: after.events[e] == now.events[e])
  {
    ExecAppend(Init(dok, allowed), before, later);
    RunsKeepPlanned(dok, allowed, before);
    RunsKeepPlanned(dok, allowed, before + later);
    RunsRetain(Exec(Init(dok, allowed), before), later);
  }

  // -------------------------------------------------------------- the handler's two calls

  lemma ProtectedJobIsSeen(jobs: map<string, Job>, id: string)
    requires Keyed(jobs) && id in jobs && !Deletable(jobs, id) && |jobs| >= PROTECTED_JOB_COUNT
    ensures |NewestFirst(jobs)| >= PROTECTED_JOB_COUNT && jobs[id] in NewestFirst(jobs)[..PROTECTED_JOB_COUNT]
  {
    NewestFirstExact(jobs);
    var listing := NewestFirst(jobs);
    assert jobs[id] in listing;
    var k :| 0 <= k < |listing| && listing[k] == jobs[id];
    DeletableByPosition(jobs, k);
    StandsInFront(listing, k, PROTECTED_JOB_COUNT);
  }

  lemma StandsInFront<T>(s: seq<T>, k: nat, n: nat)
    requires k < n <= |s|
    ensures s[k] in s[..n]
  {
    assert s[..n][k] == s[k];
  }

  /** The handler reads the protected set in one call and deletes in another. A job that
      was deletable at the first and is still there at the second, with anything
      between: deleting it leaves the first 50 of the listing as they were exactly when it
      is still deletable, and leaves 50 jobs exactly when more than 50 are there. */
  lemma LateDeleteExactly(
    dok: Dokploy, allowed: set<string>, before: seq<Action>, between: seq<Action>, id: string)
    requires var jobs := Exec(Init(dok, allowed), before).store.jobs; Keyed(jobs) && Deletable(jobs, id)
    requires id in Exec(Init(dok, allowed), before + between).store.jobs
    ensures var jobs := Exec(Init(dok, allowed), before + between).store.jobs;
      && Keyed(jobs) && Keyed(jobs - {id})
      && |NewestFirst(jobs)| == |jobs| >= PROTECTED_JOB_COUNT
      && (|jobs - {id}| >= PROTECTED_JOB_COUNT <==> |jobs| > PROTECTED_JOB_COUNT)
      && (Deletable(jobs, id) <==>
          && |NewestFirst(jobs - {id})| >= PROTECTED_JOB_COUNT
          && NewestFirst(jobs - {id})[..PROTECTED_JOB_COUNT] == NewestFirst(jobs)[..PROTECTED_JOB_COUNT])
  {
    var jobs := Exec(Init(dok, allowed), before + between).store.jobs;
    HistoryIsRetained(dok, allowed, before, between);
    RunsKeepPlanned(dok, allowed, before);
    RunsKeepPlanned(dok, allowed, before + between);
    FiftyBehind(Exec(Init(dok, allowed), before).store.jobs, id);
    LateDelete(jobs, id);
  }

  lemma FiftyBehind(jobs: map<string, Job>, id: string)
    requires Keyed(jobs) && Deletable(jobs, id)
    ensures |jobs| > PROTECTED_JOB_COUNT
  {
    DeletionKeepsProtected(jobs, id);
    NewestFirstExact(jobs);
  }

  lemma LateDelete(jobs: map<string, Job>, id: string)
    requires Keyed(jobs) && id in jobs && |jobs| >= PROTECTED_JOB_COUNT
    ensures |jobs - {id}| == |jobs| - 1 && |NewestFirst(jobs)| == |jobs|
    ensures Deletable(jobs, id) <==>
      && |NewestFirst(jobs - {id})| >= PROTECTED_JOB_COUNT
      && NewestFirst(jobs - {id})[..PROTECTED_JOB_COUNT] == NewestFirst(jobs)[..PROTECTED_JOB_COUNT]
  {
    NewestFirstExact(jobs);
    NewestFirstExact(jobs - {id});
    assert (jobs - {id}).Keys == jobs.Keys - {id};
    if Deletable(jobs, id) {
      DeletionKeepsProtected(jobs, id);
    } else {
      ProtectedJobIsSeen(jobs, id);
      assert jobs[id] !in NewestFirst(jobs - {id});
    }
  }

  /** Two handlers on 51 jobs: the first finds the last job deletable, that job is updated,
      the second finds the new last job deletable, and both delete. 49 jobs are left. */
  lemma TwoHandlersLeave49(jobs: map<string, Job>, first: string, now: string) returns (second: string)
    requires Keyed(jobs) && |jobs| == PROTECTED_JOB_COUNT + 1 && Deletable(jobs, first)
    requires forall id <- jobs :: Precedes(jobs[id].updatedAt, now)
    ensures var touched := jobs[first := jobs[first].(updatedAt := now)];
      && Keyed(touched) && Deletable(touched, second)
      && |touched - {first} - {second}| == PROTECTED_JOB_COUNT - 1
  {
    var touched := jobs[first := jobs[first].(updatedAt := now)];
    NewestFirstExact(touched);
    assert touched.Keys == jobs.Keys;
    assert |touched| == |touched.Keys| == |jobs.Keys| == |jobs|;
    var listing := NewestFirst(touched);
    var last := listing[PROTECTED_JOB_COUNT];
    second := last.id;
    DeletableByPosition(touched, PROTECTED_JOB_COUNT);
    assert second != first by {
      UpdatedIsNotLast(touched, listing, first, PROTECTED_JOB_COUNT);
    }
    TwoFewer(touched, first, second);
  }

  lemma TwoFewer(jobs: map<string, Job>, a: string, b: string)
    requires a in jobs && b in jobs && a != b
    ensures |jobs - {a} - {b}| == |jobs| - 2
  {
    assert (jobs - {a}).Keys == jobs.Keys - {a};
    assert (jobs - {a} - {b}).Keys == jobs.Keys - {a} - {b};
  }

  lemma UpdatedIsNotLast(jobs: map<string, Job>, listing: seq<Job>, id: string, k: nat)
    requires Keyed(jobs) && id in jobs && listing == NewestFirst(jobs) && 0 < k < |listing|
    requires forall other <- jobs | other != id :: Precedes(jobs[other].updatedAt, jobs[id].updatedAt)
    ensures listing[k].id != id
  {
    NewestFirstExact(jobs);
    assert listing[0] in listing && listing[k] in listing;
    assert ListedBefore(listing[0], listing[k]) && listing[0].id != listing[k].id;
    ListedBeforeAsymmetric();
  }
}
