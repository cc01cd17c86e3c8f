/** The durable job store: internal/state/store.go. Each operation is one SQLite
    statement or transaction, so it takes effect whole or not at all. */
module Store {
  import opened Wrappers
  import opened Model

  datatype JobStatus = JobPending | JobRunning | JobPaused | JobSucceeded | JobFailed | JobRolledBack

  /** A row of the jobs table; the times are the stored texts. */
  datatype Job = Job(
    id: string,
    sourceServerID: string,
    targetServerID: string,
    mode: string,
    status: JobStatus,
    checkpoint: string,
    createdAt: string,
    updatedAt: string)

  /** The messages the job manager logs, each with its payload. */
  datatype Message =
    | JobCreated(mode: string)
    | HealthChecked(passed: bool)
    | PlanFailed
    | DryRunReady(plan: MigrationPlan)
    | Applying(rows: nat)
    | RetargetFailed
    | ReportSaved
    | RollingBack(rows: nat)
    | RollbackFailed
    | RollbackApplied(rows: nat)

  datatype Event = Event(id: nat, jobID: string, message: Message, createdAt: string)

  /** A report names the job and holds the applied plan. */
  datatype Report = Report(jobID: string, plan: MigrationPlan)

  /** The three tables, and the AUTOINCREMENT counter of the events table. */
  datatype Snapshot = Snapshot(
    jobs: map<string, Job>,
    events: map<nat, Event>,
    lastEventID: nat,
    reports: map<string, Report>)

  datatype StoreError = JobNotFound | ConstraintViolated | StorageFailed

  // -------------------------------------------------------------- operations

  function InsertJob(s: Snapshot, job: Job, now: string): Result<Snapshot, StoreError> {
    if job.id in s.jobs then Failure(ConstraintViolated)
    else
      var created := if job.createdAt == "" then now else job.createdAt;
      Success(s.(jobs := s.jobs[job.id := job.(createdAt := created, updatedAt := now)]))
  }

  function SetStatus(s: Snapshot, id: string, status: JobStatus, checkpoint: string, now: string)
    : Result<Snapshot, StoreError>
  {
    if id !in s.jobs then Failure(JobNotFound)
    else Success(s.(jobs := s.jobs[id := s.jobs[id].(status := status, checkpoint := checkpoint, updatedAt := now)]))
  }

  /** The foreign key refuses an event of a job that is not there. */
  function LogEvent(s: Snapshot, jobID: string, message: Message, now: string): Result<Snapshot, StoreError> {
    if jobID !in s.jobs then Failure(ConstraintViolated)
    else
      var id := s.lastEventID + 1;
      Success(s.(events := s.events[id := Event(id, jobID, message, now)], lastEventID := id))
  }

  function PutReport(s: Snapshot, jobID: string, report: Report): Result<Snapshot, StoreError> {
    if jobID !in s.jobs then Failure(ConstraintViolated)
    else Success(s.(reports := s.reports[jobID := report]))
  }

  function RemoveJob(s: Snapshot, id: string): Result<Snapshot, StoreError> {
    if id !in s.jobs then Failure(JobNotFound)
    else
      Success(s.(
        jobs := s.jobs - {id},
        events := map e | e in s.events && s.events[e].jobID != id :: s.events[e],
        reports := s.reports - {id}))
  }

  /** The job's events with ids up to `n`, in id order. */
  function EventsUpTo(s: Snapshot, jobID: string, n: nat): seq<Event> {
    if n == 0 then []
    else EventsUpTo(s, jobID, n - 1) + if n in s.events && s.events[n].jobID == jobID then [s.events[n]] else []
  }

  function EventsOf(s: Snapshot, jobID: string): seq<Event> {
    EventsUpTo(s, jobID, s.lastEventID)
  }

  // -------------------------------------------------------------- consistency

  /** No event or report refers to a missing job, and the counter bounds the event ids. */
  ghost predicate Consistent(s: Snapshot) {
    && (forall id <- s.jobs :: s.jobs[id].id == id)
    && (forall e <- s.events :: s.events[e].id == e && 1 <= e <= s.lastEventID && s.events[e].jobID in s.jobs)
    && (forall id <- s.reports :: id in s.jobs)
  }

  lemma {:induction false} EventsUpToMeaning(s: Snapshot, jobID: string, n: nat)
    requires Consistent(s)
    ensures forall event: Event :: event in EventsUpTo(s, jobID, n) <==>
      event.id <= n && event.id in s.events && s.events[event.id] == event && event.jobID == jobID
    ensures forall i, j | 0 <= i < j < |EventsUpTo(s, jobID, n)| ::
      EventsUpTo(s, jobID, n)[i].id < EventsUpTo(s, jobID, n)[j].id
  {
    if n > 0 {
      EventsUpToMeaning(s, jobID, n - 1);
      var front := EventsUpTo(s, jobID, n - 1);
      forall i | 0 <= i < |front| ensures front[i].id <= n - 1 {
        assert front[i] in front;
      }
    }
  }

  /** Listing a job's events gives exactly its events, in the order they were appended. */
  lemma EventsOfExact(s: Snapshot, jobID: string)
    requires Consistent(s)
    ensures forall event: Event :: event in EventsOf(s, jobID) <==>
      event.id in s.events && s.events[event.id] == event && event.jobID == jobID
    ensures forall i, j | 0 <= i < j < |EventsOf(s, jobID)| :: EventsOf(s, jobID)[i].id < EventsOf(s, jobID)[j].id
  {
    EventsUpToMeaning(s, jobID, s.lastEventID);
  }

  // -------------------------------------------------------------- the store itself

  /** The store as an object. `io` is the environment's choice that the statement
      reaches the disk; when it does not, nothing changes. */
  class JobStore {
    var jobs: map<string, Job>
    var events: map<nat, Event>
    var lastEventID: nat
    var reports: map<string, Report>

    constructor ()
      ensures State() == Snapshot(map[], map[], 0, map[])
    {
      jobs, events, lastEventID, reports := map[], map[], 0, map[];
    }

    function State(): Snapshot
      reads this
    {
      Snapshot(jobs, events, lastEventID, reports)
    }

    method CreateJob(job: Job, now: string, io: bool) returns (outcome: Outcome<StoreError>)
      modifies this`jobs
      ensures outcome.Pass? <==> io && job.id !in old(jobs)
      ensures jobs ==
        if outcome.Fail? then old(jobs)
        else old(jobs)[job.id :=
          Job(job.id, job.sourceServerID, job.targetServerID, job.mode, job.status, job.checkpoint,
              if job.createdAt == "" then now else job.createdAt, now)]
      ensures outcome.Pass? <==> io && InsertJob(old(State()), job, now).Success?
      ensures State() == if outcome.Pass? then InsertJob(old(State()), job, now).value else old(State())
    {
      if !io {
        return Fail(StorageFailed);
      }
      if job.id in jobs {
        return Fail(ConstraintViolated);
      }
      var created := if job.createdAt == "" then now else job.createdAt;
      jobs := jobs[job.id := job.(createdAt := created, updatedAt := now)];
      return Pass;
    }

    method UpdateJob(id: string, status: JobStatus, checkpoint: string, now: string, io: bool)
      returns (outcome: Outcome<StoreError>)
      modifies this`jobs
      ensures outcome.Pass? <==> io && id in old(jobs)
      ensures jobs ==
        if outcome.Fail? then old(jobs)
        else old(jobs)[id := old(jobs)[id].(status := status, checkpoint := checkpoint, updatedAt := now)]
      ensures outcome.Pass? <==> io && SetStatus(old(State()), id, status, checkpoint, now).Success?
      ensures State() ==
        if outcome.Pass? then SetStatus(old(State()), id, status, checkpoint, now).value else old(State())
    {
      if !io {
        return Fail(StorageFailed);
      }
      if id !in jobs {
        return Fail(JobNotFound);
      }
      jobs := jobs[id := jobs[id].(status := status, checkpoint := checkpoint, updatedAt := now)];
      return Pass;
    }

    method AppendEvent(jobID: string, message: Message, now: string, io: bool) returns (outcome: Outcome<StoreError>)
      modifies this`events, this`lastEventID
      ensures outcome.Pass? <==> io && jobID in jobs
      ensures lastEventID == if outcome.Fail? then old(lastEventID) else old(lastEventID) + 1
      ensures events ==
        if outcome.Fail? then old(events)
        else old(events)[old(lastEventID) + 1 := Event(old(lastEventID) + 1, jobID, message, now)]
      ensures outcome.Pass? <==> io && LogEvent(old(State()), jobID, message, now).Success?
      ensures State() == if outcome.Pass? then LogEvent(old(State()), jobID, message, now).value else old(State())
    {
      if !io {
        return Fail(StorageFailed);
      }
      if jobID !in jobs {
        return Fail(ConstraintViolated);
      }
      lastEventID := lastEventID + 1;
      events := events[lastEventID := Event(lastEventID, jobID, message, now)];
      return Pass;
    }

    method SaveReport(jobID: string, report: Report, io: bool) returns (outcome: Outcome<StoreError>)
      modifies this`reports
      ensures outcome.Pass? <==> io && jobID in jobs
      ensures reports == if outcome.Fail? then old(reports) else old(reports)[jobID := report]
      ensures outcome.Pass? <==> io && PutReport(old(State()), jobID, report).Success?
      ensures State() == if outcome.Pass? then PutReport(old(State()), jobID, report).value else old(State())
    {
      if !io {
        return Fail(StorageFailed);
      }
      if jobID !in jobs {
        return Fail(ConstraintViolated);
      }
      reports := reports[jobID := report];
      return Pass;
    }

    /** Three deletes in one transaction, dropped when the job row is not there. */
    method DeleteJob(id: string, io: bool) returns (outcome: Outcome<StoreError>)
      modifies this
      ensures outcome == if !io then Fail(StorageFailed) else if id in old(jobs) then Pass else Fail(JobNotFound)
      ensures lastEventID == old(lastEventID)
      ensures outcome.Fail? ==> jobs == old(jobs) && events == old(events) && reports == old(reports)
      ensures outcome.Pass? ==>
        && jobs == old(jobs) - {id}
        && events == (map e | e in old(events) && old(events)[e].jobID != id :: old(events)[e])
        && reports == old(reports) - {id}
      ensures outcome.Pass? <==> io && RemoveJob(old(State()), id).Success?
      ensures State() == if outcome.Pass? then RemoveJob(old(State()), id).value else old(State())
    {
      var keptReports := reports - {id};
      var keptEvents := map e | e in events && events[e].jobID != id :: events[e];
      var keptJobs := jobs - {id};
      if !io {
        return Fail(StorageFailed);
      }
      if id !in jobs {
        return Fail(JobNotFound);
      }
      jobs, events, reports := keptJobs, keptEvents, keptReports;
      return Pass;
    }

    method GetJob(id: string, io: bool) returns (result: Result<Job, StoreError>)
      ensures result ==
        if !io then Failure(StorageFailed) else if id in jobs then Success(jobs[id]) else Failure(JobNotFound)
    {
      if !io {
        return Failure(StorageFailed);
      }
      if id !in jobs {
        return Failure(JobNotFound);
      }
      return Success(jobs[id]);
    }

    /** The scan loop over the job's rows in id order. */
    method ListEvents(jobID: string, io: bool) returns (result: Result<seq<Event>, StoreError>)
      ensures result == if io then Success(EventsOf(State(), jobID)) else Failure(StorageFailed)
    {
      if !io {
        return Failure(StorageFailed);
      }
      var found: seq<Event> := [];
      for n := 0 to lastEventID
        invariant found == EventsUpTo(State(), jobID, n)
      {
        if n + 1 in events && events[n + 1].jobID == jobID {
          found := found + [events[n + 1]];
        }
      }
      return Success(found);
    }
  }
}
