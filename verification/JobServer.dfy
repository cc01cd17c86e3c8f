/** The HTTP handlers over the job history: internal/server/server.go. */
module JobServer {
  import opened Wrappers
  import opened Text
  import opened Store
  import opened History

  const STATUS_OK := 200
  const STATUS_BAD_REQUEST := 400
  const STATUS_FORBIDDEN := 403
  const STATUS_NOT_FOUND := 404
  const STATUS_CONFLICT := 409
  const STATUS_INTERNAL_ERROR := 500

  class Server {
    const store: JobStore
    const adminToken: string

    constructor (store: JobStore, adminToken: string)
      ensures this.store == store && this.adminToken == adminToken
    {
      this.store, this.adminToken := store, adminToken;
    }

    /** A request needs the configured token; without a configured one none passes. */
    predicate Admits(token: string) {
      adminToken != "" && token != "" && token == adminToken
    }

    /** `LIMIT ? OFFSET ?` over the ordered listing, scanned row by row. */
    method ListJobsPage(limit: int, offset: int, io: bool) returns (result: Result<seq<Job>, StoreError>)
      requires Keyed(store.jobs)
      ensures result == if io then Success(Page(NewestFirst(store.jobs), limit, offset)) else Failure(StorageFailed)
    {
      if !io {
        return Failure(StorageFailed);
      }
      var size := if limit <= 0 then DEFAULT_JOB_LIMIT else limit;
      var start := if offset < 0 then 0 else offset;
      var rows := NewestFirst(store.jobs);
      var jobs: seq<Job> := [];
      var i := start;
      while i < |rows| && i < start + size
        invariant start <= i <= start + size
        invariant if start <= |rows| then i <= |rows| && jobs == rows[start..i] else i == start && jobs == []
      {
        jobs := jobs + [rows[i]];
        i := i + 1;
      }
      assert jobs == Page(rows, limit, offset);
      return Success(jobs);
    }

    /** Collects the ids of the first page into a set. */
    method ProtectedIDs(limit: int, io: bool) returns (result: Result<set<string>, StoreError>)
      requires Keyed(store.jobs)
      ensures result == if io then Success(ProtectedJobIDs(store.jobs, limit)) else Failure(StorageFailed)
    {
      var listed := ListJobsPage(limit, 0, io);
      if listed.Failure? {
        return Failure(listed.error);
      }
      var jobs := listed.value;
      var ids: set<string> := {};
      for i := 0 to |jobs|
        invariant ids == set job <- jobs[..i] :: job.id
      {
        assert jobs[..i + 1] == jobs[..i] + [jobs[i]];
        ids := ids + {jobs[i].id};
      }
      assert jobs[..|jobs|] == jobs;
      return Success(ids);
    }

    /** Deletes a job that is not among the newest 50. `ioList` and `ioDelete` are the
        environment's choice that the two store calls reach the disk. */
    method HandleDeleteJob(token: string, rawID: string, ioList: bool, ioDelete: bool) returns (status: int)
      requires Keyed(store.jobs)
      modifies store
      ensures status == 403 <==> adminToken == "" || token != adminToken
      ensures status != 403 ==>
        var id := TrimSpace(rawID);
        && (status == 200 <==> ioList && ioDelete && id != "" && Deletable(old(store.jobs), id))
        && (status == 400 <==> id == "")
        && (status == 409 <==> id != "" && ioList && id in ProtectedJobIDs(old(store.jobs), 50))
        && (status == 404 <==> id != "" && ioList && ioDelete && id !in old(store.jobs))
        && (status == 200 ==>
          && store.jobs == old(store.jobs) - {id} && store.reports == old(store.reports) - {id}
          && store.events == (map e | e in old(store.events) && old(store.events)[e].jobID != id :: old(store.events)[e])
          && store.lastEventID == old(store.lastEventID))
      ensures status in {200, 400, 403, 404, 409, 500}
      ensures status != 200 ==> store.State() == old(store.State())
    {
      if !Admits(token) {
        return STATUS_FORBIDDEN;
      }
      var id := TrimSpace(rawID);
      if id == "" {
        return STATUS_BAD_REQUEST;
      }
      var protectedIDs := ProtectedIDs(PROTECTED_JOB_COUNT, ioList);
      if protectedIDs.Failure? {
        return STATUS_INTERNAL_ERROR;
      }
      ProtectedJobsExist(store.jobs, PROTECTED_JOB_COUNT);
      if id in protectedIDs.value {
        return STATUS_CONFLICT;
      }
      var outcome := store.DeleteJob(id, ioDelete);
      if outcome.Fail? {
        return if outcome.error == JobNotFound then STATUS_NOT_FOUND else STATUS_INTERNAL_ERROR;
      }
      return STATUS_OK;
    }

    /** One page of the history with its totals, or nothing when a query fails. */
    method HandleListJobs(limit: Option<int>, offset: Option<int>, ioList: bool, ioCount: bool)
      returns (page: Option<JobsPage>)
      requires Keyed(store.jobs)
      ensures page == if ioList && ioCount then Some(ServePage(store.jobs, limit, offset)) else None
    {
      var size := BoundedQueryInt(limit, JOB_PAGE_SIZE, MAX_JOB_PAGE_SIZE);
      var start := NonNegativeQueryInt(offset, 0);
      var listed := ListJobsPage(size, start, ioList);
      if listed.Failure? || !ioCount {
        return None;
      }
      return Some(JobsPage(listed.value, |store.jobs|, size, start, PROTECTED_JOB_COUNT));
    }
  }

  lemma ProtectedJobsExist(jobs: map<string, Job>, limit: int)
    requires Keyed(jobs)
    ensures ProtectedJobIDs(jobs, limit) <= jobs.Keys
  {
    NewestFirstExact(jobs);
    forall job <- Page(NewestFirst(jobs), limit, 0) ensures job.id in jobs {
      assert job in NewestFirst(jobs);
    }
  }
}
