/** Job history: its order, its pages and which jobs may be deleted:
    internal/state/store.go, internal/server/server.go, internal/server/static/app.js. */
module History {
  import opened Wrappers
  import opened Text
  import opened Store

  const PROTECTED_JOB_COUNT := 50
  const JOB_PAGE_SIZE := 50
  const MAX_JOB_PAGE_SIZE := 50
  const DEFAULT_JOB_LIMIT := 50

  /** ORDER BY updated_at DESC, id DESC, on the stored texts. */
  predicate ListedBefore(a: Job, b: Job) {
    Precedes(b.updatedAt, a.updatedAt) || (a.updatedAt == b.updatedAt && Precedes(b.id, a.id))
  }

  predicate Keyed(jobs: map<string, Job>) {
    forall id <- jobs :: jobs[id].id == id
  }

  lemma ListedBeforeAsymmetric()
    ensures forall a: Job, b: Job | ListedBefore(a, b) :: !ListedBefore(b, a)
  {
    forall a: Job, b: Job | ListedBefore(a, b) ensures !ListedBefore(b, a) {
      if Precedes(b.updatedAt, a.updatedAt) {
        PrecedesAsymmetric(b.updatedAt, a.updatedAt);
      } else {
        PrecedesAsymmetric(b.id, a.id);
      }
    }
  }

  lemma ListedBeforeTransitive(a: Job, b: Job, c: Job)
    requires ListedBefore(a, b) && ListedBefore(b, c)
    ensures ListedBefore(a, c)
  {
    if Precedes(b.updatedAt, a.updatedAt) && Precedes(c.updatedAt, b.updatedAt) {
      PrecedesTransitive(c.updatedAt, b.updatedAt, a.updatedAt);
    } else if a.updatedAt == b.updatedAt && b.updatedAt == c.updatedAt {
      PrecedesTransitive(c.id, b.id, a.id);
    }
  }

  lemma ListedBeforeTotal(a: Job, b: Job)
    requires a.id != b.id
    ensures ListedBefore(a, b) || ListedBefore(b, a)
  {
    if a.updatedAt == b.updatedAt {
      PrecedesTotal(a.id, b.id);
    } else {
      PrecedesTotal(a.updatedAt, b.updatedAt);
    }
  }

  predicate IsNewest(jobs: map<string, Job>, id: string) {
    id in jobs && forall other <- jobs | other != id :: ListedBefore(jobs[id], jobs[other])
  }

  lemma NewestExists(jobs: map<string, Job>) returns (id: string)
    requires jobs != map[] && Keyed(jobs)
    ensures IsNewest(jobs, id)
    decreases |jobs|
  {
    var some :| some in jobs;
    var rest := jobs - {some};
    if rest == map[] {
      id := some;
      assert forall other <- jobs | other != id :: other in rest;
    } else {
      var best := NewestExists(rest);
      ListedBeforeTotal(jobs[some], jobs[best]);
      id := if ListedBefore(jobs[some], jobs[best]) then some else best;
      forall other <- jobs | other != id ensures ListedBefore(jobs[id], jobs[other]) {
        assert other == some || other in rest;
        if id == some && other != best {
          ListedBeforeTransitive(jobs[some], jobs[best], jobs[other]);
        }
      }
    }
  }

  lemma SomeNewest(jobs: map<string, Job>)
    requires jobs != map[] && Keyed(jobs)
    ensures exists id :: IsNewest(jobs, id)
  {
    var id := NewestExists(jobs);
  }

  function Newest(jobs: map<string, Job>): (id: string)
    requires jobs != map[] && Keyed(jobs)
    ensures IsNewest(jobs, id)
  {
    SomeNewest(jobs);
    ListedBeforeAsymmetric();
    var id :| id in jobs && IsNewest(jobs, id);
    id
  }

  /** The whole listing. */
  function NewestFirst(jobs: map<string, Job>): seq<Job>
    requires Keyed(jobs)
    decreases |jobs|
  {
    if jobs == map[] then []
    else [jobs[Newest(jobs)]] + NewestFirst(jobs - {Newest(jobs)})
  }

  /** The listing holds every job once, and each job comes before those it is listed before. */
  lemma {:induction false} NewestFirstExact(jobs: map<string, Job>)
    requires Keyed(jobs)
    ensures |NewestFirst(jobs)| == |jobs|
    ensures forall job: Job :: job in NewestFirst(jobs) <==> job.id in jobs && jobs[job.id] == job
    ensures forall i, j | 0 <= i < j < |NewestFirst(jobs)| :: ListedBefore(NewestFirst(jobs)[i], NewestFirst(jobs)[j])
    ensures forall i, j | 0 <= i < j < |NewestFirst(jobs)| :: NewestFirst(jobs)[i].id != NewestFirst(jobs)[j].id
    decreases |jobs|
  {
    if jobs != map[] {
      var first := Newest(jobs);
      var rest := jobs - {first};
      NewestFirstExact(rest);
      var tail := NewestFirst(rest);
      forall j | 0 <= j < |tail| ensures ListedBefore(jobs[first], tail[j]) && tail[j].id != first {
        assert tail[j] in tail;
      }
      forall job: Job ensures job in NewestFirst(jobs) <==> job.id in jobs && jobs[job.id] == job {
        assert job in NewestFirst(jobs) <==> job == jobs[first] || job in tail;
      }
    }
  }

  /** Of any two jobs listed, the first has the greater time or, at equal times, the greater id. */
  lemma NewerIsListedFirst(jobs: map<string, Job>, i: nat, j: nat)
    requires Keyed(jobs) && i < j < |NewestFirst(jobs)|
    ensures var a, b := NewestFirst(jobs)[i], NewestFirst(jobs)[j];
      Precedes(b.updatedAt, a.updatedAt) || (b.updatedAt == a.updatedAt && Precedes(b.id, a.id))
  {
    NewestFirstExact(jobs);
  }

  /** A job that is updated last, on the stored texts, moves to the top of the listing. */
  lemma UpdatedJobMovesUp(s: Snapshot, id: string, status: JobStatus, checkpoint: string, now: string)
    requires Keyed(s.jobs) && id in s.jobs
    requires forall other <- s.jobs | other != id :: Precedes(s.jobs[other].updatedAt, now)
    ensures SetStatus(s, id, status, checkpoint, now).Success?
    ensures var after := SetStatus(s, id, status, checkpoint, now).value.jobs;
      && Keyed(after) && NewestFirst(after) != []
      && NewestFirst(after)[0] == s.jobs[id].(status := status, checkpoint := checkpoint, updatedAt := now)
  {
    var after := SetStatus(s, id, status, checkpoint, now).value.jobs;
    var listing := NewestFirst(after);
    NewestFirstExact(after);
    assert after[id] in listing;
    assert listing[0] in listing;
    var k :| 0 <= k < |listing| && listing[k] == after[id];
    if k > 0 {
      NewerIsListedFirst(after, 0, k);
      var other := listing[0].id;
      assert other in s.jobs && other != id && listing[0] == s.jobs[other];
      PrecedesAsymmetric(s.jobs[other].updatedAt, now);
    }
  }

  /** LIMIT and OFFSET, with the store's defaults for senseless values. */
  function Page(listing: seq<Job>, limit: int, offset: int): seq<Job> {
    var size := if limit <= 0 then DEFAULT_JOB_LIMIT else limit;
    var start := if offset < 0 then 0 else offset;
    if start >= |listing| then []
    else if start + size >= |listing| then listing[start..]
    else listing[start..start + size]
  }

  /** A senseless limit stands for 50, a negative offset for 0. */
  lemma PageDefaults(listing: seq<Job>, limit: int, offset: int)
    ensures limit <= 0 ==> Page(listing, limit, offset) == Page(listing, 50, offset)
    ensures offset < 0 ==> Page(listing, limit, offset) == Page(listing, limit, 0)
    ensures limit > 0 && offset >= 0 ==>
      && |Page(listing, limit, offset)| ==
         (if offset >= |listing| then 0 else if offset + limit <= |listing| then limit else |listing| - offset)
      && forall i | 0 <= i < |Page(listing, limit, offset)| :: Page(listing, limit, offset)[i] == listing[offset + i]
  {
  }

  function ProtectedJobIDs(jobs: map<string, Job>, limit: int): set<string>
    requires Keyed(jobs)
  {
    set job <- Page(NewestFirst(jobs), limit, 0) :: job.id
  }

  // -------------------------------------------------------------- deletion

  /** The delete handler lets the job go. */
  predicate Deletable(jobs: map<string, Job>, id: string)
    requires Keyed(jobs)
  {
    id in jobs && id !in ProtectedJobIDs(jobs, PROTECTED_JOB_COUNT)
  }

  lemma NewestOfFewer(jobs: map<string, Job>, id: string)
    requires jobs != map[] && Keyed(jobs) && Newest(jobs) != id
    ensures jobs - {id} != map[] && Newest(jobs - {id}) == Newest(jobs)
  {
    var first, fewer := Newest(jobs), jobs - {id};
    assert first in fewer;
    var second := Newest(fewer);
    assert IsNewest(fewer, second) && second in jobs;
    if first != second {
      assert ListedBefore(jobs[first], jobs[second]) && ListedBefore(fewer[second], fewer[first]);
      ListedBeforeAsymmetric();
    }
  }

  lemma ConsPrefix<T>(x: T, a: seq<T>, b: seq<T>, n: nat)
    requires 0 < n <= |a| + 1 && n <= |b| + 1 && a[..n - 1] == b[..n - 1]
    ensures ([x] + a)[..n] == ([x] + b)[..n]
  {
    assert ([x] + a)[..n] == [x] + a[..n - 1];
    assert ([x] + b)[..n] == [x] + b[..n - 1];
  }

  lemma SamePrefix<T>(x: T, a: seq<T>, b: seq<T>, n: nat, left: seq<T>, right: seq<T>)
    requires 0 < n <= |left| && n - 1 <= |b| && left == [x] + a && right == [x] + b
    requires a[..n - 1] == b[..n - 1]
    ensures n <= |right| && right[..n] == left[..n]
  {
    ConsPrefix(x, a, b, n);
  }

  lemma RemovalUnderFirst(jobs: map<string, Job>, id: string)
    requires Keyed(jobs) && id in jobs && Newest(jobs) != id
    ensures NewestFirst(jobs - {id}) == [jobs[Newest(jobs)]] + NewestFirst(jobs - {Newest(jobs)} - {id})
  {
    NewestOfFewer(jobs, id);
    assert jobs - {id} - {Newest(jobs)} == jobs - {Newest(jobs)} - {id};
  }

  lemma FirstIsNewest(jobs: map<string, Job>)
    requires Keyed(jobs) && jobs != map[]
    ensures NewestFirst(jobs) == [jobs[Newest(jobs)]] + NewestFirst(jobs - {Newest(jobs)})
  {
  }

  lemma TailAvoids(x: Job, tail: seq<Job>, n: nat, id: string)
    requires 0 < n <= |tail| + 1
    requires forall k | 0 <= k < n :: ([x] + tail)[k].id != id
    ensures x.id != id
    ensures forall k | 0 <= k < n - 1 :: tail[k].id != id
  {
    assert ([x] + tail)[0] == x;
    forall k | 0 <= k < n - 1 ensures tail[k].id != id {
      assert ([x] + tail)[k + 1] == tail[k];
    }
  }

  /** The job stands nowhere in the first `n` places. */
  predicate StandsBehind(listing: seq<Job>, id: string, n: nat) {
    n <= |listing| && forall k | 0 <= k < n :: listing[k].id != id
  }

  lemma StandsBehindFirst(jobs: map<string, Job>, id: string, n: nat)
    requires Keyed(jobs) && id in jobs && 0 < n && StandsBehind(NewestFirst(jobs), id, n)
    ensures jobs != map[] && Newest(jobs) != id && Keyed(jobs - {Newest(jobs)})
    ensures |jobs - {Newest(jobs)}| < |jobs| && StandsBehind(NewestFirst(jobs - {Newest(jobs)}), id, n - 1)
  {
    FirstIsNewest(jobs);
    TailAvoids(jobs[Newest(jobs)], NewestFirst(jobs - {Newest(jobs)}), n, id);
  }

  /** Taking out a job leaves the positions before its own alone. */
  lemma {:induction false} RemovalKeepsPrefix(jobs: map<string, Job>, id: string, n: nat)
    requires Keyed(jobs) && id in jobs && StandsBehind(NewestFirst(jobs), id, n)
    ensures n <= |NewestFirst(jobs - {id})|
    ensures NewestFirst(jobs - {id})[..n] == NewestFirst(jobs)[..n]
    decreases |jobs|
  {
    if n > 0 {
      StandsBehindFirst(jobs, id, n);
      RemovalKeepsPrefix(jobs - {Newest(jobs)}, id, n - 1);
      OneMoreInFront(jobs, id, n);
    }
  }

  lemma OneMoreInFront(jobs: map<string, Job>, id: string, n: nat)
    requires Keyed(jobs) && id in jobs && Newest(jobs) != id && 0 < n <= |NewestFirst(jobs)|
    requires n - 1 <= |NewestFirst(jobs - {Newest(jobs)} - {id})|
    requires NewestFirst(jobs - {Newest(jobs)} - {id})[..n - 1] == NewestFirst(jobs - {Newest(jobs)})[..n - 1]
    ensures n <= |NewestFirst(jobs - {id})|
    ensures NewestFirst(jobs - {id})[..n] == NewestFirst(jobs)[..n]
  {
    FirstIsNewest(jobs);
    RemovalUnderFirst(jobs, id);
    SamePrefix(jobs[Newest(jobs)], NewestFirst(jobs - {Newest(jobs)}), NewestFirst(jobs - {Newest(jobs)} - {id}), n,
      NewestFirst(jobs), NewestFirst(jobs - {id}));
  }

  /** A job that may be deleted stands behind the first 50. */
  lemma DeletableIsBehind(jobs: map<string, Job>, id: string)
    requires Keyed(jobs) && Deletable(jobs, id)
    ensures |NewestFirst(jobs)| > PROTECTED_JOB_COUNT
    ensures forall i | 0 <= i < PROTECTED_JOB_COUNT :: NewestFirst(jobs)[i].id != id
  {
    var listing := NewestFirst(jobs);
    NewestFirstExact(jobs);
    assert jobs[id] in listing;
    var k :| 0 <= k < |listing| && listing[k] == jobs[id];
    var page := Page(listing, PROTECTED_JOB_COUNT, 0);
    forall i | 0 <= i < |page| ensures page[i].id != id {
      assert page[i] in page;
    }
    assert forall i | 0 <= i < |page| :: page[i] == listing[i];
  }

  lemma FirstPage(listing: seq<Job>)
    requires |listing| >= PROTECTED_JOB_COUNT
    ensures Page(listing, PROTECTED_JOB_COUNT, 0) == listing[..PROTECTED_JOB_COUNT]
  {
  }

  /** A permitted deletion takes a job out of the listing behind the first 50: those
      stay as they are, and at least 50 jobs remain. */
  lemma DeletionKeepsProtected(jobs: map<string, Job>, id: string)
    requires Keyed(jobs) && Deletable(jobs, id)
    ensures Keyed(jobs - {id})
    ensures |NewestFirst(jobs)| > PROTECTED_JOB_COUNT && |NewestFirst(jobs - {id})| >= PROTECTED_JOB_COUNT
    ensures NewestFirst(jobs - {id})[..PROTECTED_JOB_COUNT] == NewestFirst(jobs)[..PROTECTED_JOB_COUNT]
    ensures ProtectedJobIDs(jobs - {id}, PROTECTED_JOB_COUNT) == ProtectedJobIDs(jobs, PROTECTED_JOB_COUNT)
  {
    DeletableIsBehind(jobs, id);
    RemovalKeepsPrefix(jobs, id, PROTECTED_JOB_COUNT);
    FirstPage(NewestFirst(jobs));
    FirstPage(NewestFirst(jobs - {id}));
  }

  /** The handler deletes exactly the jobs listed at position 50 or later. */
  lemma DeletableByPosition(jobs: map<string, Job>, k: nat)
    requires Keyed(jobs) && k < |NewestFirst(jobs)|
    ensures Deletable(jobs, NewestFirst(jobs)[k].id) <==> k >= 50
  {
    var listing := NewestFirst(jobs);
    NewestFirstExact(jobs);
    var page := Page(listing, PROTECTED_JOB_COUNT, 0);
    assert page == listing[..if |listing| < PROTECTED_JOB_COUNT then |listing| else PROTECTED_JOB_COUNT];
    assert listing[k] in listing;
    if k < PROTECTED_JOB_COUNT {
      assert page[k] == listing[k];
    } else {
      forall i | 0 <= i < |page| ensures page[i].id != listing[k].id {
        assert page[i] == listing[i];
      }
    }
  }

  // -------------------------------------------------------------- the UI's pages

  /** A query integer: the parsed value, or None when it is missing or not a number. */
  function NonNegativeQueryInt(raw: Option<int>, fallback: int): int {
    if raw.None? || raw.value < 0 then fallback else raw.value
  }

  function BoundedQueryInt(raw: Option<int>, fallback: int, maxValue: int): int {
    var value := NonNegativeQueryInt(raw, fallback);
    if value <= 0 then fallback
    else if maxValue > 0 && value > maxValue then maxValue
    else value
  }

  /** The answer to a page request. */
  datatype JobsPage = JobsPage(jobs: seq<Job>, total: nat, limit: int, offset: int, protectedCount: int)

  function ServePage(jobs: map<string, Job>, limit: Option<int>, offset: Option<int>): JobsPage
    requires Keyed(jobs)
  {
    var size := BoundedQueryInt(limit, JOB_PAGE_SIZE, MAX_JOB_PAGE_SIZE);
    var start := NonNegativeQueryInt(offset, 0);
    JobsPage(Page(NewestFirst(jobs), size, start), |jobs|, size, start, PROTECTED_JOB_COUNT)
  }

  /** A page request on this listing: a limit from 1 to 50 is honoured, a greater one cut
      down to 50, a missing or senseless one taken as 50; a missing or senseless offset is
      0. What is served is that stretch of the listing. */
  lemma ServePageExact(jobs: map<string, Job>, listing: seq<Job>, limit: Option<int>, offset: Option<int>)
    requires Keyed(jobs) && listing == NewestFirst(jobs)
    ensures var page := ServePage(jobs, limit, offset);
      && page.limit == (if limit.None? || limit.value < 1 then 50 else if limit.value <= 50 then limit.value else 50)
      && page.offset == (if offset.None? || offset.value < 0 then 0 else offset.value)
      && page.total == |jobs| && page.protectedCount == 50
      && |page.jobs| == (if page.offset >= |listing| then 0
                         else if page.offset + page.limit <= |listing| then page.limit
                         else |listing| - page.offset)
      && forall i | 0 <= i < |page.jobs| :: page.jobs[i] == listing[page.offset + i]
  {
  }

  predicate CanGoNext(page: JobsPage) {
    page.offset + |page.jobs| < page.total
  }

  function NextOffset(page: JobsPage): int {
    page.offset + page.limit
  }

  /** The UI's own rule for showing a delete button. */
  predicate ShowsDelete(page: JobsPage, index: nat) {
    page.offset + index >= page.protectedCount
  }

  lemma PageSizeIsSensible(limit: Option<int>)
    ensures 1 <= BoundedQueryInt(limit, JOB_PAGE_SIZE, MAX_JOB_PAGE_SIZE) <= MAX_JOB_PAGE_SIZE
  {
  }

  /** Following the next buttons from an offset, on an unchanged store. */
  function Walk(jobs: map<string, Job>, limit: Option<int>, offset: nat): seq<Job>
    requires Keyed(jobs)
    decreases |jobs| - offset
  {
    PageSizeIsSensible(limit);
    NewestFirstExact(jobs);
    var page := ServePage(jobs, limit, Some(offset));
    if CanGoNext(page) then page.jobs + Walk(jobs, limit, NextOffset(page)) else page.jobs
  }

  lemma SplitAt<T>(s: seq<T>, i: nat, j: nat)
    requires i <= j <= |s|
    ensures s[i..] == s[i..j] + s[j..]
  {
  }

  /** One page, and whether another follows. */
  lemma PageIsSlice(listing: seq<Job>, size: int, offset: nat)
    requires offset <= |listing| && 1 <= size
    ensures var page := Page(listing, size, offset);
      if offset + |page| < |listing| then
        offset + size <= |listing| && page == listing[offset..offset + size]
      else page == listing[offset..]
  {
  }

  /** A walk is one page and the walk from the next offset. */
  lemma WalkStep(jobs: map<string, Job>, limit: Option<int>, offset: nat)
    requires Keyed(jobs)
    ensures var page := ServePage(jobs, limit, Some(offset));
      && page.offset == offset && page.total == |jobs| && page.jobs == Page(NewestFirst(jobs), page.limit, offset)
      && 1 <= page.limit
      && Walk(jobs, limit, offset) ==
         if CanGoNext(page) then page.jobs + Walk(jobs, limit, NextOffset(page)) else page.jobs
  {
    PageSizeIsSensible(limit);
  }

  lemma PageAndRest(listing: seq<Job>, page: JobsPage, offset: nat)
    requires page.jobs == Page(listing, page.limit, offset) && 1 <= page.limit
    requires page.offset == offset <= page.total == |listing|
    ensures CanGoNext(page) ==> NextOffset(page) <= |listing| && page.jobs + listing[NextOffset(page)..] == listing[offset..]
    ensures !CanGoNext(page) ==> page.jobs == listing[offset..]
  {
    PageIsSlice(listing, page.limit, offset);
    if CanGoNext(page) {
      SplitAt(listing, offset, NextOffset(page));
    }
  }

  /** The walk shows the rest of the listing, each job once and in order. */
  lemma {:induction false} WalkShowsRest(jobs: map<string, Job>, limit: Option<int>, offset: nat)
    requires Keyed(jobs) && offset <= |NewestFirst(jobs)|
    ensures Walk(jobs, limit, offset) == NewestFirst(jobs)[offset..]
    decreases |jobs| - offset
  {
    NewestFirstExact(jobs);
    WalkStep(jobs, limit, offset);
    var listing, page := NewestFirst(jobs), ServePage(jobs, limit, Some(offset));
    PageAndRest(listing, page, offset);
    if CanGoNext(page) {
      WalkShowsRest(jobs, limit, NextOffset(page));
    }
  }

  /** Paging from the start visits the whole history. */
  lemma PagingCoversHistory(jobs: map<string, Job>, limit: Option<int>)
    requires Keyed(jobs)
    ensures Walk(jobs, limit, 0) == NewestFirst(jobs)
  {
    WalkShowsRest(jobs, limit, 0);
  }

  lemma ButtonAt(
    jobs: map<string, Job>, listing: seq<Job>, page: JobsPage, limit: Option<int>, offset: Option<int>, index: nat)
    requires Keyed(jobs) && listing == NewestFirst(jobs) && page == ServePage(jobs, limit, offset)
    requires index < |page.jobs|
    ensures ShowsDelete(page, index) <==> Deletable(jobs, page.jobs[index].id)
  {
    ServePageExact(jobs, listing, limit, offset);
    DeletableByPosition(jobs, page.offset + index);
  }

  /** The page-local rule shows a delete button exactly where the server allows the deletion. */
  lemma DeleteButtonAgreesWithServer(jobs: map<string, Job>, limit: Option<int>, offset: Option<int>, index: nat)
    requires Keyed(jobs)
    requires index < |ServePage(jobs, limit, offset).jobs|
    ensures ShowsDelete(ServePage(jobs, limit, offset), index)
            <==> Deletable(jobs, ServePage(jobs, limit, offset).jobs[index].id)
  {
    ButtonAt(jobs, NewestFirst(jobs), ServePage(jobs, limit, offset), limit, offset, index);
  }
}
