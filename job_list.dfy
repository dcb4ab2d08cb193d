/** The job list as a value: the searches, the status rewrites and the
    filters that the browser store, the HTTP store and the dashboards apply to
    it, each with the properties the rest of the model relies on. */
module JobList {
  import opened Types

  /** The two jobs both stores start with; `now` is the clock reading at the
      moment the store is loaded. */
  function SeedJobs(now: int): (r: seq<Job>)
    ensures |r| == 2 && r[0].id != r[1].id
    ensures r[0].status == Pending && r[1].status == Accepted
    ensures r[0].clientId == "client-1" && r[1].clientId != "client-1"
    ensures r[0].createdAt < now && r[1].createdAt < r[0].createdAt
    ensures r[0].aiEstimatedQuote == None && r[1].aiEstimatedQuote == None
    ensures r[0].title != "" && r[1].title != "" && r[0].id != "" && r[1].id != ""
  {
    [ Job("1", "client-1", "Deep Clean Kitchen", KitchenDescription,
          Cleaning, "123 Maple Ave, Springfield", "2023-11-15", "$150",
          Pending, now - 100000, None),
      Job("2", "client-2", "Fix Leaky Faucet", FaucetDescription,
          Plumbing, "456 Oak Dr, Springfield", "2023-11-16", "$80",
          Accepted, now - 200000, None) ]
  }

  /** The seed jobs' descriptions. */
  const KitchenDescription: string :=
    "Need a full deep clean of a 200sqft kitchen, including oven and fridge."
  const FaucetDescription: string := "Kitchen sink faucet is dripping constantly."

  /** Some job in `jobs` carries `id`. */
  predicate HasJob(jobs: seq<Job>, id: string)
  {
    exists k :: 0 <= k < |jobs| && jobs[k].id == id
  }

  /** No two jobs in `jobs` share an id. */
  predicate UniqueIds(jobs: seq<Job>)
  {
    forall i, j :: 0 <= i < j < |jobs| ==> jobs[i].id != jobs[j].id
  }

  /** `after` is `before` with at most its status changed. */
  predicate SameExceptStatus(before: Job, after: Job)
  {
    after == before.(status := after.status)
  }

  /** The index of the first job carrying `id`, as `Array.findIndex` finds it. */
  function FirstIndex(jobs: seq<Job>, id: string): (r: Option<nat>)
    ensures r.Some? ==> r.value < |jobs| && jobs[r.value].id == id
    ensures r.Some? ==> forall k :: 0 <= k < r.value ==> jobs[k].id != id
    ensures r.None? <==> !HasJob(jobs, id)
  {
    if jobs == [] then None
    else if jobs[0].id == id then Some(0)
    else
      match FirstIndex(jobs[1..], id)
      case None => None
      case Some(k) => Some(k + 1)
  }

  /** The index of the last job carrying `id`. */
  function LastIndex(jobs: seq<Job>, id: string): (r: Option<nat>)
    ensures r.Some? ==> r.value < |jobs| && jobs[r.value].id == id
    ensures r.Some? ==> forall k :: r.value < k < |jobs| ==> jobs[k].id != id
    ensures r.None? <==> !HasJob(jobs, id)
  {
    if jobs == [] then None
    else if jobs[|jobs| - 1].id == id then Some(|jobs| - 1)
    else LastIndex(jobs[..|jobs| - 1], id)
  }

  /** The job `job` after a status write aimed at `id`. */
  function Restatus(job: Job, id: string, status: JobStatus): Job
  {
    if job.id == id then job.(status := status) else job
  }

  /** Every job carrying `id` gets `status`; this is the browser store's
      `jobs.map(...)` with object spread. */
  function SetStatusAll(jobs: seq<Job>, id: string, status: JobStatus): (r: seq<Job>)
    ensures |r| == |jobs|
    ensures forall k :: 0 <= k < |jobs| && jobs[k].id == id ==> r[k] == jobs[k].(status := status)
    ensures forall k :: 0 <= k < |jobs| && jobs[k].id != id ==> r[k] == jobs[k]
  {
    if jobs == [] then []
    else [Restatus(jobs[0], id, status)] + SetStatusAll(jobs[1..], id, status)
  }

  /** A write over a list with a new head is the written head followed by
      the written rest. */
  lemma SetStatusAllCons(job: Job, jobs: seq<Job>, id: string, status: JobStatus)
    ensures SetStatusAll([job] + jobs, id, status) == [Restatus(job, id, status)] + SetStatusAll(jobs, id, status)
  {
    assert ([job] + jobs)[1..] == jobs;
  }

  /** Only the first job carrying `id` gets `status`; this is the HTTP
      store's `findIndex` followed by a field assignment. */
  function SetStatusFirst(jobs: seq<Job>, id: string, status: JobStatus): (r: seq<Job>)
    ensures |r| == |jobs|
    ensures !HasJob(jobs, id) ==> r == jobs
    ensures forall k :: 0 <= k < |jobs| ==> SameExceptStatus(jobs[k], r[k])
  {
    match FirstIndex(jobs, id)
    case None => jobs
    case Some(k) => jobs[k := jobs[k].(status := status)]
  }

  /** The job the browser store hands back from a status write: the last
      job carrying `id`, with its new status (the map callback overwrites its
      captured variable on every match). */
  function LastUpdated(jobs: seq<Job>, id: string, status: JobStatus): (r: Option<Job>)
    ensures r.None? <==> !HasJob(jobs, id)
    ensures r.Some? ==> r.value.id == id && r.value.status == status
  {
    match LastIndex(jobs, id)
    case None => None
    case Some(k) => Some(jobs[k].(status := status))
  }

  /** Scanning one more job: it becomes the last rewritten job when it
      carries `id`, and otherwise the answer so far stands. */
  lemma LastUpdatedSnoc(prefix: seq<Job>, job: Job, id: string, status: JobStatus)
    ensures LastUpdated(prefix + [job], id, status) ==
      if job.id == id then Some(job.(status := status)) else LastUpdated(prefix, id, status)
  {
    assert (prefix + [job])[..|prefix|] == prefix;
  }

  /** A status write, of either kind, changes nothing but status fields, keeps
      the length and every id in place, and leaves the list alone when the id
      is unknown. */
  lemma StatusWritesTouchOnlyStatus(jobs: seq<Job>, id: string, status: JobStatus)
    ensures |SetStatusAll(jobs, id, status)| == |jobs| == |SetStatusFirst(jobs, id, status)|
    ensures forall k :: 0 <= k < |jobs| ==>
      SameExceptStatus(jobs[k], SetStatusAll(jobs, id, status)[k]) &&
      SameExceptStatus(jobs[k], SetStatusFirst(jobs, id, status)[k])
    ensures !HasJob(jobs, id) ==>
      SetStatusAll(jobs, id, status) == jobs && SetStatusFirst(jobs, id, status) == jobs
  {
    var all := SetStatusAll(jobs, id, status);
    if !HasJob(jobs, id) {
      assert forall k :: 0 <= k < |jobs| ==> all[k] == jobs[k];
    }
  }

  /** The first-match write changes exactly the first job carrying `id`. */
  lemma SetStatusFirstSpec(jobs: seq<Job>, id: string, status: JobStatus, k: nat)
    requires k < |jobs|
    ensures SetStatusFirst(jobs, id, status)[k] ==
      if FirstIndex(jobs, id) == Some(k) then jobs[k].(status := status) else jobs[k]
  {
  }

  /** When ids are unique the two stores agree: they write the same list and
      report the same job. */
  lemma {:induction false} WritesAgreeOnUniqueIds(jobs: seq<Job>, id: string, status: JobStatus)
    requires UniqueIds(jobs)
    ensures FirstIndex(jobs, id) == LastIndex(jobs, id)
    ensures SetStatusAll(jobs, id, status) == SetStatusFirst(jobs, id, status)
    ensures LastUpdated(jobs, id, status) ==
      match FirstIndex(jobs, id)
      case None => None
      case Some(k) => Some(SetStatusFirst(jobs, id, status)[k])
  {
    var first, last := FirstIndex(jobs, id), LastIndex(jobs, id);
    if first.Some? {
      assert last.Some?;
    }
    var all, one := SetStatusAll(jobs, id, status), SetStatusFirst(jobs, id, status);
    assert |all| == |one|;
    forall k | 0 <= k < |jobs|
      ensures all[k] == one[k]
    {
      if jobs[k].id == id {
        assert first.Some?;
      }
    }
  }

  /** When two jobs share an id the stores disagree: the browser store
      rewrites the later one too, the HTTP store leaves it alone. */
  lemma DuplicateIdsDiverge(jobs: seq<Job>, i: nat, j: nat, status: JobStatus)
    requires i < j < |jobs| && jobs[i].id == jobs[j].id
    requires jobs[j].status != status
    ensures SetStatusAll(jobs, jobs[i].id, status)[j].status == status
    ensures SetStatusFirst(jobs, jobs[i].id, status)[j] == jobs[j]
    ensures SetStatusAll(jobs, jobs[i].id, status) != SetStatusFirst(jobs, jobs[i].id, status)
  {
    var id := jobs[i].id;
    var first := FirstIndex(jobs, id);
    assert first.Some? && first.value <= i;
    SetStatusFirstSpec(jobs, id, status, j);
  }

  /** The jobs of `jobs` that satisfy `keep`, in their original order. */
  function Filter(jobs: seq<Job>, keep: Job -> bool): (r: seq<Job>)
    ensures |r| <= |jobs|
    ensures forall j :: j in r <==> j in jobs && keep(j)
  {
    if jobs == [] then []
    else (if keep(jobs[0]) then [jobs[0]] else []) + Filter(jobs[1..], keep)
  }

  /** Filtering distributes over concatenation: each part keeps its kept jobs
      in their order, so the filter never reorders the list. */
  lemma {:induction false} FilterAppend(a: seq<Job>, b: seq<Job>, keep: Job -> bool)
    ensures Filter(a + b, keep) == Filter(a, keep) + Filter(b, keep)
  {
    if a == [] {
      assert a + b == b;
    } else {
      assert (a + b)[0] == a[0];
      assert (a + b)[1..] == a[1..] + b;
      FilterAppend(a[1..], b, keep);
    }
  }

  /** A job put in front of the list is kept in front when it passes. */
  lemma FilterCons(job: Job, jobs: seq<Job>, keep: Job -> bool)
    ensures Filter([job] + jobs, keep) == (if keep(job) then [job] else []) + Filter(jobs, keep)
  {
    FilterAppend([job], jobs, keep);
  }

  /** Filtering twice with the same test gives the same list as once. */
  lemma {:induction false} FilterIdempotent(jobs: seq<Job>, keep: Job -> bool)
    ensures Filter(Filter(jobs, keep), keep) == Filter(jobs, keep)
  {
    if jobs != [] {
      FilterIdempotent(jobs[1..], keep);
      if keep(jobs[0]) {
        FilterCons(jobs[0], Filter(jobs[1..], keep), keep);
      } else {
        assert Filter(jobs, keep) == Filter(jobs[1..], keep);
      }
    }
  }

  /** Filtering a status write: jobs the write cannot touch stay filtered
      as before. */
  lemma {:induction false} FilterUnknownIdWrite(jobs: seq<Job>, id: string, status: JobStatus, keep: Job -> bool)
    requires !HasJob(jobs, id)
    ensures Filter(SetStatusAll(jobs, id, status), keep) == Filter(jobs, keep)
  {
    StatusWritesTouchOnlyStatus(jobs, id, status);
  }

  /** The status moves the job card's buttons offer: a pending job may be
      accepted or declined, and nothing else. No page handler requests
      COMPLETED, although the worker's taken tab lists it; both stores write
      it when asked. Neither store enforces these moves. */
  predicate LegalTransition(from: JobStatus, to: JobStatus)
  {
    from == Pending && (to == Accepted || to == Declined)
  }

  /** Neither store checks the card's moves: a declined job can be written
      back to pending. */
  lemma WritesIgnoreLifecycle(job: Job)
    requires job.status == Declined
    ensures !LegalTransition(job.status, Pending)
    ensures SetStatusAll([job], job.id, Pending) == [job.(status := Pending)]
    ensures SetStatusFirst([job], job.id, Pending) == [job.(status := Pending)]
  {
    assert FirstIndex([job], job.id) == Some(0);
  }
}
