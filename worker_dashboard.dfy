/** The worker's job board: it reloads the whole job list from the browser
    store and shows either the open jobs or the jobs already taken. */
module WorkerDashboard {
  import opened Types
  import opened JobList
  import opened Storage
  import JobCard

  /** The two tabs of the board (`'available'` and `'my-jobs'`). */
  datatype Tab = AvailableTab | MyJobsTab

  /** A job a worker may still take. */
  predicate IsAvailable(job: Job)
  {
    job.status == Pending
  }

  /** A job that has been taken (accepted or finished). */
  predicate IsTaken(job: Job)
  {
    job.status == Accepted || job.status == Completed
  }

  /** A job that was turned down or cancelled. */
  predicate IsDeclined(job: Job)
  {
    job.status == Declined
  }

  /** `availableJobs`: the pending jobs, in fetched order. */
  function AvailableJobs(jobs: seq<Job>): (r: seq<Job>)
    ensures forall j :: j in r <==> j in jobs && j.status == Pending
  {
    Filter(jobs, IsAvailable)
  }

  /** `myJobs`: the accepted and completed jobs, in fetched order. No
      worker identity is consulted: every worker sees every taken job. */
  function MyJobs(jobs: seq<Job>): (r: seq<Job>)
    ensures forall j :: j in r <==> j in jobs && (j.status == Accepted || j.status == Completed)
  {
    Filter(jobs, IsTaken)
  }

  /** `displayJobs`: the list the selected tab shows. */
  function DisplayJobs(jobs: seq<Job>, tab: Tab): (shown: seq<Job>)
    ensures forall j :: j in shown ==> j in jobs && (j.status == Pending <==> tab == AvailableTab)
    ensures forall j :: j in jobs && j.status == Pending && tab == AvailableTab ==> j in shown
    ensures forall j :: j in jobs && (j.status == Accepted || j.status == Completed) && tab == MyJobsTab ==> j in shown
  {
    if tab == AvailableTab then AvailableJobs(jobs) else MyJobs(jobs)
  }

  /** The two tabs never show the same job, and a declined job is on
      neither. */
  lemma TabsDisjoint(jobs: seq<Job>)
    ensures forall j :: !(j in AvailableJobs(jobs) && j in MyJobs(jobs))
    ensures forall tab, j :: j in DisplayJobs(jobs, tab) ==> j in jobs && j.status != Declined
  {
  }

  /** Every fetched job is counted exactly once among the open, taken and
      declined jobs. */
  lemma {:induction false} TabsPartition(jobs: seq<Job>)
    ensures |AvailableJobs(jobs)| + |MyJobs(jobs)| + |Filter(jobs, IsDeclined)| == |jobs|
  {
    if jobs != [] {
      TabsPartition(jobs[1..]);
    }
  }

  /** After an ACCEPTED write, no job carrying the id is on the open tab. */
  lemma AcceptLeavesOpenTab(jobs: seq<Job>, id: string)
    ensures forall j :: j in AvailableJobs(SetStatusAll(jobs, id, Accepted)) ==> j.id != id
  {
    var after := SetStatusAll(jobs, id, Accepted);
    forall j | j in AvailableJobs(after)
      ensures j.id != id
    {
      assert j in after && j.status == Pending;
      var m :| 0 <= m < |after| && after[m] == j;
      assert after[m] == Restatus(jobs[m], id, Accepted);
    }
  }

  /** Accepting a job takes every job carrying its id off the open tab and
      puts it, with its new status, on the taken tab. */
  lemma AcceptMovesJob(jobs: seq<Job>, k: nat)
    requires k < |jobs|
    ensures var after := SetStatusAll(jobs, jobs[k].id, Accepted);
      (forall j :: j in AvailableJobs(after) ==> j.id != jobs[k].id) &&
      jobs[k].(status := Accepted) in MyJobs(after)
  {
    AcceptLeavesOpenTab(jobs, jobs[k].id);
    var after := SetStatusAll(jobs, jobs[k].id, Accepted);
    assert after[k] == jobs[k].(status := Accepted);
  }

  /** The board's state. */
  class Dashboard {
    const store: MockStore
    var jobs: seq<Job>
    var isLoading: bool
    var tab: Tab

    /** On mount: no jobs yet, loading, open tab selected. */
    constructor (store: MockStore)
      ensures this.store == store
      ensures jobs == [] && isLoading && tab == AvailableTab
    {
      this.store := store;
      jobs := [];
      isLoading := true;
      tab := AvailableTab;
    }

    /** The jobs the board lists. */
    function Shown(): seq<Job>
      reads this
    {
      DisplayJobs(jobs, tab)
    }

    /** A tab button click. */
    method SelectTab(t: Tab)
      modifies this`tab
      ensures tab == t
      ensures Shown() == DisplayJobs(jobs, t)
    {
      tab := t;
    }

    /** `loadJobs`: takes the whole fetched list, unfiltered; a failed fetch
        keeps the old list; either way loading is over. */
    method LoadJobs()
      modifies this`jobs, this`isLoading, store`jobsItem
      ensures store.Stored() == old(store.Stored())
      ensures store.available ==> jobs == store.Stored() && Shown() == DisplayJobs(store.Stored(), tab)
      ensures !store.available ==> jobs == old(jobs) && store.jobsItem == old(store.jobsItem)
      ensures !isLoading
    {
      var fetched := store.GetJobs();
      if fetched.Ok? {
        jobs := fetched.value;
      }
      isLoading := false;
    }

    /** A status write followed by a reload; when the write rejects, the
        awaiting handler rejects too and the reload never runs. */
    method WriteAndReload(id: string, status: JobStatus)
      modifies this`jobs, this`isLoading, store`jobsItem
      ensures store.available ==> store.Stored() == SetStatusAll(old(store.Stored()), id, status)
      ensures !store.available ==> store.jobsItem == old(store.jobsItem)
      ensures store.available && HasJob(old(store.Stored()), id) ==> jobs == store.Stored() && !isLoading
      ensures !(store.available && HasJob(old(store.Stored()), id)) ==>
        jobs == old(jobs) && isLoading == old(isLoading)
    {
      var written := store.UpdateJobStatus(id, status);
      if written.Ok? {
        LoadJobs();
      }
    }

    /** `handleAccept`: writes ACCEPTED for `id`, then reloads. */
    method HandleAccept(id: string)
      modifies this`jobs, this`isLoading, store`jobsItem
      ensures store.available ==> store.Stored() == SetStatusAll(old(store.Stored()), id, Accepted)
      ensures !store.available ==> store.jobsItem == old(store.jobsItem)
      ensures store.available && HasJob(old(store.Stored()), id) ==> jobs == store.Stored() && !isLoading
      ensures !(store.available && HasJob(old(store.Stored()), id)) ==>
        jobs == old(jobs) && isLoading == old(isLoading)
    {
      WriteAndReload(id, Accepted);
    }

    /** `handleDecline`: writes DECLINED for `id`, then reloads. */
    method HandleDecline(id: string)
      modifies this`jobs, this`isLoading, store`jobsItem
      ensures store.available ==> store.Stored() == SetStatusAll(old(store.Stored()), id, Declined)
      ensures !store.available ==> store.jobsItem == old(store.jobsItem)
      ensures store.available && HasJob(old(store.Stored()), id) ==> jobs == store.Stored() && !isLoading
      ensures !(store.available && HasJob(old(store.Stored()), id)) ==>
        jobs == old(jobs) && isLoading == old(isLoading)
    {
      WriteAndReload(id, Declined);
    }

    /** A button press on one of the board's cards: Accept and Decline are
        wired to `handleAccept` and `handleDecline`; the board passes no
        `onCancel`, so a Cancel Request press does nothing. */
    method Press(a: JobCard.Action)
      modifies this`jobs, this`isLoading, store`jobsItem
      ensures a.CancelRequest? ==> jobs == old(jobs) && isLoading == old(isLoading) && store.jobsItem == old(store.jobsItem)
      ensures !a.CancelRequest? && store.available ==>
        store.Stored() == SetStatusAll(old(store.Stored()), a.jobId, JobCard.TargetStatus(a))
      ensures !a.CancelRequest? && !store.available ==> store.jobsItem == old(store.jobsItem)
    {
      match a
      case Accept(id) => HandleAccept(id);
      case Decline(id) => HandleDecline(id);
      case CancelRequest(_) =>
    }
  }
}
