/** The browser-side store (the mock backend, which the app always uses):
    the job list and the session live under two fixed local-storage keys, and
    every operation is a read-modify-write of those entries. */
module Storage {
  import opened Types
  import opened JobList

  /** Why a store operation rejects. */
  datatype Failure = StoreUnavailable | JobNotFound

  /** The settled outcome of a store operation's promise. */
  datatype Result<T> = Ok(value: T) | Err(failure: Failure)

  /** The avatar address a profile for the role written `roleText` carries. */
  function AvatarUrl(roleText: string): string
  {
    "https://picsum.photos/seed/" + roleText + "/50/50"
  }

  /** The canonical profile for a role: one client identity, one worker
      identity, and the requested role echoed back. */
  function ProfileFor(role: Role): (u: UserProfile)
    ensures u.role == role
    ensures u.id == "client-1" <==> role == Client
    ensures u.id == "worker-1" <==> role != Client
    ensures u.name == "Alice Homeowner" <==> role == Client
    ensures u.name == "Bob Builder" <==> role != Client
  {
    UserProfile(
      if role == Client then "client-1" else "worker-1",
      if role == Client then "Alice Homeowner" else "Bob Builder",
      role,
      AvatarUrl(RoleName(role)))
  }

  /** The `jobs.map(...)` pass of `updateJobStatus`: every job carrying `id`
      gets `status`, and `updated` ends as the last job rewritten. */
  method RewriteStatuses(jobs: seq<Job>, id: string, status: JobStatus)
    returns (newJobs: seq<Job>, updated: Option<Job>)
    ensures newJobs == SetStatusAll(jobs, id, status)
    ensures updated == LastUpdated(jobs, id, status)
    ensures updated.None? <==> !HasJob(jobs, id)
  {
    newJobs, updated := [], None;
    var i := 0;
    while i < |jobs|
      invariant 0 <= i <= |jobs|
      invariant |newJobs| == i
      invariant forall k :: 0 <= k < i ==> newJobs[k] == Restatus(jobs[k], id, status)
      invariant updated == LastUpdated(jobs[..i], id, status)
    {
      assert jobs[..i + 1] == jobs[..i] + [jobs[i]];
      LastUpdatedSnoc(jobs[..i], jobs[i], id, status);
      if jobs[i].id == id {
        updated := Some(jobs[i].(status := status));
      }
      newJobs := newJobs + [Restatus(jobs[i], id, status)];
      i := i + 1;
    }
    assert jobs[..i] == jobs;
  }

  /** The store. `jobsItem` and `userItem` are the `homely_jobs` and
      `homely_current_user` entries (`None` when the key is absent); the
      encoding of an entry is taken to round-trip exactly. `available` says
      whether the storage medium answers; when it does not, every operation
      that touches it rejects and changes nothing. */
  class MockStore {
    const seedTime: int
    var jobsItem: Option<seq<Job>>
    var userItem: Option<UserProfile>
    var available: bool

    /** A page load over whatever the medium already holds; `seedTime` is
        the clock reading when the seed list is built. */
    constructor (seedTime: int, jobsItem: Option<seq<Job>>, userItem: Option<UserProfile>)
      ensures this.seedTime == seedTime && this.jobsItem == jobsItem
      ensures this.userItem == userItem && available
    {
      this.seedTime := seedTime;
      this.jobsItem := jobsItem;
      this.userItem := userItem;
      available := true;
    }

    /** The list a read returns: the stored one, or the seed list when the
        key is absent. */
    function Stored(): seq<Job>
      reads this`jobsItem
    {
      match jobsItem
      case None => SeedJobs(seedTime)
      case Some(jobs) => jobs
    }

    /** `getJobs`: returns the stored list; on a missing key it stores and
        returns the seed list. */
    method GetJobs() returns (r: Result<seq<Job>>)
      modifies this`jobsItem
      ensures Stored() == old(Stored())
      ensures available ==> r == Ok(Stored()) && jobsItem == Some(Stored())
      ensures available && old(jobsItem).None? ==> r == Ok(SeedJobs(seedTime))
      ensures available && old(jobsItem).Some? ==> jobsItem == old(jobsItem)
      ensures !available ==> r == Err(StoreUnavailable) && jobsItem == old(jobsItem)
    {
      if !available {
        return Err(StoreUnavailable);
      }
      match jobsItem
      case None =>
        jobsItem := Some(SeedJobs(seedTime));
        r := Ok(SeedJobs(seedTime));
      case Some(jobs) =>
        r := Ok(jobs);
    }

    /** `addJob`: puts `job` in front of the current list, with no check on
        its fields or its id, and hands it back unchanged. */
    method AddJob(job: Job) returns (r: Result<Job>)
      modifies this`jobsItem
      ensures available ==> r == Ok(job) && jobsItem == Some([job] + old(Stored()))
      ensures available ==> Stored()[0] == job && Stored()[1..] == old(Stored())
      ensures !available ==> r == Err(StoreUnavailable) && jobsItem == old(jobsItem)
    {
      var fetched := GetJobs();
      if fetched.Err? {
        return Err(fetched.failure);
      }
      jobsItem := Some([job] + fetched.value);
      r := Ok(job);
    }

    /** `updateJobStatus`: rewrites the status of every job carrying `id`
        and stores the result (also when nothing matched); rejects with
        `JobNotFound` when nothing matched, and otherwise returns the last
        rewritten job. */
    method UpdateJobStatus(id: string, status: JobStatus) returns (r: Result<Job>)
      modifies this`jobsItem
      ensures available ==> jobsItem == Some(SetStatusAll(old(Stored()), id, status))
      ensures available ==> r == match LastUpdated(old(Stored()), id, status)
                                 case None => Err(JobNotFound)
                                 case Some(job) => Ok(job)
      ensures !available ==> r == Err(StoreUnavailable) && jobsItem == old(jobsItem)
    {
      var fetched := GetJobs();
      if fetched.Err? {
        return Err(fetched.failure);
      }
      var newJobs, updated := RewriteStatuses(fetched.value, id, status);
      jobsItem := Some(newJobs);
      match updated
      case None => r := Err(JobNotFound);
      case Some(job) => r := Ok(job);
    }

    /** `login`: stores and returns the canonical profile for `role`. */
    method Login(role: Role) returns (r: Result<UserProfile>)
      modifies this`userItem
      ensures available ==> r == Ok(ProfileFor(role)) && userItem == Some(ProfileFor(role))
      ensures !available ==> r == Err(StoreUnavailable) && userItem == old(userItem)
    {
      if !available {
        return Err(StoreUnavailable);
      }
      var user := ProfileFor(role);
      userItem := Some(user);
      r := Ok(user);
    }

    /** `getUser`: the stored profile, or `None` when nobody is stored. */
    method GetUser() returns (r: Result<Option<UserProfile>>)
      ensures available ==> r == Ok(userItem)
      ensures !available ==> r == Err(StoreUnavailable)
    {
      if !available {
        return Err(StoreUnavailable);
      }
      r := Ok(userItem);
    }

    /** `logout`: removes the stored profile; removing an absent entry is
        harmless, so a second logout changes nothing. */
    method Logout() returns (r: Result<()>)
      modifies this`userItem
      ensures available ==> r == Ok(()) && userItem == None
      ensures !available ==> r == Err(StoreUnavailable) && userItem == old(userItem)
    {
      if !available {
        return Err(StoreUnavailable);
      }
      userItem := None;
      r := Ok(());
    }
  }
}
