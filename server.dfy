/** The HTTP store: an in-memory `JOBS` array behind four route handlers.
    Request fields that JavaScript would see as missing are passed as the
    empty string, which the handlers' `!x` tests treat the same way. */
module Server {
  import opened Types
  import opened JobList
  import Storage

  /** A profile as the login route builds it: the role is echoed as the
      request wrote it. */
  datatype WireUser = WireUser(id: string, name: string, role: string, avatar: string)

  /** The JSON body a handler sends. */
  datatype Body =
    | JobsBody(jobs: seq<Job>)
    | JobBody(job: Job)
    | UserBody(user: WireUser)
    | ErrorBody(error: string)

  /** A status code and a body. */
  datatype Response = Response(code: int, body: Body)

  /** The create route's check: both `id` and `title` present and non-empty. */
  predicate AcceptsJob(job: Job)
  {
    job.id != "" && job.title != ""
  }

  /** `POST /api/auth/login`: 400 without a role; otherwise the client
      identity for `CLIENT` and the worker identity for anything else. */
  function LoginHandler(role: string): (resp: Response)
    ensures role == "" <==> resp == Response(400, ErrorBody("Role required"))
    ensures role != "" ==> resp.code == 200 && resp.body.UserBody? && resp.body.user.role == role
    ensures role != "" ==> (resp.body.user.id == "client-1" <==> role == "CLIENT")
    ensures role != "" ==> (resp.body.user.name == "Alice Homeowner" <==> role == "CLIENT")
    ensures role != "" && role != "CLIENT" ==>
      resp.body.user.id == "worker-1" && resp.body.user.name == "Bob Builder"
    ensures role != "" ==> resp.body.user.avatar == Storage.AvatarUrl(role)
  {
    if role == "" then Response(400, ErrorBody("Role required"))
    else
      Response(200, UserBody(WireUser(
        if role == "CLIENT" then "client-1" else "worker-1",
        if role == "CLIENT" then "Alice Homeowner" else "Bob Builder",
        role,
        Storage.AvatarUrl(role))))
  }

  /** A profile written out as the login route sends it. */
  function ToWire(u: UserProfile): WireUser
  {
    WireUser(u.id, u.name, RoleName(u.role), u.avatar)
  }

  /** For every role the app can send, the HTTP login route and the browser
      store's login produce the same profile. */
  lemma LoginRoutesAgree(role: Role)
    ensures LoginHandler(RoleName(role)) == Response(200, UserBody(ToWire(Storage.ProfileFor(role))))
  {
  }

  /** The `JOBS` array: its first `count` slots hold the jobs, newest first. */
  class JobServer {
    var data: array<Job>
    var count: nat

    ghost predicate Valid()
      reads this
    {
      count <= data.Length
    }

    /** The job list the routes serve. */
    function Jobs(): seq<Job>
      reads this, data
      requires Valid()
    {
      data[..count]
    }

    /** Server start: `JOBS` holds the seed list, built at clock reading `now`. */
    constructor (now: int)
      ensures Valid() && fresh(data)
      ensures Jobs() == SeedJobs(now)
    {
      var seed := SeedJobs(now);
      data := new Job[|seed|](k requires 0 <= k < |seed| => seed[k]);
      count := |seed|;
      new;
      assert data[..count] == seed;
    }

    /** `GET /api/jobs`: every job, unfiltered, in store order. */
    method HandleGetJobs() returns (resp: Response)
      requires Valid()
      ensures resp == Response(200, JobsBody(Jobs()))
    {
      resp := Response(200, JobsBody(data[..count]));
    }

    /** `JOBS.findIndex(j => j.id === id)`: the first index carrying `id`,
        or -1. */
    method FindIndex(id: string) returns (index: int)
      requires Valid()
      ensures index == match FirstIndex(Jobs(), id) case None => -1 case Some(k) => k
    {
      var i := 0;
      while i < count
        invariant 0 <= i <= count
        invariant forall k :: 0 <= k < i ==> data[k].id != id
      {
        if data[i].id == id {
          assert Jobs()[i].id == id;
          return i;
        }
        i := i + 1;
      }
      assert forall k :: 0 <= k < count ==> Jobs()[k].id != id;
      return -1;
    }

    /** `JOBS.unshift(job)`: moves every job one slot up and writes `job`
        in slot 0, taking a larger array when the current one is full. */
    method Unshift(job: Job)
      requires Valid()
      modifies this, data
      ensures Valid()
      ensures data == old(data) || fresh(data)
      ensures Jobs() == [job] + old(Jobs())
    {
      ghost var before := data[..count];
      if count == data.Length {
        var larger := new Job[2 * data.Length + 1];
        forall k | 0 <= k < count {
          larger[k + 1] := data[k];
        }
        larger[0] := job;
        data := larger;
      } else {
        var a := data;
        var i := count;
        while i > 0
          modifies a
          invariant 0 <= i <= count < a.Length
          invariant forall k :: 0 <= k < i ==> a[k] == before[k]
          invariant forall k :: i < k <= count ==> a[k] == before[k - 1]
        {
          a[i] := a[i - 1];
          i := i - 1;
        }
        a[0] := job;
      }
      count := count + 1;
      assert data[..count] == [job] + before;
    }

    /** `POST /api/jobs`: 400 and no change when `id` or `title` is missing;
        otherwise the job goes in front and is echoed with 201. */
    method HandlePostJob(job: Job) returns (resp: Response)
      requires Valid()
      modifies this, data
      ensures Valid()
      ensures data == old(data) || fresh(data)
      ensures !AcceptsJob(job) ==> resp == Response(400, ErrorBody("Invalid job data")) && Jobs() == old(Jobs())
      ensures AcceptsJob(job) ==> resp == Response(201, JobBody(job)) && Jobs() == [job] + old(Jobs())
    {
      if job.id == "" || job.title == "" {
        return Response(400, ErrorBody("Invalid job data"));
      }
      Unshift(job);
      resp := Response(201, JobBody(job));
    }

    /** `PATCH /api/jobs/:id/status`: 404 and no change for an unknown id;
        otherwise the first job carrying `id` gets `status`, whatever its
        current status, and is sent back. */
    method HandlePatchStatus(id: string, status: JobStatus) returns (resp: Response)
      requires Valid()
      modifies data
      ensures Valid()
      ensures Jobs() == SetStatusFirst(old(Jobs()), id, status)
      ensures resp == match FirstIndex(old(Jobs()), id)
                      case None => Response(404, ErrorBody("Job not found"))
                      case Some(k) => Response(200, JobBody(old(Jobs())[k].(status := status)))
    {
      var index := FindIndex(id);
      if index == -1 {
        return Response(404, ErrorBody("Job not found"));
      }
      data[index] := data[index].(status := status);
      resp := Response(200, JobBody(data[index]));
    }
  }
}
