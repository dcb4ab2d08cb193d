/** Value types shared by every part of the job marketplace: the roles, the
    job lifecycle statuses, the service categories, the job record and the
    signed-in user's profile. */
module Types {

  /** An optional value; `None` stands for an absent field, a missing storage
      entry or JavaScript's `null`/`undefined`. */
  datatype Option<T> = None | Some(value: T)

  /** Who is using the app. `NoRole` is the source's `NONE`: nobody is signed in. */
  datatype Role = NoRole | Client | Worker

  /** The string each role is written as on the wire and in storage; no two
      roles share one. */
  function RoleName(r: Role): (s: string)
    ensures s != ""
    ensures s == "NONE" <==> r == NoRole
    ensures s == "CLIENT" <==> r == Client
    ensures s == "WORKER" <==> r == Worker
  {
    match r
    case NoRole => "NONE"
    case Client => "CLIENT"
    case Worker => "WORKER"
  }

  /** The four lifecycle stages of a job. */
  datatype JobStatus = Pending | Accepted | Declined | Completed

  /** The six service categories. */
  datatype ServiceType = Cleaning | Cooking | Gardening | Plumbing | Electrician | Other

  /** The display string each service category carries. */
  function ServiceLabel(t: ServiceType): (s: string)
    ensures s != ""
    ensures 'A' <= s[0] <= 'Z'
  {
    match t
    case Cleaning => "Cleaning"
    case Cooking => "Cooking"
    case Gardening => "Gardening"
    case Plumbing => "Plumbing"
    case Electrician => "Electrician"
    case Other => "Other"
  }

  /** A requested piece of household work. `aiEstimatedQuote` is the only
      optional field; `status` is the only field any operation rewrites after
      the job is created. */
  datatype Job = Job(
    id: string,
    clientId: string,
    title: string,
    description: string,
    serviceType: ServiceType,
    location: string,
    date: string,
    budget: string,
    status: JobStatus,
    createdAt: int,
    aiEstimatedQuote: Option<string>)

  /** The identity of the signed-in user. */
  datatype UserProfile = UserProfile(id: string, name: string, role: Role, avatar: string)

  /** Distinct service types have distinct labels, so the label a job title
      is built from names its category unambiguously. */
  lemma LabelInjective(a: ServiceType, b: ServiceType)
    ensures ServiceLabel(a) == ServiceLabel(b) ==> a == b
  {
  }
}
