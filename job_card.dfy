/** What a job card offers: the action buttons for the viewer's role and
    the job's status, the "Scheduled" badge, the AI note and the status
    colour. */
module JobCard {
  import opened Types
  import opened JobList

  /** A button on the card and the job id its handler is called with. */
  datatype Action = Decline(jobId: string) | Accept(jobId: string) | CancelRequest(jobId: string)

  /** The status the handler behind each button writes. */
  function TargetStatus(a: Action): JobStatus
  {
    match a
    case Decline(_) => Declined
    case Accept(_) => Accepted
    case CancelRequest(_) => Declined
  }

  /** The buttons, left to right. Only a pending job has any: a worker gets
      Decline and Accept, a client gets Cancel Request. */
  function Actions(role: Role, job: Job): (r: seq<Action>)
    ensures r != [] <==> job.status == Pending && role != NoRole
    ensures forall a :: a in r ==> a.jobId == job.id
    ensures role == Worker && job.status == Pending ==> r == [Decline(job.id), Accept(job.id)]
    ensures role == Client && job.status == Pending ==> r == [CancelRequest(job.id)]
  {
    if job.status != Pending then []
    else
      match role
      case Worker => [Decline(job.id), Accept(job.id)]
      case Client => [CancelRequest(job.id)]
      case NoRole => []
  }

  /** The card offers only the pending-job moves, even though the stores
      would write any status, and a worker is offered every one of them. */
  lemma ActionsFollowLifecycle(role: Role, job: Job)
    ensures forall a :: a in Actions(role, job) ==> LegalTransition(job.status, TargetStatus(a))
    ensures forall to :: LegalTransition(job.status, to) ==>
      exists a :: a in Actions(Worker, job) && TargetStatus(a) == to
  {
    if job.status == Pending {
      assert TargetStatus(Actions(Worker, job)[0]) == Declined;
      assert TargetStatus(Actions(Worker, job)[1]) == Accepted;
    }
  }

  /** The "Scheduled" badge: shown for an accepted job, whoever looks. */
  predicate ShowsScheduled(job: Job)
  {
    job.status == Accepted
  }

  /** A card showing the badge offers no button, so an accepted job can be
      neither accepted nor cancelled again from its card; and a signed-in
      viewer of a pending or accepted job sees exactly one of the two. */
  lemma ScheduledExcludesActions(role: Role, job: Job)
    ensures ShowsScheduled(job) ==> Actions(role, job) == []
    ensures role != NoRole && (job.status == Pending || job.status == Accepted) ==>
      ShowsScheduled(job) != (Actions(role, job) != [])
  {
  }

  /** The AI note is shown only when the job has a non-empty note. */
  function AiNote(job: Job): (note: Option<string>)
    ensures note.Some? ==> job.aiEstimatedQuote == note && note.value != ""
    ensures job.aiEstimatedQuote.None? ==> note.None?
    ensures job.aiEstimatedQuote.Some? && job.aiEstimatedQuote.value != "" ==> note == job.aiEstimatedQuote
  {
    match job.aiEstimatedQuote
    case Some(q) => if q != "" then Some(q) else None
    case None => None
  }

  /** `statusColors`: the badge classes for each status; every status has
      its own entry. */
  function StatusColor(s: JobStatus): (classes: string)
    ensures classes != ""
  {
    match s
    case Pending => "bg-yellow-100 text-yellow-800 border-yellow-200"
    case Accepted => "bg-green-100 text-green-800 border-green-200"
    case Declined => "bg-red-100 text-red-800 border-red-200"
    case Completed => "bg-gray-100 text-gray-800 border-gray-200"
  }

  /** No two statuses share a badge colour. */
  lemma {:induction false} StatusColorsDistinct(a: JobStatus, b: JobStatus)
    ensures StatusColor(a) == StatusColor(b) ==> a == b
  {
    if StatusColor(a) == StatusColor(b) {
      assert StatusColor(a)[3..6] == StatusColor(b)[3..6];
    }
  }
}
