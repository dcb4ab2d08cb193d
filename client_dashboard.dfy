/** The client's request page: it lists the signed-in client's own jobs,
    builds a new job from the request form, lets the enhancement service
    rewrite the draft, and cancels pending requests. */
module ClientDashboard {
  import opened Types
  import opened JobList
  import opened Storage
  import JobCard

  /** The client identity the page filters by and stamps on new jobs; the
      page uses this fixed value rather than the session's profile. */
  const ClientId: string := "client-1"

  /** The note a job gets when it is submitted while enhancement runs. */
  const EnhancedNote: string := "Enhanced by Gemini"

  /** A job belongs to the page's client. */
  predicate OwnedByClient(job: Job)
  {
    job.clientId == ClientId
  }

  /** The page's list: the client's own jobs, in store order. */
  function ClientJobs(jobs: seq<Job>): (r: seq<Job>)
    ensures forall j :: j in r <==> j in jobs && j.clientId == ClientId
  {
    Filter(jobs, OwnedByClient)
  }

  /** The request form's text fields and service type. */
  datatype Draft = Draft(
    title: string,
    description: string,
    serviceType: ServiceType,
    location: string,
    date: string,
    budget: string)

  /** The form as it is on open and after a reset. */
  const EmptyDraft: Draft := Draft("", "", Cleaning, "", "", "")

  /** What the enhancement service answers. */
  datatype Enhancement = Enhancement(title: string, description: string, estimatedPrice: string)

  /** The title an untitled request gets: `${serviceType} Request`, the
      category's label followed by " Request". */
  function DefaultTitle(t: ServiceType): (title: string)
    ensures |title| > |" Request"|
    ensures title[..|title| - |" Request"|] == ServiceLabel(t)
    ensures title[|title| - |" Request"|..] == " Request"
  {
    ServiceLabel(t) + " Request"
  }

  /** Distinct service types give distinct default titles, so the title
      names its category unambiguously. */
  lemma {:induction false} DefaultTitleInjective(a: ServiceType, b: ServiceType)
    ensures DefaultTitle(a) == DefaultTitle(b) ==> a == b
  {
    if DefaultTitle(a) == DefaultTitle(b) {
      LabelInjective(a, b);
    }
  }

  /** The number a string of decimal digits denotes, most significant digit
      first. */
  function DigitsValue(s: string): nat
  {
    if s == [] then 0
    else 10 * DigitsValue(s[..|s| - 1]) + (if '0' <= s[|s| - 1] <= '9' then s[|s| - 1] as int - '0' as int else 0)
  }

  /** The decimal digits of `n`, as `Number.prototype.toString` writes a
      non-negative integer. */
  function DecimalString(n: nat): (s: string)
    ensures |s| >= 1
    ensures forall c :: c in s ==> '0' <= c <= '9'
    ensures n < 10 <==> |s| == 1
  {
    var digit := ['0' + (n % 10) as char];
    if n < 10 then digit else DecimalString(n / 10) + digit
  }

  /** The digits denote `n`, with no leading zero. */
  lemma {:induction false} DecimalStringValue(n: nat)
    ensures DigitsValue(DecimalString(n)) == n
    ensures |DecimalString(n)| > 1 ==> DecimalString(n)[0] != '0'
  {
    if n >= 10 {
      var prefix := DecimalString(n / 10);
      var digit := ['0' + (n % 10) as char];
      DecimalStringValue(n / 10);
      assert DecimalString(n) == prefix + digit;
      assert (prefix + digit)[..|prefix + digit| - 1] == prefix;
    }
  }

  /** Distinct clock readings give distinct job ids. */
  lemma DistinctTimesDistinctIds(a: nat, b: nat)
    ensures a != b ==> DecimalString(a) != DecimalString(b)
  {
    DecimalStringValue(a);
    DecimalStringValue(b);
  }

  /** Merging an enhancement into the draft `d`: title and description are
      overwritten, and the estimate replaces the budget when `seenBudget`, the
      budget the request saw when it was sent, was empty; otherwise the
      budget is kept. Everything else is kept. */
  function MergeEnhancement(d: Draft, e: Enhancement, seenBudget: string): (r: Draft)
    ensures r.title == e.title && r.description == e.description
    ensures seenBudget != "" ==> r.budget == d.budget
    ensures seenBudget == "" ==> r.budget == e.estimatedPrice
    ensures r.serviceType == d.serviceType && r.location == d.location && r.date == d.date
  {
    d.(title := e.title, description := e.description,
       budget := if seenBudget == "" then e.estimatedPrice else d.budget)
  }

  /** Sending the enhanced draft again and merging the same answer changes
      nothing more. */
  lemma MergeIdempotent(d: Draft, e: Enhancement)
    ensures var once := MergeEnhancement(d, e, d.budget);
      MergeEnhancement(once, e, once.budget) == once
  {
  }

  /** `newJob` in `handleSubmit`: a pending job of the page's client,
      carrying the form's fields, the default title when the form's is empty,
      and the note exactly when enhancement is running. */
  function NewJob(d: Draft, id: string, createdAt: int, enhancing: bool): (job: Job)
    ensures job.status == Pending && job.clientId == ClientId
    ensures job.id == id && job.createdAt == createdAt
    ensures job.description == d.description && job.serviceType == d.serviceType
    ensures job.location == d.location && job.date == d.date && job.budget == d.budget
    ensures job.title != ""
    ensures d.title != "" ==> job.title == d.title
    ensures d.title == "" ==> job.title == DefaultTitle(d.serviceType)
    ensures job.aiEstimatedQuote.Some? <==> enhancing
    ensures enhancing ==> job.aiEstimatedQuote == Some(EnhancedNote)
  {
    Job(id, ClientId,
        if d.title != "" then d.title else DefaultTitle(d.serviceType),
        d.description, d.serviceType, d.location, d.date, d.budget,
        Pending, createdAt,
        if enhancing then Some(EnhancedNote) else None)
  }

  /** A newly submitted job heads the client's list. */
  lemma SubmittedJobLeadsClientList(job: Job, jobs: seq<Job>)
    requires job.clientId == ClientId
    ensures ClientJobs([job] + jobs) == [job] + ClientJobs(jobs)
  {
    FilterCons(job, jobs, OwnedByClient);
  }

  /** The page's state: the listed jobs, the form fields and the flags. */
  class Dashboard {
    const store: MockStore
    var jobs: seq<Job>
    var isLoading: bool
    var isModalOpen: bool
    var title: string
    var description: string
    var serviceType: ServiceType
    var location: string
    var budget: string
    var date: string
    var isEnhancing: bool
    var isSubmitting: bool
    /** The budget the pending enhancement request captured when it was sent. */
    var enhanceBudget: string

    /** On mount: nothing listed, loading, the form empty and closed. */
    constructor (store: MockStore)
      ensures this.store == store && jobs == [] && isLoading && !isModalOpen
      ensures Form() == EmptyDraft && !isEnhancing && !isSubmitting
    {
      this.store := store;
      jobs := [];
      isLoading := true;
      isModalOpen := false;
      title, description, serviceType := "", "", Cleaning;
      location, budget, date := "", "", "";
      isEnhancing, isSubmitting := false, false;
      enhanceBudget := "";
    }

    /** The form fields as one draft. */
    function Form(): Draft
      reads this
    {
      Draft(title, description, serviceType, location, date, budget)
    }

    /** `loadJobs`: keeps the client's own jobs of the fetched list; a failed
        fetch keeps the old list; either way loading is over. */
    method LoadJobs()
      modifies this`jobs, this`isLoading, store`jobsItem
      ensures store.Stored() == old(store.Stored())
      ensures store.available ==> jobs == ClientJobs(store.Stored())
      ensures !store.available ==> jobs == old(jobs) && store.jobsItem == old(store.jobsItem)
      ensures !isLoading
    {
      var fetched := store.GetJobs();
      if fetched.Ok? {
        jobs := ClientJobs(fetched.value);
      }
      isLoading := false;
    }

    /** `resetForm`: every text field empty, the service type back to
        cleaning. */
    method ResetForm()
      modifies this`title, this`description, this`serviceType, this`location, this`budget, this`date
      ensures Form() == EmptyDraft
    {
      title, description, serviceType := "", "", Cleaning;
      location, budget, date := "", "", "";
    }

    /** The first half of `handleEnhanceWithAI`, up to the call to the
        enhancement service: nothing happens without a description; otherwise
        enhancing starts and the request keeps the budget it saw. */
    method BeginEnhance() returns (started: bool)
      modifies this`isEnhancing, this`enhanceBudget
      ensures started <==> old(description) != ""
      ensures isEnhancing == (started || old(isEnhancing))
      ensures started ==> enhanceBudget == old(budget)
      ensures !started ==> enhanceBudget == old(enhanceBudget)
    {
      if description == "" {
        return false;
      }
      isEnhancing := true;
      enhanceBudget := budget;
      started := true;
    }

    /** The second half of `handleEnhanceWithAI`, once the service has
        answered `e`: the budget test reads the budget captured when the
        request was sent, not the one the form holds now. */
    method FinishEnhance(e: Enhancement)
      modifies this`title, this`description, this`budget, this`isEnhancing
      ensures Form() == MergeEnhancement(old(Form()), e, enhanceBudget)
      ensures !isEnhancing
    {
      title := e.title;
      description := e.description;
      if enhanceBudget == "" {
        budget := e.estimatedPrice;
      }
      isEnhancing := false;
    }

    /** `handleEnhanceWithAI` run to completion with the service's answer `e`,
        with no other handler in between. */
    method HandleEnhanceWithAI(e: Enhancement)
      modifies this`title, this`description, this`budget, this`isEnhancing, this`enhanceBudget
      ensures old(description) == "" ==> Form() == old(Form()) && isEnhancing == old(isEnhancing)
      ensures old(description) != "" ==> Form() == MergeEnhancement(old(Form()), e, old(budget)) && !isEnhancing
      ensures old(description) == "" ==> enhanceBudget == old(enhanceBudget)
      ensures old(description) != "" ==> enhanceBudget == old(budget)
    {
      var started := BeginEnhance();
      if started {
        FinishEnhance(e);
      }
    }

    /** `handleSubmit`: builds the job from the form (the id is the decimal
        clock reading `idTime`), adds it to the store, then closes the form,
        reloads and resets. When the store rejects, the handler stops after
        the add: the form stays as it was and submitting stays on. */
    method HandleSubmit(idTime: nat, createdAt: int) returns (job: Job)
      modifies this, store`jobsItem
      ensures job == NewJob(old(Form()), DecimalString(idTime), createdAt, old(isEnhancing))
      ensures store.available ==> store.Stored() == [job] + old(store.Stored())
      ensures store.available ==> jobs == ClientJobs(store.Stored()) && jobs[0] == job
      ensures store.available ==> Form() == EmptyDraft && !isSubmitting && !isModalOpen && !isLoading
      ensures !store.available ==> store.jobsItem == old(store.jobsItem) && jobs == old(jobs)
      ensures !store.available ==> Form() == old(Form()) && isSubmitting && isModalOpen == old(isModalOpen)
      ensures !store.available ==> isLoading == old(isLoading)
      ensures isEnhancing == old(isEnhancing) && enhanceBudget == old(enhanceBudget)
    {
      isSubmitting := true;
      job := NewJob(Form(), DecimalString(idTime), createdAt, isEnhancing);
      ghost var before := store.Stored();
      var added := store.AddJob(job);
      if added.Err? {
        return;
      }
      assert store.Stored() == [job] + before;
      CloseAndReload();
      SubmittedJobLeadsClientList(job, before);
    }

    /** The tail of a successful `handleSubmit`: submitting ends, the form
        closes, the list reloads and the form is reset. */
    method CloseAndReload()
      modifies this`isSubmitting, this`isModalOpen, this`jobs, this`isLoading, store`jobsItem
      modifies this`title, this`description, this`serviceType, this`location, this`budget, this`date
      ensures store.Stored() == old(store.Stored())
      ensures store.available ==> jobs == ClientJobs(store.Stored())
      ensures !store.available ==> jobs == old(jobs) && store.jobsItem == old(store.jobsItem)
      ensures Form() == EmptyDraft && !isSubmitting && !isModalOpen && !isLoading
    {
      isSubmitting := false;
      isModalOpen := false;
      LoadJobs();
      ResetForm();
    }

    /** `handleCancelJob`: writes DECLINED for `id` (there is no separate
        cancelled status), then reloads; a rejected write skips the reload. */
    method HandleCancelJob(id: string)
      modifies this`jobs, this`isLoading, store`jobsItem
      ensures store.available ==> store.Stored() == SetStatusAll(old(store.Stored()), id, Declined)
      ensures !store.available ==> store.jobsItem == old(store.jobsItem)
      ensures store.available && HasJob(old(store.Stored()), id) ==>
        jobs == ClientJobs(store.Stored()) && !isLoading
      ensures !(store.available && HasJob(old(store.Stored()), id)) ==>
        jobs == old(jobs) && isLoading == old(isLoading)
    {
      var written := store.UpdateJobStatus(id, Declined);
      if written.Ok? {
        LoadJobs();
      }
    }

    /** A button press on one of the page's cards: Cancel Request is wired to
        `handleCancelJob`; the page passes no `onAccept` or `onDecline`, so
        those presses do nothing. */
    method Press(a: JobCard.Action)
      modifies this`jobs, this`isLoading, store`jobsItem
      ensures !a.CancelRequest? ==> jobs == old(jobs) && isLoading == old(isLoading) && store.jobsItem == old(store.jobsItem)
      ensures a.CancelRequest? && store.available ==>
        store.Stored() == SetStatusAll(old(store.Stored()), a.jobId, JobCard.TargetStatus(a))
      ensures a.CancelRequest? && !store.available ==> store.jobsItem == old(store.jobsItem)
    {
      match a
      case CancelRequest(id) => HandleCancelJob(id);
      case Accept(_) =>
      case Decline(_) =>
    }
  }
}
