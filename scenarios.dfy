/** Properties that span several parts of the app: the seed data as each
    page sees it, the client's jobs against the HTTP store's validation, and
    end-to-end runs of the store, both dashboards and the shell. */
module Scenarios {
  import opened Types
  import opened JobList
  import opened Storage
  import Server
  import WorkerDashboard
  import ClientDashboard
  import AppRoot

  /** How the seed list looks from each page: ids are unique, the client
      owns the first job, which is open; the second is already taken. */
  lemma SeedAsSeen(now: int)
    ensures UniqueIds(SeedJobs(now))
    ensures ClientDashboard.ClientJobs(SeedJobs(now)) == [SeedJobs(now)[0]]
    ensures WorkerDashboard.AvailableJobs(SeedJobs(now)) == [SeedJobs(now)[0]]
    ensures WorkerDashboard.MyJobs(SeedJobs(now)) == [SeedJobs(now)[1]]
  {
    var seed := SeedJobs(now);
    assert seed == [seed[0]] + [seed[1]];
    FilterAppend([seed[0]], [seed[1]], ClientDashboard.OwnedByClient);
    FilterAppend([seed[0]], [seed[1]], WorkerDashboard.IsAvailable);
    FilterAppend([seed[0]], [seed[1]], WorkerDashboard.IsTaken);
  }

  /** Every job the client page builds passes the HTTP store's check: the
      clock-derived id is never empty and an empty title is replaced. */
  lemma ClientJobsPassServerCheck(d: ClientDashboard.Draft, idTime: nat, createdAt: int, enhancing: bool)
    ensures Server.AcceptsJob(ClientDashboard.NewJob(d, ClientDashboard.DecimalString(idTime), createdAt, enhancing))
  {
  }

  /** A job just submitted is at the head of the open jobs every worker
      sees, ahead of the ones that were there. */
  lemma SubmittedJobLeadsAvailable(job: Job, jobs: seq<Job>)
    requires job.status == Pending
    ensures WorkerDashboard.AvailableJobs([job] + jobs) == [job] + WorkerDashboard.AvailableJobs(jobs)
  {
    FilterCons(job, jobs, WorkerDashboard.IsAvailable);
  }

  /** The job of the create-and-accept run. */
  function MowLawn(): Job
  {
    Job("10", "client-1", "Mow Lawn", "Front and back lawn.", Gardening,
        "1 Elm St", "2023-11-20", "$40", Pending, 0, None)
  }

  /** The lists each page derives once the job is posted. */
  lemma PostedViews(now: int)
    ensures var list := [MowLawn()] + SeedJobs(now);
      && ClientDashboard.ClientJobs(list) == [MowLawn(), SeedJobs(now)[0]]
      && WorkerDashboard.AvailableJobs(list) == [MowLawn(), SeedJobs(now)[0]]
  {
    SeedAsSeen(now);
    ClientDashboard.SubmittedJobLeadsClientList(MowLawn(), SeedJobs(now));
    SubmittedJobLeadsAvailable(MowLawn(), SeedJobs(now));
  }

  /** Accepting the posted job rewrites it alone: the seed jobs carry other
      ids. */
  lemma AcceptWrite(now: int)
    ensures HasJob([MowLawn()] + SeedJobs(now), "10")
    ensures SetStatusAll([MowLawn()] + SeedJobs(now), "10", Accepted) ==
      [MowLawn().(status := Accepted)] + SeedJobs(now)
  {
    var seed := SeedJobs(now);
    assert ([MowLawn()] + seed)[0].id == "10";
    assert !HasJob(seed, "10") by {
      assert seed[0].id != "10" && seed[1].id != "10";
    }
    SetStatusAllCons(MowLawn(), seed, "10", Accepted);
    StatusWritesTouchOnlyStatus(seed, "10", Accepted);
  }

  /** The lists each page derives once the posted job is accepted. */
  lemma AcceptedViews(now: int)
    ensures var seed, accepted := SeedJobs(now), MowLawn().(status := Accepted);
      && ClientDashboard.ClientJobs([accepted] + seed) == [accepted, seed[0]]
      && WorkerDashboard.AvailableJobs([accepted] + seed) == [seed[0]]
      && WorkerDashboard.MyJobs([accepted] + seed) == [accepted, seed[1]]
  {
    var seed, accepted := SeedJobs(now), MowLawn().(status := Accepted);
    SeedAsSeen(now);
    ClientDashboard.SubmittedJobLeadsClientList(accepted, seed);
    FilterCons(accepted, seed, WorkerDashboard.IsAvailable);
    FilterCons(accepted, seed, WorkerDashboard.IsTaken);
  }

  /** A client posts a job on a fresh store: the client's page lists it
      first among its own jobs, and the worker's open tab lists it first. */
  method PostThenList(loadTime: int) returns (clientView: seq<Job>, openView: seq<Job>)
    ensures clientView == [MowLawn(), SeedJobs(loadTime)[0]]
    ensures openView == [MowLawn(), SeedJobs(loadTime)[0]]
  {
    var store := new MockStore(loadTime, None, None);
    var client := new ClientDashboard.Dashboard(store);
    var worker := new WorkerDashboard.Dashboard(store);
    PostedViews(loadTime);
    var added := store.AddJob(MowLawn());
    client.LoadJobs();
    worker.LoadJobs();
    clientView := client.jobs;
    openView := WorkerDashboard.AvailableJobs(worker.jobs);
  }

  /** A worker accepts the posted job: it leaves the worker's open tab for
      the taken tab. */
  method AcceptThenList(loadTime: int) returns (openView: seq<Job>, takenView: seq<Job>)
    ensures openView == [SeedJobs(loadTime)[0]]
    ensures takenView == [MowLawn().(status := Accepted), SeedJobs(loadTime)[1]]
  {
    AcceptWrite(loadTime);
    AcceptedViews(loadTime);
    var store := new MockStore(loadTime, Some([MowLawn()] + SeedJobs(loadTime)), None);
    var worker := new WorkerDashboard.Dashboard(store);
    worker.HandleAccept("10");
    assert worker.jobs == [MowLawn().(status := Accepted)] + SeedJobs(loadTime);
    openView := WorkerDashboard.AvailableJobs(worker.jobs);
    takenView := WorkerDashboard.MyJobs(worker.jobs);
  }

  /** A worker's board on `store` accepts the posted job. */
  method WorkerAcceptsPosted(store: MockStore)
    requires store.available && store.Stored() == [MowLawn()] + SeedJobs(store.seedTime)
    modifies store`jobsItem
    ensures store.Stored() == [MowLawn().(status := Accepted)] + SeedJobs(store.seedTime)
  {
    AcceptWrite(store.seedTime);
    var worker := new WorkerDashboard.Dashboard(store);
    worker.HandleAccept("10");
  }

  /** The client's page, reloaded after a worker accepted the posted job,
      lists it as accepted. */
  method AcceptSeenByClient(loadTime: int) returns (clientView: seq<Job>)
    ensures clientView == [MowLawn().(status := Accepted), SeedJobs(loadTime)[0]]
  {
    AcceptedViews(loadTime);
    var store := new MockStore(loadTime, Some([MowLawn()] + SeedJobs(loadTime)), None);
    var client := new ClientDashboard.Dashboard(store);
    WorkerAcceptsPosted(store);
    client.LoadJobs();
    clientView := client.jobs;
  }

  /** Signing in twice as a worker yields the same identity; a reload then
      restores the role from the session; logging out twice leaves the
      session empty. */
  method SessionRoundTrip(loadTime: int)
    returns (first: Result<UserProfile>, second: Result<UserProfile>,
             restored: Role, afterLogout: Option<UserProfile>, afterSecondLogout: Option<UserProfile>)
    ensures first == second == Ok(ProfileFor(Worker))
    ensures first.value.id == "worker-1" && first.value.name == "Bob Builder"
    ensures restored == Worker
    ensures afterLogout == None && afterSecondLogout == None
  {
    var store := new MockStore(loadTime, None, None);
    first := store.Login(Worker);
    second := store.Login(Worker);

    var reloaded := new AppRoot.App(store);
    reloaded.InitUser();
    restored := reloaded.currentRole;

    reloaded.HandleLogout();
    afterLogout := store.userItem;
    var _ := store.Logout();
    afterSecondLogout := store.userItem;
  }

  /** Fills the fields the request form marks as required. */
  method FillRequired(page: ClientDashboard.Dashboard, text: string, budget: string)
    modifies page`description, page`date, page`budget, page`location
    ensures page.description == text && page.budget == budget
    ensures page.date == "2023-11-20" && page.location == "1 Elm St"
  {
    page.description := text;
    page.date := "2023-11-20";
    page.budget := budget;
    page.location := "1 Elm St";
  }

  /** The AI note as the page writes it: a job submitted while the
      enhancement request is still out carries the note. An answer that
      arrives after the submit leaves the reset budget empty, because the
      request saw a budget when it was sent. */
  method EnhancementNote(loadTime: int, text: string, e: ClientDashboard.Enhancement, idTime: nat)
    returns (submittedDuring: Job, budgetAfterAnswer: string)
    requires text != ""
    ensures submittedDuring.aiEstimatedQuote == Some(ClientDashboard.EnhancedNote)
    ensures submittedDuring.description == text && submittedDuring.budget == "$100"
    ensures budgetAfterAnswer == ""
  {
    var store := new MockStore(loadTime, None, None);
    var page := new ClientDashboard.Dashboard(store);
    FillRequired(page, text, "$100");
    var started := page.BeginEnhance();
    submittedDuring := page.HandleSubmit(idTime, 0);
    page.FinishEnhance(e);
    budgetAfterAnswer := page.budget;
  }

  /** A job submitted after the enhanced text has arrived carries the
      enhanced description and no note. */
  method SubmitAfterEnhancement(loadTime: int, text: string, e: ClientDashboard.Enhancement, idTime: nat)
    returns (submittedAfter: Job)
    requires text != ""
    ensures submittedAfter.aiEstimatedQuote == None
    ensures submittedAfter.description == e.description && submittedAfter.budget == "$100"
  {
    var store := new MockStore(loadTime, None, None);
    var page := new ClientDashboard.Dashboard(store);
    FillRequired(page, text, "$100");
    page.HandleEnhanceWithAI(e);
    submittedAfter := page.HandleSubmit(idTime, 0);
  }

  /** A budget typed while the enhancement request is out is overwritten by
      the estimate when the request was sent with an empty budget. */
  method BudgetTypedDuringEnhancement(loadTime: int, text: string, e: ClientDashboard.Enhancement)
    returns (budget: string)
    requires text != ""
    ensures budget == e.estimatedPrice
  {
    var store := new MockStore(loadTime, None, None);
    var page := new ClientDashboard.Dashboard(store);
    FillRequired(page, text, "");
    var started := page.BeginEnhance();
    page.budget := "$200";
    page.FinishEnhance(e);
    budget := page.budget;
  }
}
