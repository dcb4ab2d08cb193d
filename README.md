# Homely job store and job lifecycle, in Dafny

Homely is a two-sided marketplace demo: clients post household-service
requests (cleaning, plumbing, ...), workers accept or decline them. This
project models its core: the job store and the lifecycle around it.

- **The browser store** (`Storage.MockStore`). It keeps the job list and the
  signed-in profile under two fixed local-storage keys.
  - `GetJobs` seeds the store with the two built-in jobs when the jobs entry is absent; a stored empty list is returned unchanged.
  - `AddJob` puts the new job at the head, with no validation.
  - `UpdateJobStatus` rewrites the status of *every* job that carries the id,
    and returns the last one it rewrote.
  - `Login`, `GetUser` and `Logout` manage the session.
- **The HTTP store** (`Server.JobServer`). It holds the `JOBS` array.
  - `HandlePostJob` rejects a missing `id` or `title` with 400, and otherwise
    unshifts the job in place.
  - `HandlePatchStatus` searches with `FindIndex`, answers 404 for an unknown
    id, and rewrites the status of the *first* match only.
  - `LoginHandler` is the login route.
- **The shared list specifications** (`JobList`): first and last match, the
  two kinds of status write, order-preserving filters, and the status moves
  the job card offers.
- **The worker board** (`WorkerDashboard`). Its open tab shows the PENDING
  jobs. Its taken tab shows the ACCEPTED and COMPLETED jobs. Accept and
  decline each write a status and then reload.
- **The client page** (`ClientDashboard`). It shows the client's own jobs and
  builds a new job from the request form. The enhancement service's answer is
  merged into the form. Cancel writes DECLINED.
- **The job card** (`JobCard`): which buttons a role gets for a status, the
  "Scheduled" badge, the AI note and the status colours.
- **The app shell** (`AppRoot.App`): the `currentRole` state machine
  (nobody → client or worker → nobody) and the page each role sees.
- **End-to-end runs** (`Scenarios`): posting, accepting, the session round
  trip, and the AI note.

The storage medium is two fields, `jobsItem` and `userItem`. `None` means the
key is absent. The JSON encoding is taken to round-trip exactly. A third
field, `available`, says whether the medium answers. When it does not, every
store call rejects and changes nothing. That gives the dashboards' and the
shell's `catch`/`finally` paths something to model. A rejected store write
makes the awaiting handler reject as well, so handlers such as
`handleAccept` skip their reload, as the code does.

Clock readings (`Date.now()`) are parameters. The enhancement service's
answer is a parameter. Each handler is one atomic step, except enhancement.
Enhancement is split at its `await` (`BeginEnhance`/`FinishEnhance`), because
`isEnhancing` is only observable between the two halves. The running handler
keeps the budget it read at the click (`enhanceBudget`), and its budget test
uses that value.

## Behaviour of the code worth knowing

- Only the HTTP route rejects an empty `id` or `title`. The browser store
  (the one the app uses) accepts any job, including one whose id is already
  taken.
- `aiEstimatedQuote` is set only when the form is submitted *while* the
  enhancement call is still pending, because the page tests `isEnhancing`. A
  job submitted after the enhanced text arrived carries no note.
  `Scenarios.EnhancementNote` and `Scenarios.SubmitAfterEnhancement` prove
  the two outcomes.
- The enhancement answer fills the budget when the budget was empty *when
  the request was sent*. The running handler tests the value it captured, not
  the form's current budget. `Scenarios.EnhancementNote` and
  `Scenarios.BudgetTypedDuringEnhancement` show both directions.
- An unknown id makes the browser store reject with "Job not found". It has
  already written the list back by then. That write is the unchanged list, or
  the seed list when the key was absent, so the list a read returns is
  unchanged.
- The browser store's login accepts every role value, `NONE` included. Any
  role other than CLIENT gets the worker identity.
- No page handler requests COMPLETED, although the worker's taken tab lists
  it; both stores write it when asked. Neither store restricts which status
  may follow which.

## Model

| member | source | states |
|---|---|---|
| `Types.RoleName` | types.ts:1-5 | each role's wire string is non-empty and names that role alone |
| `Types.ServiceLabel` | types.ts:14-21 | every service category has a non-empty, capitalised display string |
| `Types.LabelInjective` | types.ts:14-21 | distinct service types have distinct display strings |
| `JobList.SeedJobs` | services/storage.ts:12-37 | two jobs with distinct non-empty ids and titles, created before the load time, with no AI note: the client's first job is PENDING, another client's second job is ACCEPTED |
| `JobList.FirstIndex` | server/index.js:61 | the result is the first index whose job carries the id; it is absent exactly when no job carries it |
| `JobList.LastIndex` | services/storage.ts:79-85 | the result is the last index whose job carries the id; it is absent exactly when no job carries it |
| `JobList.SetStatusAll` | services/storage.ts:80-86 | the length is kept; every job carrying the id gets the new status with all other fields equal; other jobs are untouched |
| `JobList.SetStatusFirst` | server/index.js:61-66 | the first-match write keeps the length, changes only status fields, and leaves the list equal when no job carries the id |
| `JobList.LastUpdated` | services/storage.ts:79-85 | the returned job is absent exactly when no job carries the id; otherwise it carries the id and the new status |
| `JobList.StatusWritesTouchOnlyStatus` | services/storage.ts:80-88 | both kinds of status write keep the length and change only status fields; an unknown id leaves the list equal to the prior list |
| `JobList.SetStatusFirstSpec` | server/index.js:61-66 | the HTTP store's write changes exactly the first job carrying the id, and only its status |
| `JobList.WritesAgreeOnUniqueIds` | server/index.js:61-67 | with unique ids, the first and last match coincide, both stores write the same list and both return the same job |
| `JobList.DuplicateIdsDiverge` | services/storage.ts:80-86 | when two jobs share an id, the browser store rewrites the later one and the HTTP store does not, so the lists differ |
| `JobList.Filter` | views/WorkerDashboard.tsx:39-40 | the result holds exactly the input jobs that pass the test, and is no longer than the input |
| `JobList.FilterAppend` | views/WorkerDashboard.tsx:39-40 | filtering a concatenation is the concatenation of the filtered parts, so the filter keeps order |
| `JobList.FilterCons` | views/ClientDashboard.tsx:33 | a job added at the head stays at the head of the filtered list when it passes |
| `JobList.FilterIdempotent` | views/WorkerDashboard.tsx:39 | filtering twice with the same test is the same as filtering once |
| `JobList.FilterUnknownIdWrite` | services/storage.ts:80-88 | a write for an unknown id changes no filtered view |
| `JobList.WritesIgnoreLifecycle` | server/index.js:66 | a declined job can be written back to pending by either store, a move no card button offers |
| `Storage.ProfileFor` | services/storage.ts:103-108 | the role is echoed; the id is `client-1` and the name "Alice Homeowner" exactly for CLIENT, otherwise `worker-1` and "Bob Builder" |
| `Storage.RewriteStatuses` | services/storage.ts:79-86 | the pass rewrites every job carrying the id, and ends holding the last job it rewrote; it holds none exactly when no job carries the id |
| `Storage.MockStore.constructor` | services/storage.ts:3-4 | a page load over the entries the medium already holds |
| `Storage.MockStore.GetJobs` | services/storage.ts:42-50 | a missing key is seeded with the built-in jobs, which are returned; otherwise the stored list is returned unchanged; an unavailable medium rejects |
| `Storage.MockStore.AddJob` | services/storage.ts:58-64 | the job is at index 0 with the prior jobs following in order; the job is returned unchanged; nothing is validated |
| `Storage.MockStore.UpdateJobStatus` | services/storage.ts:75-89 | the stored list is the all-matches status write of the prior list; the result is the last rewritten job, or "Job not found" |
| `Storage.MockStore.Login` | services/storage.ts:100-110 | the canonical profile for the role is stored as the session and returned |
| `Storage.MockStore.GetUser` | services/storage.ts:123-127 | the stored profile, or none when no profile is stored |
| `Storage.MockStore.Logout` | services/storage.ts:129-131 | the session is empty afterwards, whatever it held before |
| `Server.LoginHandler` | server/index.js:71-83 | a missing role gives 400 "Role required"; otherwise 200 with the role echoed, the client identity exactly for "CLIENT", the worker identity for every other role, and the avatar for the role |
| `Server.LoginRoutesAgree` | server/index.js:73-82 | for every role the app sends, the HTTP route returns the browser store's profile |
| `Server.JobServer.constructor` | server/index.js:12-37 | `JOBS` starts as the two built-in jobs |
| `Server.JobServer.HandleGetJobs` | server/index.js:42-44 | 200 with the whole list, unfiltered, in store order |
| `Server.JobServer.FindIndex` | server/index.js:61 | the search loop returns the first index carrying the id, or -1 |
| `Server.JobServer.Unshift` | server/index.js:52 | the array's list becomes the job followed by the prior jobs, growing the array when it is full; the array is the old one or a fresh one, never another live array |
| `Server.JobServer.HandlePostJob` | server/index.js:47-54 | a missing `id` or `title` gives 400 with the list unchanged; otherwise the job goes to the head and is echoed with 201; the array is the old one or a fresh one |
| `Server.JobServer.HandlePatchStatus` | server/index.js:57-68 | the list becomes the first-match status write of the prior list; 404 for an unknown id, else 200 with the updated job |
| `WorkerDashboard.AvailableJobs` | views/WorkerDashboard.tsx:39 | exactly the PENDING jobs, in fetched order |
| `WorkerDashboard.MyJobs` | views/WorkerDashboard.tsx:40 | exactly the ACCEPTED or COMPLETED jobs, in fetched order, with no worker filter |
| `WorkerDashboard.DisplayJobs` | views/WorkerDashboard.tsx:42 | the shown list holds fetched jobs only, pending exactly on the open tab; every pending job is on the open tab and every accepted or completed job on the taken tab |
| `WorkerDashboard.TabsDisjoint` | views/WorkerDashboard.tsx:39-42 | no job is on both tabs, and the shown tab never lists a declined job |
| `WorkerDashboard.TabsPartition` | views/WorkerDashboard.tsx:39-40 | the open, taken and declined jobs together count every fetched job exactly once |
| `WorkerDashboard.AcceptLeavesOpenTab` | views/WorkerDashboard.tsx:28-39 | after an ACCEPTED write, no job carrying the id is on the open tab |
| `WorkerDashboard.AcceptMovesJob` | views/WorkerDashboard.tsx:28-32 | after accepting, no job with that id is open, and the accepted job is on the taken tab |
| `WorkerDashboard.Dashboard.constructor` | views/WorkerDashboard.tsx:7-9 | no jobs, loading, open tab selected |
| `WorkerDashboard.Dashboard.SelectTab` | views/WorkerDashboard.tsx:52-64 | the clicked tab becomes the selected one, and the board shows that tab of its jobs |
| `WorkerDashboard.Dashboard.LoadJobs` | views/WorkerDashboard.tsx:17-26 | the full fetched list replaces `jobs`, and the board shows the selected tab of it; a failed fetch keeps `jobs`; loading ends in both cases |
| `WorkerDashboard.Dashboard.WriteAndReload` | views/WorkerDashboard.tsx:28-37 | the status write happens; the board reloads only when the write succeeded |
| `WorkerDashboard.Dashboard.HandleAccept` | views/WorkerDashboard.tsx:28-32 | ACCEPTED is written for the id, then the board reloads |
| `WorkerDashboard.Dashboard.HandleDecline` | views/WorkerDashboard.tsx:34-37 | DECLINED is written for the id, then the board reloads |
| `WorkerDashboard.Dashboard.Press` | views/WorkerDashboard.tsx:92-93 | an Accept or Decline press writes that button's target status for its job id; a Cancel Request press, which the board does not wire, changes nothing |
| `ClientDashboard.ClientJobs` | views/ClientDashboard.tsx:33 | exactly the jobs whose clientId is `client-1`, in store order |
| `ClientDashboard.DecimalString` | views/ClientDashboard.tsx:56 | the clock-derived id is a non-empty string of decimal digits, a single digit exactly below ten |
| `ClientDashboard.DecimalStringValue` | views/ClientDashboard.tsx:56 | the id's digits denote the clock reading, with no leading zero |
| `ClientDashboard.DistinctTimesDistinctIds` | views/ClientDashboard.tsx:56 | distinct clock readings give distinct job ids |
| `ClientDashboard.DefaultTitle` | views/ClientDashboard.tsx:58 | the default title is the category's label followed by " Request" |
| `ClientDashboard.DefaultTitleInjective` | views/ClientDashboard.tsx:58 | distinct service types give distinct default titles |
| `ClientDashboard.MergeEnhancement` | views/ClientDashboard.tsx:41-47 | title and description are overwritten; the estimate fills the budget only when the budget the request saw was empty; other fields are kept |
| `ClientDashboard.MergeIdempotent` | views/ClientDashboard.tsx:41-47 | sending the enhanced draft again with the same answer changes nothing more |
| `ClientDashboard.NewJob` | views/ClientDashboard.tsx:55-67 | the job is PENDING, owned by `client-1`, and copies the form; an empty title becomes `${serviceType} Request`; the note is present exactly when enhancing |
| `ClientDashboard.SubmittedJobLeadsClientList` | views/ClientDashboard.tsx:33 | a new job of the client heads the client's list |
| `ClientDashboard.Dashboard.constructor` | views/ClientDashboard.tsx:9-21 | nothing listed, loading, form empty with service type CLEANING |
| `ClientDashboard.Dashboard.LoadJobs` | views/ClientDashboard.tsx:29-39 | the client's own jobs replace `jobs`; a failed fetch keeps `jobs`; loading ends in both cases |
| `ClientDashboard.Dashboard.ResetForm` | views/ClientDashboard.tsx:76-83 | all text fields are empty and the service type is CLEANING |
| `ClientDashboard.Dashboard.BeginEnhance` | views/ClientDashboard.tsx:41-44 | nothing happens without a description; otherwise enhancing starts and the request keeps the budget it saw |
| `ClientDashboard.Dashboard.FinishEnhance` | views/ClientDashboard.tsx:45-48 | the answer is merged into the current form, with the budget test made on the budget captured when the request was sent; enhancing ends |
| `ClientDashboard.Dashboard.HandleEnhanceWithAI` | views/ClientDashboard.tsx:41-49 | an empty description changes nothing; otherwise, with nothing in between, the form becomes the merge against its own budget, the captured budget is that budget, and enhancing ends |
| `ClientDashboard.Dashboard.HandleSubmit` | views/ClientDashboard.tsx:51-74 | the built job is added at the head, the client list is reloaded with it first, and the form is reset and closed; a rejected add leaves the form, the list and the loading flag as they were, with submitting still on |
| `ClientDashboard.Dashboard.CloseAndReload` | views/ClientDashboard.tsx:70-73 | submitting ends, the form is closed and reset, and the client's list is reloaded from the unchanged store |
| `ClientDashboard.Dashboard.HandleCancelJob` | views/ClientDashboard.tsx:85-89 | DECLINED is written for the id, then the list reloads; a rejected write skips the reload |
| `ClientDashboard.Dashboard.Press` | views/ClientDashboard.tsx:120 | a Cancel Request press writes that button's target status for its job id; Accept and Decline presses, which the page does not wire, change nothing |
| `JobCard.Actions` | components/JobCard.tsx:51-60 | buttons appear exactly for a PENDING job and a signed-in role: Decline and Accept for a worker, Cancel Request for a client, each with the job's id |
| `JobCard.ActionsFollowLifecycle` | components/JobCard.tsx:51-60 | every button writes a pending-to-accepted or pending-to-declined move, and a worker is offered both |
| `JobCard.ScheduledExcludesActions` | components/JobCard.tsx:51-67 | a card showing the "Scheduled" badge shows no button; a signed-in viewer of a pending or accepted job sees exactly one of the two |
| `JobCard.StatusColorsDistinct` | components/JobCard.tsx:14-19 | no two statuses share a colour entry |
| `JobCard.AiNote` | components/JobCard.tsx:42-47 | the note is shown exactly when the job carries a non-empty `aiEstimatedQuote`, and it is that text |
| `JobCard.StatusColor` | components/JobCard.tsx:14-19 | every status has a colour entry |
| `AppRoot.PageFor` | App.tsx:39-132 | NONE shows the landing page, CLIENT the client page, WORKER the worker board |
| `AppRoot.App.constructor` | App.tsx:9-10 | the app starts with no role, on the landing page |
| `AppRoot.App.InitUser` | App.tsx:14-17 | a stored profile restores its role; otherwise the role is kept |
| `AppRoot.App.HandleLogin` | App.tsx:21-31 | a successful login sets the role; a failed one keeps it; `isLoggingIn` ends false |
| `AppRoot.App.HandleLogout` | App.tsx:33-36 | the session is cleared and the role is back to none |
| `Scenarios.SeedAsSeen` | services/storage.ts:12-37 | the seed ids are unique; the client owns the open first job; the second job is taken |
| `Scenarios.ClientJobsPassServerCheck` | views/ClientDashboard.tsx:55-58 | every job the client page builds passes the HTTP store's `id`/`title` check |
| `Scenarios.SubmittedJobLeadsAvailable` | views/WorkerDashboard.tsx:39 | a newly posted job heads every worker's open tab |
| `Scenarios.PostedViews` | views/ClientDashboard.tsx:69-72 | once the job is posted, both pages list it first |
| `Scenarios.AcceptWrite` | services/storage.ts:80-86 | accepting the posted job rewrites that job alone; the seed jobs are untouched |
| `Scenarios.AcceptedViews` | views/WorkerDashboard.tsx:39-40 | once it is accepted, the client sees it accepted, and the worker sees it taken and no longer open |
| `Scenarios.PostThenList` | views/ClientDashboard.tsx:69-72 | a posted job appears on the client page and on the worker's open tab |
| `Scenarios.AcceptThenList` | views/WorkerDashboard.tsx:28-32 | an accepted job moves from the worker's open tab to the taken tab |
| `Scenarios.WorkerAcceptsPosted` | views/WorkerDashboard.tsx:28-32 | a worker's accept on the posted job leaves the store holding it accepted ahead of the seed jobs |
| `Scenarios.AcceptSeenByClient` | views/ClientDashboard.tsx:29-33 | after a worker accepts the posted job, the client's reloaded page lists it as accepted |
| `Scenarios.SessionRoundTrip` | services/storage.ts:100-131 | login is deterministic; a reload restores the role; logout is idempotent |
| `Scenarios.SubmitAfterEnhancement` | views/ClientDashboard.tsx:41-67 | a job submitted after the enhanced text arrived carries the enhanced description and no note |
| `Scenarios.BudgetTypedDuringEnhancement` | views/ClientDashboard.tsx:41-47 | when the request was sent with an empty budget, the estimate replaces a budget typed while it was pending |
| `Scenarios.EnhancementNote` | views/ClientDashboard.tsx:41-74 | with the required fields filled, a job submitted during enhancement carries the note, and an answer arriving after the submit leaves the reset budget empty |

## Left out

- The real-backend branch of the browser store (its `fetch` calls) is not modelled. The mock switch is fixed on.
- The latency `delay` calls, `setInterval` polling and its teardown are not modelled. Async interleavings are also left out, except the enhancement `await`. Each handler is one atomic step.
- The JSON encoding and `localStorage` are not modelled; their round trip is taken to be exact. A medium that fails partway through an operation is not modelled; `available` holds for a whole call.
- The clock is not modelled: ids and `createdAt` are parameters.
- The enhancement service (services/gemini.ts) and its fallback answers are not part of this model. Its answer is a parameter, and `analyzeJobImage` is unused by the core.
- The Express, cors and body-parser setup and `app.listen` are framework wiring, so they are not modelled.
- Request bodies are untyped JSON in the source. A missing `id`, `title` or `role` is modelled as the empty string; JavaScript's `!x` treats both alike. Non-string falsy values are not modelled.
- Server.JobServer.HandlePatchStatus: the status is one of the four statuses, but the route writes whatever value the request carries, unchecked.
- The form's `required` attributes on the description, date, budget and location inputs (views/ClientDashboard.tsx:157,192,203,216) are not modelled. The browser blocks a submit with any of them empty. ClientDashboard.Dashboard.HandleSubmit accepts any draft, so it over-approximates the submits the page can make.
- Overlapping enhancement requests are not modelled. The enhance button is disabled while one is pending, and a second BeginEnhance would replace the captured budget.
- JSX markup, styling, the modal's open and close buttons, the `disabled` guards on buttons, and the form inputs' change handlers are presentation. The form fields are public and can be assigned directly.
- Separate browsers are not modelled. With the browser store the app uses they share nothing; only tabs of one browser share the local-storage entries. The scenarios put both dashboards on one `MockStore`, as two tabs of one browser.
- Storage.AvatarUrl: the address is built as at services/storage.ts:107 and server/index.js:79; it is cosmetic, and no property is claimed about it.
