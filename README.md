# Remote job board: a verified model of its client logic

This project models the client side of a remote-job board. It is a React
single-page app on a hosted Postgres database, with five tables: profiles,
companies, jobs, applications and bookmarks. The model covers the following:

- the table shapes, and which columns an update may touch;
- the path router;
- the public job listing, with its search, filters and bookmarks;
- the job card;
- the job create and edit forms, with their tag editor;
- the developer and company profile forms;
- applying to a job, and the employer's review of applications;
- sign-up validation;
- the two dashboards.

Every database call is an input: the rows a query sees are passed in as a
sequence, and `None` stands for a failed query. A handler returns the write
it issues and the alert and navigation it causes. Each page whose React
state changes is a `class`; its methods are proved against pure functions.

Shared modules:

- `Common`: option values, optional update keys (`Field`), the `|| null` mapping, and handler effects.
- `Seqs`: `filter`, `filter(..).length`, `slice` and `maybeSingle`/`single` on sequences.
- `Text`: ECMAScript `trim` and ASCII `toLowerCase`/`includes`.
- `Tags`: the tag editor shared by three pages.

Each remaining module follows one source file.

## Model

| member | source | states |
|---|---|---|
| Database.ParseRole | src/types/database.ts:9 | a stored role string is `employer` or `developer`, and no other string is a role |
| Database.ParseExperience | src/types/database.ts:65 | the experience column holds exactly the three level names |
| Database.ParseEmployment | src/types/database.ts:67 | the employment column holds exactly the three type names |
| Database.ParseJobStatus | src/types/database.ts:69 | a job status is exactly `Open` or `Closed` |
| Database.ParseApplicationStatus | src/types/database.ts:103 | an application status is exactly `Pending`, `Accepted` or `Rejected` |
| Database.UpdateProfile | src/types/database.ts:25-30 | a profile update changes only full name, bio, skills and portfolio; id, e-mail and role are kept |
| Database.UpdateCompany | src/types/database.ts:50-55 | a company update keeps id and owner and sets only the columns it names |
| Database.UpdateJob | src/types/database.ts:85-94 | a job update keeps id, owner and company; each other column is patched only if named |
| Database.UpdateApplication | src/types/database.ts:114-118 | an application update keeps id, job and applicant; only resume, cover letter and status change |
| Database.UpdateBookmark | src/types/database.ts:131 | the bookmark update has no keys, so a bookmark row is never modified |
| Database.UpdateProfileAll | src/types/database.ts:25-30 | after any history of updates a profile keeps its id, e-mail and role |
| Database.UpdateJobAll | src/types/database.ts:85-94 | after any history of updates a job keeps its id, owner and company |
| Database.UpdateApplicationAll | src/types/database.ts:114-118 | after any history of updates an application keeps its id, job and applicant |
| Database.CompanyOf | src/pages/CompanyProfile.tsx:27-32 | the company query yields a row of the caller's, or no row exactly when the caller owns none |
| Common.OrNullRoundTrip | src/pages/DeveloperProfile.tsx:68-71 | a text stored with empty-as-null and read back with null-as-empty is the original text |
| Router.Capture | src/App.tsx:49-51 | a match means the path is prefix + a non-empty, slash-free capture + suffix |
| Router.CaptureComplete | src/App.tsx:49-51 | every prefix + segment + suffix path matches and captures exactly that segment |
| Router.Route | src/App.tsx:41-59 | the loading view is shown exactly while auth loads; exactly `/signup`, `/login` and loading are outside the layout |
| Router.JobsPathHasNoJobId | src/App.tsx:61-69 | the branch testing `/jobs` together with a job-id match is unreachable |
| Router.JobDetailRoute | src/App.tsx:71-79 | JobDetail is shown for `/jobs/<id>` exactly when `<id>` is non-empty and slash-free, and with that id |
| Router.JobsSlashIsHome | src/App.tsx:161-165 | `/jobs/` matches no route and shows Home in the layout |
| Router.EditAndApplicationsExclusive | src/App.tsx:141-159 | no path matches both the edit and the applications pattern |
| Router.DeveloperPathsShowDeveloperPages | src/App.tsx:53-165 | a path under `/developer/` shows a developer-only page or Home |
| Router.DeveloperPagesLiveUnderDeveloper | src/App.tsx:91-109 | a page guarded for developers is reached only through a path under `/developer/` |
| Router.EmployerPathsShowEmployerPages | src/App.tsx:53-165 | a path under `/employer/` shows an employer-only page or Home |
| Router.EmployerPagesLiveUnderEmployer | src/App.tsx:111-159 | a page guarded for employers is reached only through a path under `/employer/` |
| Router.NoMatchIsHome | src/App.tsx:161-165 | a path that fails every exact test and every pattern shows Home in the layout |
| Router.HomeIsFallback | src/App.tsx:161-165 | Home in the layout is shown exactly when no exact path and no pattern matches |
| Router.RouteIsTableLookup | src/App.tsx:53-165 | the if-chain equals a first-match lookup in a declarative route table |
| Tags.AddTag | src/pages/CreateJob.tsx:55-64 | adding appends at most the trimmed, non-blank input, keeps the old tags in front and keeps the list duplicate-free |
| Tags.RemoveTag | src/pages/CreateJob.tsx:66-71 | removal drops every copy of the tag and keeps every other tag |
| Tags.AddTagIdempotent | src/pages/CreateJob.tsx:57 | adding the same input twice equals adding it once |
| Tags.AddTrimmedTag | src/pages/CreateJob.tsx:56 | trimming the input first makes no difference |
| Tags.AddBlankTag | src/pages/CreateJob.tsx:57 | an all-white-space input leaves the list unchanged |
| Tags.RemoveTagKeepsOrder | src/pages/CreateJob.tsx:66-71 | removal keeps the rest in order and keeps a duplicate-free list duplicate-free |
| Tags.RemoveUndoesAdd | src/pages/CreateJob.tsx:55-71 | removing a tag just added restores the previous list |
| Text.TrimIsBlockOfInput | src/pages/CreateJob.tsx:56 | `trim` returns a contiguous block of its input and removes only white space before and after it |
| Seqs.CountIsPassingIndices | src/pages/DeveloperDashboard.tsx:51-56 | `filter(p).length` is the number of positions whose element passes `p` |
| Seqs.CountPartition | src/pages/EmployerDashboard.tsx:54-58 | when each element passes exactly one of two tests, their counts add up to the length |
| Seqs.CountPartition3 | src/pages/DeveloperDashboard.tsx:51-56 | when each element passes exactly one of three tests, their counts add up to the length |
| Text.TrimEmptyIffAllSpace | src/pages/CreateJob.tsx:56-57 | a trimmed input is empty exactly when the input is all white space |
| Text.IncludesAt | src/pages/Jobs.tsx:100-103 | `includes` holds exactly when the needle occurs at some index |
| Jobs.OpenJobs | src/pages/Jobs.tsx:37-52 | the listing holds exactly the table's Open jobs |
| Jobs.FilteredJobs | src/pages/Jobs.tsx:98-115 | a job is listed exactly when it is loaded and passes all four tests |
| Jobs.NoFiltersListAll | src/pages/Jobs.tsx:98-115 | with an empty term and no filter every loaded job is listed, in order |
| Jobs.FilteredKeepsOrder | src/pages/Jobs.tsx:98 | the filtered list is an order-preserving subsequence, keeping every copy of each listed job |
| Jobs.SearchIsSubstring | src/pages/Jobs.tsx:99-103 | a job matches the search exactly when the lowered term occurs in its lowered title, company name or description |
| Jobs.SelectedFiltersAreExact | src/pages/Jobs.tsx:105-109 | a chosen experience or employment filter admits exactly the jobs of the value it names |
| Jobs.Toggled | src/pages/Jobs.tsx:74-91 | toggling flips only the given job's membership |
| Jobs.ToggleTwice | src/pages/Jobs.tsx:74-91 | toggling the same job twice restores the set |
| Jobs.BookmarkedIds | src/pages/Jobs.tsx:54-68 | the bookmark set is exactly the job ids of the developer's bookmark rows |
| Jobs.JobsPage.FetchJobs | src/pages/Jobs.tsx:37-52 | a successful fetch stores the Open jobs; a failed one changes nothing; only Open jobs are ever held |
| Jobs.JobsPage.FetchBookmarks | src/pages/Jobs.tsx:54-68 | without a user or on failure the set is kept; otherwise it is rebuilt from the rows |
| Jobs.JobsPage.Load | src/pages/Jobs.tsx:30-35 | jobs are always fetched; bookmarks only for a developer |
| Jobs.JobsPage.ToggleBookmark | src/pages/Jobs.tsx:70-96 | without a user or developer role nothing happens; otherwise one delete or insert, and the set is toggled whatever the write's outcome |
| Jobs.JobsPage.Cards | src/pages/Jobs.tsx:208-220 | one card per listed job; none shows the Closed badge; the bookmark button shows exactly for developers; the filled state follows the set |
| JobCard.ShownTags | src/components/JobCard.tsx:69 | the shown tags are the first min(5, n) tags, in order |
| JobCard.MoreBadge | src/components/JobCard.tsx:74-76 | "+N more" appears exactly when there are more than five tags, with shown + N = n |
| JobCard.TagsAccountedFor | src/components/JobCard.tsx:69-76 | every tag is shown or counted; without the badge all tags are shown |
| JobCard.ExperienceVariant | src/components/JobCard.tsx:88 | Senior gets the warning variant and every other level the default |
| JobCard.ShowsBookmarkButton | src/components/JobCard.tsx:49 | the bookmark button is drawn exactly when a handler is passed; `Jobs.JobsPage.Cards` passes one exactly for developers |
| JobCard.ShowsClosedBadge | src/components/JobCard.tsx:98 | the Closed badge is drawn exactly for a job that is not Open; `Jobs.JobsPage.Cards` never draws it |
| JobForm.AddTech | src/pages/CreateJob.tsx:55-64 | the technology list is edited with the tag editor's add, the other fields untouched |
| JobForm.RemoveTech | src/pages/CreateJob.tsx:66-71 | the technology list is edited with the tag editor's remove, the other fields untouched |
| JobForm.RemoveUndoesAddTech | src/pages/CreateJob.tsx:55-71 | removing a technology just added restores the form |
| CreateJob.NewJob | src/pages/CreateJob.tsx:89-93 | the inserted job is owned by the caller and the caller's company, with no status |
| CreateJob.NewJobKeepsForm | src/pages/CreateJob.tsx:24-32 | every form field reaches the inserted row unchanged |
| CreateJob.Submit | src/pages/CreateJob.tsx:73-105 | a missing user or company is reported before an empty technology list; an insert happens exactly when both checks pass |
| CreateJob.CreateJobPage.FetchCompany | src/pages/CreateJob.tsx:38-53 | without a user or on failure nothing changes; otherwise the caller's company or none |
| CreateJob.CreateJobPage.AddTechStack | src/pages/CreateJob.tsx:55-64 | the form gets the tag editor's add and the picker is cleared |
| CreateJob.CreateJobPage.RemoveTechStack | src/pages/CreateJob.tsx:66-71 | the form gets the tag editor's remove |
| CreateJob.CreateJobPage.HandleSubmit | src/pages/CreateJob.tsx:73-105 | the imperative guards and insert agree with `Submit` |
| EditJob.Load | src/pages/EditJob.tsx:59-69 | the form mirrors the job field for field, with a null timezone shown as "" |
| EditJob.UpdateOf | src/pages/EditJob.tsx:104-107 | the update names each of the eight form columns with the form's value, the timezone as a string, and nothing else |
| EditJob.SaveThenLoad | src/pages/EditJob.tsx:104-107 | saving a form and loading the job again shows that form; owner and company are unchanged |
| EditJob.LoadThenSave | src/pages/EditJob.tsx:59-69 | saving the loaded form rewrites the job unchanged except that a null timezone becomes "" |
| EditJob.JobsWithId | src/pages/EditJob.tsx:45-49 | the query yields exactly the rows with that id |
| EditJob.Owned | src/pages/EditJob.tsx:53-57 | a job is loadable only if it is the table's row with that id and the viewer is its owner |
| EditJob.EditJobPage.FetchJob | src/pages/EditJob.tsx:43-73 | job and form are set exactly when the single row is the viewer's, and the page then records that viewer as the one who loaded it; the outcome is Unauthorized, with its alert and redirect, exactly when the single row is someone else's |
| EditJob.EditJobPage.AddTechStack | src/pages/EditJob.tsx:75-84 | as on the create page |
| EditJob.EditJobPage.RemoveTechStack | src/pages/EditJob.tsx:86-91 | as on the create page |
| EditJob.EditJobPage.SetStatus | src/pages/EditJob.tsx:274-284 | either status can be chosen from either status |
| EditJob.EditJobPage.HandleSubmit | src/pages/EditJob.tsx:93-119 | callable only once an owned job is loaded, since the form renders only then; no update with an empty technology list; otherwise one update of the loaded job, owned by the user who loaded it, with exactly the eight form fields |
| EditJob.EditJobPage.HandleDelete | src/pages/EditJob.tsx:121-141 | callable only once an owned job is loaded, since the button renders only then; nothing happens without confirmation; otherwise one delete of the loaded job, owned by the user who loaded it |
| DeveloperProfile.FormOf | src/pages/DeveloperProfile.tsx:28-37 | null bio and portfolio show as "", null skills as [] |
| DeveloperProfile.PatchOf | src/pages/DeveloperProfile.tsx:67-73 | empty bio, portfolio and skills are sent as null; role and e-mail are never sent |
| DeveloperProfile.SaveThenLoad | src/pages/DeveloperProfile.tsx:29-35 | saving a form and filling it again from the saved row shows that form |
| DeveloperProfile.LoadThenSave | src/pages/DeveloperProfile.tsx:29-35 | saving an unchanged form is the identity exactly when bio and portfolio are null or non-empty and skills null or non-empty |
| DeveloperProfile.DeveloperProfilePage.LoadProfile | src/pages/DeveloperProfile.tsx:28-37 | the form is refilled whenever a profile is present |
| DeveloperProfile.DeveloperProfilePage.AddSkill | src/pages/DeveloperProfile.tsx:39-48 | skills get the tag editor's add and the input is cleared |
| DeveloperProfile.DeveloperProfilePage.RemoveSkill | src/pages/DeveloperProfile.tsx:50-55 | skills get the tag editor's remove |
| DeveloperProfile.DeveloperProfilePage.HandleSubmit | src/pages/DeveloperProfile.tsx:57-85 | nothing without a user; otherwise one update of the caller's own row |
| JobDetail.ApplicationsBy | src/pages/JobDetail.tsx:53-58 | the query yields exactly the rows for that job and developer |
| JobDetail.Applied | src/pages/JobDetail.tsx:49-65 | the check answers true only if a row exists, and false exactly when none exists; several rows make it fail |
| JobDetail.NewApplication | src/pages/JobDetail.tsx:72-77 | the inserted row holds the job, the caller and the resume; an empty cover letter becomes null; no status |
| JobDetail.FirstApplicationIsFound | src/pages/JobDetail.tsx:49-77 | after a first application is stored the check reports it |
| JobDetail.SecondApplicationBreaksCheck | src/pages/JobDetail.tsx:49-77 | apply does not consult `hasApplied`; a second stored row makes the check fail |
| JobDetail.ShowsApplySection | src/pages/JobDetail.tsx:202 | the apply section appears exactly for a developer viewing a job that is not Closed |
| JobDetail.ShowsApplyButton | src/pages/JobDetail.tsx:202-217 | inside the section the button is offered exactly before applying; afterwards the section shows the applied notice |
| JobDetail.ButtonShownOnlyBeforeApplying | src/pages/JobDetail.tsx:49-65 | fed with the check's answer, the button is offered exactly when the section is shown and the developer has no application to the job |
| JobDetail.ApplyingHidesButton | src/pages/JobDetail.tsx:67-91 | after a first application is stored, the check hides the button that it offered before |
| JobDetail.JobDetailPage.FetchJob | src/pages/JobDetail.tsx:32-47 | the job is set only from the single row with that id |
| JobDetail.JobDetailPage.CheckApplication | src/pages/JobDetail.tsx:49-65 | `hasApplied` becomes the check's answer; without a user or on failure it is kept |
| JobDetail.JobDetailPage.Load | src/pages/JobDetail.tsx:25-30 | the job is always fetched, with the fetch's outcome; the application check runs only for a signed-in developer, and a failed check keeps `hasApplied` |
| JobDetail.JobDetailPage.OpenApplyModal | src/pages/JobDetail.tsx:202-217 | the modal is opened only from the apply button, so only while that button is offered |
| JobDetail.JobDetailPage.HandleApply | src/pages/JobDetail.tsx:67-91 | nothing without a user or a resume; otherwise one insert; on success applied, cleared and the button hidden for everyone; on failure an alert and nothing cleared |
| JobApplications.ForJob | src/pages/JobApplications.tsx:28-32 | the query yields exactly the job's applications |
| JobApplications.Authorized | src/pages/JobApplications.tsx:36-43 | an empty list is shown to anyone; a non-empty one only to the owner of its first row's job |
| JobApplications.FirstRowDecides | src/pages/JobApplications.tsx:36-43 | when all rows share one job, testing the first row is testing every row |
| JobApplications.StatusOf | src/pages/JobApplications.tsx:51-54 | a decision is only ever Accepted or Rejected |
| JobApplications.Rewritten | src/pages/JobApplications.tsx:63-67 | same length and order; the row with the id gets the database's status update, the others are unchanged |
| JobApplications.UpdateIgnoresCurrentStatus | src/pages/JobApplications.tsx:56-59 | any row can be set to either decision whatever its status |
| JobApplications.Run | src/pages/JobApplications.tsx:173-190 | clicks keep the list's length and ids |
| JobApplications.ClickOnlyDecidesPending | src/pages/JobApplications.tsx:173-190 | one offered click changes at most a Pending row, and only its status |
| JobApplications.DecisionsAreFinal | src/pages/JobApplications.tsx:173-190 | through the buttons the only transitions are Pending to Accepted or Rejected |
| JobApplications.BadgeVariant | src/pages/JobApplications.tsx:156-162 | Accepted is success, Rejected danger, Pending warning |
| JobApplications.CountNoun | src/pages/JobApplications.tsx:98 | the label is "application" exactly for a count of one |
| JobApplications.JobApplicationsPage.FetchApplications | src/pages/JobApplications.tsx:26-49 | the list is stored exactly when it is empty or its first row's job is the viewer's |
| JobApplications.JobApplicationsPage.ViewDetails | src/pages/JobApplications.tsx:74-77 | the chosen application is selected and the modal opened |
| JobApplications.JobApplicationsPage.UpdateApplicationStatus | src/pages/JobApplications.tsx:51-72 | one status update; on success the list is rewritten, on failure kept with an alert |
| CompanyProfile.FormOf | src/pages/CompanyProfile.tsx:36-44 | null logo, website and description show as "" |
| CompanyProfile.UpdateOf | src/pages/CompanyProfile.tsx:58-61 | the four columns are written as they are; "" is not turned into null |
| CompanyProfile.InsertOf | src/pages/CompanyProfile.tsx:66-69 | the new company is owned by the caller and holds the form as it is |
| CompanyProfile.SaveThenLoad | src/pages/CompanyProfile.tsx:58-65 | saving a form and loading again shows that form; the owner is kept |
| CompanyProfile.LoadThenSave | src/pages/CompanyProfile.tsx:36-44 | saving the loaded form is the identity exactly when no optional column is null |
| CompanyProfile.CompanyProfilePage.FetchCompany | src/pages/CompanyProfile.tsx:24-48 | company and form are set only when the caller has a company |
| CompanyProfile.CompanyProfilePage.HandleSubmit | src/pages/CompanyProfile.tsx:50-83 | nothing without a user; with a loaded company an update by its id, otherwise one insert owned by the caller; after success a re-fetch, and a re-fetch that finds no single company keeps company and form as they were |
| SignUp.Validate | src/pages/SignUp.tsx:23-36 | the role, match and length checks run in that order; a form passes exactly when all hold |
| SignUp.RoleCheckedFirst | src/pages/SignUp.tsx:23-26 | with no role the error is the role error whatever the passwords |
| SignUp.MismatchBeforeLength | src/pages/SignUp.tsx:28-36 | a short mismatched password reports the mismatch |
| SignUp.Landing | src/pages/SignUp.tsx:42 | developers land on their dashboard, everyone else on the employer dashboard |
| SignUp.SignUpPage.SelectRole | src/pages/SignUp.tsx:9 | the chosen role is stored |
| SignUp.SignUpPage.HandleSubmit | src/pages/SignUp.tsx:19-48 | the error is cleared first; sign-up is called exactly when validation passes; the error or redirect follows its outcome |
| EmployerDashboard.OwnJobs | src/pages/EmployerDashboard.tsx:27-31 | only the caller's jobs are fetched |
| EmployerDashboard.Annotate | src/pages/EmployerDashboard.tsx:35-44 | same length and order, job fields unchanged, a null count read as 0 |
| EmployerDashboard.ReduceIsSum | src/pages/EmployerDashboard.tsx:57 | the left fold of `reduce` equals the sum of the counts |
| EmployerDashboard.StatsOf | src/pages/EmployerDashboard.tsx:54-58 | total jobs is the list's length; open jobs is the number of positions holding an Open job, and open plus closed is the total; total applications is the sum of the counts |
| EmployerDashboard.ApplicationsToSplit | src/pages/EmployerDashboard.tsx:37-40 | counting one more job adds exactly that job's applications |
| EmployerDashboard.TotalCountsEachApplicationOnce | src/pages/EmployerDashboard.tsx:35-57 | with every count answered, the total is the number of applications to the employer's jobs, each once |
| EmployerDashboard.EmployerDashboardPage.FetchJobs | src/pages/EmployerDashboard.tsx:23-52 | without a user or on failure nothing changes; otherwise the caller's annotated jobs |
| DeveloperDashboard.MyApplications | src/pages/DeveloperDashboard.tsx:25-29 | only the caller's applications are fetched |
| DeveloperDashboard.MyBookmarks | src/pages/DeveloperDashboard.tsx:30-34 | only the caller's bookmarks are fetched |
| DeveloperDashboard.JobsOf | src/pages/DeveloperDashboard.tsx:41-43 | one job per bookmark row, in order |
| DeveloperDashboard.StatusCount | src/pages/DeveloperDashboard.tsx:53-54 | counting the rows with one status counts exactly the positions that hold it |
| DeveloperDashboard.StatsOf | src/pages/DeveloperDashboard.tsx:51-56 | pending and accepted are the numbers of positions with that status, and pending + accepted + rejected is the total; the bookmark total is the list's length |
| DeveloperDashboard.Recent | src/pages/DeveloperDashboard.tsx:163 | at most the first five entries, in order |
| DeveloperDashboard.DeveloperDashboardPage.FetchData | src/pages/DeveloperDashboard.tsx:20-49 | nothing without a user or if either query fails; otherwise the caller's applications and bookmarked jobs |
| DeveloperDashboard.LoadedDataIsOwn | src/pages/DeveloperDashboard.tsx:41-55 | the shown applications are the caller's; the bookmark total equals the bookmark rows |

## Left out

- Database I/O. Every query is replaced by the rows it sees, and every write by the request it would send. Row-level security, column defaults and `created_at` ordering are not modelled, so the order of a fetched list is the table's order.
- Concurrency. The parallel fetches of the dashboards run one after the other. A state update that reads a stale closure, for example two quick status changes, is not modelled.
- Unicode. `toLowerCase` is modelled on ASCII letters only. Password length counts characters, not UTF-16 units. `trim` uses the ECMAScript white-space set.
- Rendering. Markup, date formatting, loading flags and the plain `onChange` field setters are not modelled. Form fields are inputs to the handlers.
- Collaborators. Authentication, `ProtectedRoute`, the login page, the layout, the Home redirect and the history/popstate plumbing that keeps the current path up to date are not part of this model. `signUp` is an abstract call with three outcomes.
- Jobs.JobsPage.ToggleBookmark: an exception thrown by the client library (as opposed to an error result) would skip the set update; the model treats every write as returning a result.
- JobApplications.JobApplicationsPage.ViewDetails: the modal keeps its own copy of the selected row; the model does not track that copy going stale after a list update.
- The dashboards' status badge uses the same mapping as `JobApplications.BadgeVariant` (src/pages/DeveloperDashboard.tsx:177-184).
- HTML `required` attributes. The browser refuses to submit a form with an empty required field (src/pages/CreateJob.tsx:136, src/pages/EditJob.tsx:169, src/pages/JobDetail.tsx:240, src/pages/CompanyProfile.tsx:100, src/pages/SignUp.tsx:132-159 and their neighbours). The handlers are modelled as the code states them, so they also accept empty fields.
- The `job &&` test at src/pages/JobApplications.tsx:37 is not modelled. In this model a joined application always carries its job, so a null join cannot occur.
- The model does not claim properties the code does not enforce. It says nothing of one application per job and developer, of a status that is final in the database, or of one company per employer.
