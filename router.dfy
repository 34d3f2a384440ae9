/**
 * The client-side router: from the current path (and whether the session is
 * still loading) to the page shown, whether it sits inside the common
 * `Layout`, and which role its `ProtectedRoute` demands. The history and
 * popstate plumbing that keeps the path current is not part of the model:
 * the path is an input.
 */
module Router {
  import opened Common
  import opened Database

  datatype Page =
    | LoadingScreen | SignUpPage | LoginPage | JobDetailPage(jobId: string) | JobsPage
    | DeveloperDashboardPage | DeveloperProfilePage | EmployerDashboardPage | CompanyProfilePage
    | CreateJobPage | EditJobPage(jobId: string) | JobApplicationsPage(jobId: string) | HomePage

  /** `Unguarded`: no `ProtectedRoute`; `Protected(r)`: a `ProtectedRoute` with `requiredRole` r. */
  datatype Guard = Unguarded | Protected(requiredRole: Option<Role>)

  /** A page on its own, or a page wrapped in `Layout`. */
  datatype View = Bare(page: Page) | InLayout(guard: Guard, page: Page)

  const JobsPrefix: string := "/jobs/"
  const EmployerJobsPrefix: string := "/employer/jobs/"
  const EditSuffix: string := "/edit"
  const ApplicationsSuffix: string := "/applications"

  /** What `([^/]+)` captures: at least one character, none of them a slash. */
  predicate IsSegment(s: string) {
    |s| > 0 && '/' !in s
  }

  /** Matching `^prefix([^/]+)suffix$` (prefix and suffix literal) and returning the capture. */
  function Capture(prefix: string, suffix: string, path: string): (r: Option<string>)
    ensures r.Some? ==> path == prefix + r.value + suffix && IsSegment(r.value)
  {
    if |prefix| + |suffix| <= |path| && prefix <= path && path[|path| - |suffix|..] == suffix
       && IsSegment(path[|prefix|..|path| - |suffix|])
    then Some(path[|prefix|..|path| - |suffix|])
    else None
  }

  /** Every path of the form prefix + segment + suffix matches, capturing exactly the segment. */
  lemma CaptureComplete(prefix: string, suffix: string, id: string)
    requires IsSegment(id)
    ensures Capture(prefix, suffix, prefix + id + suffix) == Some(id)
  {
    var path := prefix + id + suffix;
    assert path[..|prefix|] == prefix;
    assert path[|path| - |suffix|..] == suffix;
    assert path[|prefix|..|path| - |suffix|] == id;
  }

  /** The `Router` component: its ordered chain of tests, ending in the Home fallback. */
  function Route(loading: bool, path: string): (v: View)
    ensures v.page == LoadingScreen <==> loading
    ensures v.Bare? <==> loading || path == "/signup" || path == "/login"
  {
    if loading then Bare(LoadingScreen)
    else
      var jobIdMatch := Capture(JobsPrefix, "", path);
      var editJobMatch := Capture(EmployerJobsPrefix, EditSuffix, path);
      var applicationsMatch := Capture(EmployerJobsPrefix, ApplicationsSuffix, path);
      // `jobIdMatch.GetOr("")` reads the capture `jobIdMatch[1]` of a successful match.
      if path == "/signup" then Bare(SignUpPage)
      else if path == "/login" then Bare(LoginPage)
      else if path == "/jobs" && jobIdMatch.Some? then InLayout(Protected(None), JobDetailPage(jobIdMatch.GetOr("")))
      else if jobIdMatch.Some? then InLayout(Protected(None), JobDetailPage(jobIdMatch.GetOr("")))
      else if path == "/jobs" then InLayout(Protected(None), JobsPage)
      else if path == "/developer/dashboard" then InLayout(Protected(Some(Developer)), DeveloperDashboardPage)
      else if path == "/developer/profile" then InLayout(Protected(Some(Developer)), DeveloperProfilePage)
      else if path == "/employer/dashboard" then InLayout(Protected(Some(Employer)), EmployerDashboardPage)
      else if path == "/employer/company" then InLayout(Protected(Some(Employer)), CompanyProfilePage)
      else if path == "/employer/create-job" then InLayout(Protected(Some(Employer)), CreateJobPage)
      else if editJobMatch.Some? then InLayout(Protected(Some(Employer)), EditJobPage(editJobMatch.value))
      else if applicationsMatch.Some? then InLayout(Protected(Some(Employer)), JobApplicationsPage(applicationsMatch.value))
      else InLayout(Unguarded, HomePage)
  }

  /** The branch testing `path == "/jobs"` together with the job-id pattern can never be taken. */
  lemma JobsPathHasNoJobId()
    ensures Capture(JobsPrefix, "", "/jobs") == None
  {
    assert !(JobsPrefix <= "/jobs");
  }

  /** JobDetail is shown exactly for `/jobs/<id>` with a non-empty, slash-free id, and with that id. */
  lemma {:induction false} JobDetailRoute(path: string, id: string)
    ensures Route(false, path).page == JobDetailPage(id) <==> path == JobsPrefix + id && IsSegment(id)
  {
    if path == JobsPrefix + id && IsSegment(id) {
      CaptureComplete(JobsPrefix, "", id);
      assert JobsPrefix + id + "" == path;
      assert path[1] == 'j';
    }
  }

  /** `/jobs/` captures nothing and falls through to Home. */
  lemma JobsSlashIsHome()
    ensures Route(false, "/jobs/") == InLayout(Unguarded, HomePage)
  {
    var p := "/jobs/";
    assert !IsSegment(p[|JobsPrefix|..|p|]);
    assert |EmployerJobsPrefix| > |p|;
  }

  /** The edit and the applications patterns never both match, and each captures what sits between prefix and suffix. */
  lemma {:induction false} EditAndApplicationsExclusive(path: string)
    ensures !(Capture(EmployerJobsPrefix, EditSuffix, path).Some?
              && Capture(EmployerJobsPrefix, ApplicationsSuffix, path).Some?)
  {
    if Capture(EmployerJobsPrefix, EditSuffix, path).Some?
       && Capture(EmployerJobsPrefix, ApplicationsSuffix, path).Some? {
      LastOfSuffix(path, EditSuffix);
      LastOfSuffix(path, ApplicationsSuffix);
      assert false;
    }
  }

  lemma LastOfSuffix(path: string, suffix: string)
    ensures 0 < |suffix| <= |path| && path[|path| - |suffix|..] == suffix ==>
      path[|path| - 1] == suffix[|suffix| - 1]
  {
    if 0 < |suffix| <= |path| && path[|path| - |suffix|..] == suffix {
      assert path[|path| - |suffix|..][|suffix| - 1] == path[|path| - 1];
    }
  }

  /** A path under `/developer/` shows a developer-only page or Home. */
  lemma DeveloperPathsShowDeveloperPages(path: string)
    ensures "/developer/" <= path ==>
      Route(false, path).page == HomePage || Route(false, path).guard == Protected(Some(Developer))
  {
    if "/developer/" <= path {
      assert path[1] == 'd';
      assert !(JobsPrefix <= path) by { assert JobsPrefix[1] == 'j'; }
      assert !(EmployerJobsPrefix <= path) by { assert EmployerJobsPrefix[1] == 'e'; }
      assert path != "/signup" && path != "/login" && path != "/jobs";
      assert path != "/employer/dashboard" && path != "/employer/company" && path != "/employer/create-job";
    }
  }

  /** The developer-only pages are reached only through paths under `/developer/`. */
  lemma DeveloperPagesLiveUnderDeveloper(path: string)
    ensures Route(false, path).InLayout? && Route(false, path).guard == Protected(Some(Developer)) ==>
      "/developer/" <= path
  {
    var v := Route(false, path);
    if v.InLayout? && v.guard == Protected(Some(Developer)) {
      assert path == "/developer/dashboard" || path == "/developer/profile";
    }
  }

  /** A path under `/employer/` shows an employer-only page or Home. */
  lemma EmployerPathsShowEmployerPages(path: string)
    ensures "/employer/" <= path ==>
      Route(false, path).page == HomePage || Route(false, path).guard == Protected(Some(Employer))
  {
    if "/employer/" <= path {
      assert path[1] == 'e';
      assert !(JobsPrefix <= path) by { assert JobsPrefix[1] == 'j'; }
      assert path != "/signup" && path != "/login" && path != "/jobs";
      assert path != "/developer/dashboard" && path != "/developer/profile";
    }
  }

  /** The employer-only pages are reached only through paths under `/employer/`. */
  lemma EmployerPagesLiveUnderEmployer(path: string)
    ensures Route(false, path).InLayout? && Route(false, path).guard == Protected(Some(Employer)) ==>
      "/employer/" <= path
  {
    var v := Route(false, path);
    if v.InLayout? && v.guard == Protected(Some(Employer)) {
      if path !in {"/employer/dashboard", "/employer/company", "/employer/create-job"} {
        assert Capture(EmployerJobsPrefix, EditSuffix, path).Some?
               || Capture(EmployerJobsPrefix, ApplicationsSuffix, path).Some?;
        assert EmployerJobsPrefix <= path;
        assert path[..10] == EmployerJobsPrefix[..10];
      }
    }
  }

  /** The exact paths the router tests, in order. */
  const ExactPaths: set<string> := {"/signup", "/login", "/jobs", "/developer/dashboard",
    "/developer/profile", "/employer/dashboard", "/employer/company", "/employer/create-job"}

  /** When no test of the chain succeeds, a loaded router shows Home in the layout. */
  lemma NoMatchIsHome(path: string)
    requires path !in ExactPaths && Capture(JobsPrefix, "", path).None?
    requires Capture(EmployerJobsPrefix, EditSuffix, path).None?
    requires Capture(EmployerJobsPrefix, ApplicationsSuffix, path).None?
    ensures Route(false, path) == InLayout(Unguarded, HomePage)
  {
    assert path != "/signup" && path != "/login" && path != "/jobs";
    assert path != "/developer/dashboard" && path != "/developer/profile";
    assert path != "/employer/dashboard" && path != "/employer/company" && path != "/employer/create-job";
  }

  /** Home in the layout is what a loaded router shows exactly when no test of the chain succeeds. */
  lemma HomeIsFallback(path: string)
    ensures Route(false, path) == InLayout(Unguarded, HomePage) <==>
      path !in ExactPaths && Capture(JobsPrefix, "", path).None?
      && Capture(EmployerJobsPrefix, EditSuffix, path).None?
      && Capture(EmployerJobsPrefix, ApplicationsSuffix, path).None?
  {
    if path !in ExactPaths && Capture(JobsPrefix, "", path).None?
       && Capture(EmployerJobsPrefix, EditSuffix, path).None?
       && Capture(EmployerJobsPrefix, ApplicationsSuffix, path).None? {
      NoMatchIsHome(path);
    } else {
      assert Route(false, path).page != HomePage;
    }
  }

  // ------------------------------------------------- the route table

  /** A route pattern: an exact path, or `^prefix([^/]+)suffix$`. */
  datatype Pattern = Exact(path: string) | Param(prefix: string, suffix: string)

  /** One row of the routing table; for a `Param` pattern the page's id is filled in with the capture. */
  datatype Entry = Entry(pattern: Pattern, inLayout: bool, guard: Guard, page: Page)

  /** The routes in priority order, as a declarative table. */
  const RouteTable: seq<Entry> := [
    Entry(Exact("/signup"), false, Unguarded, SignUpPage),
    Entry(Exact("/login"), false, Unguarded, LoginPage),
    Entry(Param(JobsPrefix, ""), true, Protected(None), JobDetailPage("")),
    Entry(Exact("/jobs"), true, Protected(None), JobsPage),
    Entry(Exact("/developer/dashboard"), true, Protected(Some(Developer)), DeveloperDashboardPage),
    Entry(Exact("/developer/profile"), true, Protected(Some(Developer)), DeveloperProfilePage),
    Entry(Exact("/employer/dashboard"), true, Protected(Some(Employer)), EmployerDashboardPage),
    Entry(Exact("/employer/company"), true, Protected(Some(Employer)), CompanyProfilePage),
    Entry(Exact("/employer/create-job"), true, Protected(Some(Employer)), CreateJobPage),
    Entry(Param(EmployerJobsPrefix, EditSuffix), true, Protected(Some(Employer)), EditJobPage("")),
    Entry(Param(EmployerJobsPrefix, ApplicationsSuffix), true, Protected(Some(Employer)), JobApplicationsPage(""))
  ]

  function MatchPattern(p: Pattern, path: string): Option<string> {
    match p
    case Exact(q) => if path == q then Some("") else None
    case Param(prefix, suffix) => Capture(prefix, suffix, path)
  }

  function WithId(page: Page, id: string): Page {
    match page
    case JobDetailPage(_) => JobDetailPage(id)
    case EditJobPage(_) => EditJobPage(id)
    case JobApplicationsPage(_) => JobApplicationsPage(id)
    case _ => page
  }

  /** The first entry whose pattern matches, or Home in the layout when none does. */
  function Lookup(table: seq<Entry>, path: string): View {
    LookupFrom(table, 0, path)
  }

  /** `Lookup` among the entries from index `i` on. */
  function LookupFrom(table: seq<Entry>, i: nat, path: string): View
    decreases |table| - i
  {
    if i >= |table| then InLayout(Unguarded, HomePage)
    else
      match MatchPattern(table[i].pattern, path)
      case Some(id) =>
        var page := WithId(table[i].page, id);
        if table[i].inLayout then InLayout(table[i].guard, page) else Bare(page)
      case None => LookupFrom(table, i + 1, path)
  }

  /** Once the session is loaded, the router's if-chain is exactly a lookup in the route table. */
  lemma RouteIsTableLookup(path: string)
    ensures Route(false, path) == Lookup(RouteTable, path)
  {
    var t := RouteTable;
    if path == "/signup" || path == "/login" {
      assert LookupFrom(t, 0, path) == Route(false, path);
    } else {
      assert LookupFrom(t, 0, path) == LookupFrom(t, 1, path) == LookupFrom(t, 2, path);
      if Capture(JobsPrefix, "", path).None? {
        assert LookupFrom(t, 2, path) == LookupFrom(t, 3, path);
        if path != "/jobs" {
          assert LookupFrom(t, 3, path) == LookupFrom(t, 4, path);
          RouteFromDeveloperPages(path);
        }
      }
    }
  }

  /** `RouteIsTableLookup` for the paths that reach the developer and employer pages. */
  lemma RouteFromDeveloperPages(path: string)
    requires path != "/signup" && path != "/login" && path != "/jobs"
    requires Capture(JobsPrefix, "", path).None?
    ensures Route(false, path) == LookupFrom(RouteTable, 4, path)
  {
    var t := RouteTable;
    if path in {"/developer/dashboard", "/developer/profile", "/employer/dashboard",
                "/employer/company", "/employer/create-job"} {
      RouteAtExactPages(path);
    } else {
      assert LookupFrom(t, 4, path) == LookupFrom(t, 5, path) == LookupFrom(t, 6, path);
      assert LookupFrom(t, 6, path) == LookupFrom(t, 7, path) == LookupFrom(t, 8, path);
      assert LookupFrom(t, 8, path) == LookupFrom(t, 9, path);
      RouteFromJobPages(path);
    }
  }

  /** `RouteIsTableLookup` for the five exact developer and employer paths. */
  lemma RouteAtExactPages(path: string)
    requires path != "/signup" && path != "/login" && path != "/jobs"
    requires Capture(JobsPrefix, "", path).None?
    requires path in {"/developer/dashboard", "/developer/profile", "/employer/dashboard",
                      "/employer/company", "/employer/create-job"}
    ensures Route(false, path) == LookupFrom(RouteTable, 4, path)
  {
    var t := RouteTable;
    if path == "/developer/dashboard" {
      assert Route(false, path) == InLayout(Protected(Some(Developer)), DeveloperDashboardPage);
    } else if path == "/developer/profile" {
      assert LookupFrom(t, 4, path) == LookupFrom(t, 5, path);
    } else if path == "/employer/dashboard" {
      assert LookupFrom(t, 4, path) == LookupFrom(t, 5, path) == LookupFrom(t, 6, path);
    } else if path == "/employer/company" {
      assert LookupFrom(t, 4, path) == LookupFrom(t, 5, path) == LookupFrom(t, 6, path);
      assert LookupFrom(t, 6, path) == LookupFrom(t, 7, path);
    } else {
      assert LookupFrom(t, 4, path) == LookupFrom(t, 5, path) == LookupFrom(t, 6, path);
      assert LookupFrom(t, 6, path) == LookupFrom(t, 7, path) == LookupFrom(t, 8, path);
    }
  }

  /** `RouteIsTableLookup` for the paths that reach the edit and applications pages or Home. */
  lemma RouteFromJobPages(path: string)
    requires path !in {"/signup", "/login", "/jobs", "/developer/dashboard", "/developer/profile",
                       "/employer/dashboard", "/employer/company", "/employer/create-job"}
    requires Capture(JobsPrefix, "", path).None?
    ensures Route(false, path) == LookupFrom(RouteTable, 9, path)
  {
    var t := RouteTable;
    var edit := Capture(EmployerJobsPrefix, EditSuffix, path);
    var applications := Capture(EmployerJobsPrefix, ApplicationsSuffix, path);
    assert path != "/signup" && path != "/login" && path != "/jobs";
    assert path != "/developer/dashboard" && path != "/developer/profile";
    assert path != "/employer/dashboard" && path != "/employer/company" && path != "/employer/create-job";
    if edit.Some? {
      assert Route(false, path) == InLayout(Protected(Some(Employer)), EditJobPage(edit.value));
    } else {
      assert LookupFrom(t, 9, path) == LookupFrom(t, 10, path);
      if applications.Some? {
        assert Route(false, path) == InLayout(Protected(Some(Employer)), JobApplicationsPage(applications.value));
      } else {
        assert LookupFrom(t, 10, path) == LookupFrom(t, 11, path);
      }
    }
  }
}
