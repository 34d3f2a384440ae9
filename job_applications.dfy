/**
 * The employer's view of the applications to one job: the list is shown only
 * to the job's owner, and Pending applications can be accepted or rejected.
 */
module JobApplications {
  import opened Common
  import opened Database
  import opened Seqs
  import JobCard

  const UpdateFailedAlert := "Failed to update application status"

  /** The rows `eq('job_id', jobId)` selects, each joined with its job and applicant. */
  function ForJob(table: seq<ApplicationWithDetails>, jobId: string): (r: seq<ApplicationWithDetails>)
    ensures forall a :: a in r <==> a in table && a.app.jobId == jobId
  {
    Filter(table, (a: ApplicationWithDetails) => a.app.jobId == jobId)
  }

  /** The ownership test: an empty list is always accepted, otherwise the first row's job must be the viewer's. */
  predicate Authorized(list: seq<ApplicationWithDetails>, user: Option<string>): (b: bool)
    ensures list == [] ==> b
    ensures list != [] ==> (b <==> user.Some? && user.value == list[0].job.job.employerId)
  {
    list == [] || user == Some(list[0].job.job.employerId)
  }

  /** When every row is joined to the same job, testing the first row is testing all of them. */
  lemma FirstRowDecides(list: seq<ApplicationWithDetails>, user: Option<string>, job: JobWithCompany)
    requires forall a :: a in list ==> a.job == job
    ensures Authorized(list, user) <==> forall a :: a in list ==> user == Some(a.job.job.employerId)
  {
    if list != [] {
      assert list[0] in list;
    }
  }

  /** The two decisions an employer can take. */
  datatype Decision = Accept | Reject

  function StatusOf(d: Decision): (s: ApplicationStatus)
    ensures s != Pending
    ensures s == Accepted <==> d == Accept
  {
    match d
    case Accept => Accepted
    case Reject => Rejected
  }

  /** The update object sent: `{ status }` and nothing else. */
  function StatusUpdate(s: ApplicationStatus): ApplicationUpdate {
    ApplicationUpdate(Omitted, Omitted, Given(s))
  }

  /**
   * The `map` that mirrors the update in the page: every row whose id is `id`
   * gets the row the database update produces, every other row stays.
   */
  function Rewritten(list: seq<ApplicationWithDetails>, id: string, s: ApplicationStatus): (r: seq<ApplicationWithDetails>)
    ensures |r| == |list|
    ensures forall i :: 0 <= i < |list| ==>
      r[i].job == list[i].job && r[i].profile == list[i].profile
      && r[i].app == (if list[i].app.id == id then UpdateApplication(list[i].app, StatusUpdate(s)) else list[i].app)
  {
    seq(|list|, i requires 0 <= i < |list| =>
      if list[i].app.id == id then list[i].(app := list[i].app.(status := s)) else list[i])
  }

  /** Application ids are the table's primary key. */
  predicate UniqueIds(list: seq<ApplicationWithDetails>) {
    forall i, j :: 0 <= i < j < |list| ==> list[i].app.id != list[j].app.id
  }

  /** The status update does not look at the current status: any row can be set to either decision. */
  lemma UpdateIgnoresCurrentStatus(list: seq<ApplicationWithDetails>, k: int, d: Decision)
    requires UniqueIds(list) && 0 <= k < |list|
    ensures Rewritten(list, list[k].app.id, StatusOf(d))[k].app.status == StatusOf(d)
    ensures forall i :: 0 <= i < |list| && i != k ==> Rewritten(list, list[k].app.id, StatusOf(d))[i] == list[i]
  {
  }

  /** Accept and Reject are offered only on a Pending application (in the list and in the modal). */
  predicate ActionsOffered(a: ApplicationWithDetails) {
    a.app.status == Pending
  }

  /** A decision on `id` can be clicked only when a row with that id is shown as Pending. */
  predicate Offered(list: seq<ApplicationWithDetails>, id: string) {
    exists k :: 0 <= k < |list| && list[k].app.id == id && ActionsOffered(list[k])
  }

  /** The list after a sequence of clicks, each applied only if its buttons are on screen. */
  function Run(list: seq<ApplicationWithDetails>, clicks: seq<(string, Decision)>): (r: seq<ApplicationWithDetails>)
    ensures |r| == |list|
    ensures forall i :: 0 <= i < |list| ==> r[i].app.id == list[i].app.id
    decreases |clicks|
  {
    if clicks == [] then list
    else
      var next := if Offered(list, clicks[0].0) then Rewritten(list, clicks[0].0, StatusOf(clicks[0].1)) else list;
      Run(next, clicks[1..])
  }

  /** One click changes at most the Pending row it was offered on, and only to a decision. */
  lemma ClickOnlyDecidesPending(list: seq<ApplicationWithDetails>, click: (string, Decision), k: int)
    requires UniqueIds(list) && 0 <= k < |list|
    ensures var next := if Offered(list, click.0) then Rewritten(list, click.0, StatusOf(click.1)) else list;
      next[k] == list[k] || (list[k].app.status == Pending && next[k].app.status != Pending
                             && next[k] == list[k].(app := list[k].app.(status := next[k].app.status)))
  {
    if Offered(list, click.0) && list[k].app.id == click.0 {
      var j :| 0 <= j < |list| && list[j].app.id == click.0 && ActionsOffered(list[j]);
      assert j == k;
    }
  }

  /**
   * Through the page's buttons, the only transitions are Pending to Accepted
   * and Pending to Rejected: an application that is decided stays as it is,
   * and nothing ever returns to Pending.
   */
  lemma {:induction false} DecisionsAreFinal(list: seq<ApplicationWithDetails>, clicks: seq<(string, Decision)>, k: int)
    requires UniqueIds(list) && 0 <= k < |list|
    ensures var r := Run(list, clicks);
      r[k] == list[k] || (list[k].app.status == Pending && r[k].app.status != Pending
                          && r[k] == list[k].(app := list[k].app.(status := r[k].app.status)))
    decreases |clicks|
  {
    if clicks != [] {
      var next := if Offered(list, clicks[0].0) then Rewritten(list, clicks[0].0, StatusOf(clicks[0].1)) else list;
      ClickOnlyDecidesPending(list, clicks[0], k);
      assert UniqueIds(next) by {
        assert forall i :: 0 <= i < |list| ==> next[i].app.id == list[i].app.id;
      }
      DecisionsAreFinal(next, clicks[1..], k);
      assert Run(list, clicks) == Run(next, clicks[1..]);
    }
  }

  /** The status badge: Accepted is success, Rejected is danger, anything else a warning. */
  function BadgeVariant(s: ApplicationStatus): (v: JobCard.Variant)
    ensures v == JobCard.Success <==> s == Accepted
    ensures v == JobCard.Danger <==> s == Rejected
    ensures v == JobCard.Warning <==> s == Pending
  {
    match s
    case Accepted => JobCard.Success
    case Rejected => JobCard.Danger
    case Pending => JobCard.Warning
  }

  /** The count label's noun: singular exactly for one application. */
  function CountNoun(count: nat): (w: string)
    ensures w == "application" <==> count == 1
    ensures w == "application" || w == "applications"
  {
    if count == 1 then "application" else "applications"
  }

  class JobApplicationsPage {
    var applications: seq<ApplicationWithDetails>
    var selected: Option<ApplicationWithDetails>
    var showModal: bool

    constructor ()
      ensures applications == [] && selected.None? && !showModal
    {
      applications := [];
      selected := None;
      showModal := false;
    }

    /**
     * `fetchApplications`: the job's applications are stored only when the
     * viewer owns the job of the first row; otherwise the viewer is sent away.
     */
    method FetchApplications(user: Option<string>, jobId: string, table: Option<seq<ApplicationWithDetails>>)
      returns (outcome: Fetched)
      modifies this`applications
      ensures table.None? ==> outcome == QueryFailed
      ensures table.Some? && Authorized(ForJob(table.value, jobId), user) ==>
        outcome == Loaded && applications == ForJob(table.value, jobId)
      ensures table.Some? && !Authorized(ForJob(table.value, jobId), user) ==>
        outcome == Unauthorized(UnauthorizedAlert, EmployerDashboardPath)
      ensures !outcome.Loaded? ==> applications == old(applications)
    {
      if table.None? {
        return QueryFailed;
      }
      var rows := ForJob(table.value, jobId);
      if |rows| > 0 && user != Some(rows[0].job.job.employerId) {
        return Unauthorized(UnauthorizedAlert, EmployerDashboardPath);
      }
      applications := rows;
      outcome := Loaded;
    }

    method ViewDetails(a: ApplicationWithDetails)
      modifies this`selected, this`showModal
      ensures selected == Some(a) && showModal
    {
      selected := Some(a);
      showModal := true;
    }

    /**
     * `updateApplicationStatus`: one update of the row's status, whatever it
     * was; on success the list is rewritten, on failure it is kept and an alert raised.
     */
    method UpdateApplicationStatus(id: string, d: Decision, writeOk: bool)
      returns (e: Effects<(string, ApplicationUpdate)>)
      modifies this`applications
      ensures e.write == Some((id, StatusUpdate(StatusOf(d)))) && e.redirect.None?
      ensures writeOk ==> e.alert.None? && applications == Rewritten(old(applications), id, StatusOf(d))
      ensures !writeOk ==> e.alert == Some(UpdateFailedAlert) && applications == old(applications)
    {
      var status := StatusOf(d);
      if writeOk {
        applications := Rewritten(applications, id, status);
        e := Effects(Some((id, StatusUpdate(status))), None, None);
      } else {
        e := Effects(Some((id, StatusUpdate(status))), Some(UpdateFailedAlert), None);
      }
    }
  }
}
