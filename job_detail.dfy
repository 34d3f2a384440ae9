/**
 * The job detail page: it loads one job, checks whether the signed-in
 * developer has already applied, and submits an application from a modal.
 */
module JobDetail {
  import opened Common
  import opened Database
  import opened Seqs

  const ApplyFailedAlert := "Failed to submit application"

  /** The rows `eq('job_id', jobId).eq('developer_id', userId)` selects. */
  function ApplicationsBy(table: seq<Application>, jobId: string, userId: string): (r: seq<Application>)
    ensures forall a :: a in r <==> a in table && a.jobId == jobId && a.developerId == userId
  {
    Filter(table, (a: Application) => a.jobId == jobId && a.developerId == userId)
  }

  /**
   * `checkApplication`'s answer: whether a row exists for the job and the
   * developer, or `None` when `maybeSingle` fails because there are several.
   */
  function Applied(table: seq<Application>, jobId: string, userId: string): (r: Option<bool>)
    ensures r.None? <==> |ApplicationsBy(table, jobId, userId)| > 1
    ensures r == Some(true) ==> exists a :: a in table && a.jobId == jobId && a.developerId == userId
    ensures r == Some(false) <==> forall a :: a in table ==> !(a.jobId == jobId && a.developerId == userId)
  {
    var rows := ApplicationsBy(table, jobId, userId);
    assert rows != [] ==> rows[0] in rows;
    match MaybeSingle(rows)
    case None => None
    case Some(found) => Some(found.Some?)
  }

  /** The inserted application: the job, the caller, the resume, an empty cover letter as null, no status. */
  function NewApplication(jobId: string, userId: string, resumeUrl: string, coverLetter: string): (r: ApplicationInsert)
    ensures r.jobId == jobId && r.developerId == userId && r.resumeUrl == resumeUrl
    ensures r.coverLetter == Given(OrNull(coverLetter))
    ensures r.status.Omitted?
  {
    ApplicationInsert(jobId, userId, resumeUrl, Given(OrNull(coverLetter)), Omitted)
  }

  /** A row stored from an insert, given the id and status the database assigns. */
  function Stored(id: string, ins: ApplicationInsert, status: ApplicationStatus): Application {
    Application(id, ins.jobId, ins.developerId, ins.resumeUrl,
                if ins.coverLetter.Given? then ins.coverLetter.value else None, status)
  }

  /** After a first application is stored, the check reports that the developer has applied. */
  lemma FirstApplicationIsFound(table: seq<Application>, jobId: string, userId: string,
                                resumeUrl: string, coverLetter: string, id: string, status: ApplicationStatus)
    requires Applied(table, jobId, userId) == Some(false)
    ensures Applied(table + [Stored(id, NewApplication(jobId, userId, resumeUrl, coverLetter), status)],
                    jobId, userId) == Some(true)
  {
    var p := (a: Application) => a.jobId == jobId && a.developerId == userId;
    var row := Stored(id, NewApplication(jobId, userId, resumeUrl, coverLetter), status);
    FilterAppend(table, [row], p);
    assert Filter(table, p) == [];
    assert Filter([row], p) == [row];
  }

  /**
   * `handleApply` does not consult `hasApplied`: a second stored application
   * makes the check itself fail, so it no longer reports anything.
   */
  lemma SecondApplicationBreaksCheck(table: seq<Application>, jobId: string, userId: string, row: Application)
    requires Applied(table, jobId, userId) == Some(true)
    requires row.jobId == jobId && row.developerId == userId
    ensures Applied(table + [row], jobId, userId).None?
  {
    var p := (a: Application) => a.jobId == jobId && a.developerId == userId;
    FilterAppend(table, [row], p);
    assert Filter([row], p) == [row];
  }

  /** The apply section is shown only to developers, and only on open jobs. */
  predicate ShowsApplySection(profile: Option<Profile>, job: Job): (b: bool)
    ensures b <==> profile.Some? && profile.value.role == Developer && job.status != Closed
  {
    HasRole(profile, Developer) && job.status == Open
  }

  /** Inside it, the apply button is offered only before applying; afterwards the section says so instead. */
  predicate ShowsApplyButton(profile: Option<Profile>, job: Job, hasApplied: bool): (b: bool)
    ensures b ==> ShowsApplySection(profile, job)
    ensures hasApplied ==> !b
    ensures ShowsApplySection(profile, job) && !hasApplied ==> b
  {
    ShowsApplySection(profile, job) && !hasApplied
  }

  /**
   * Fed with the check's answer, the button is offered to a developer on an
   * open job exactly when the table holds no application of theirs to it.
   */
  lemma ButtonShownOnlyBeforeApplying(table: seq<Application>, jobId: string, userId: string,
                                      profile: Option<Profile>, job: Job)
    requires Applied(table, jobId, userId).Some?
    ensures ShowsApplyButton(profile, job, Applied(table, jobId, userId).value) <==>
      ShowsApplySection(profile, job)
      && forall a :: a in table ==> !(a.jobId == jobId && a.developerId == userId)
  {
    if Applied(table, jobId, userId) == Some(true) {
      assert Applied(table, jobId, userId) != Some(false);
    }
  }

  /** Once the first application is stored, the check hides the button that was offered before. */
  lemma ApplyingHidesButton(table: seq<Application>, jobId: string, userId: string,
                            resumeUrl: string, coverLetter: string, id: string, status: ApplicationStatus,
                            profile: Option<Profile>, job: Job)
    requires Applied(table, jobId, userId) == Some(false)
    ensures ShowsApplyButton(profile, job, Applied(table, jobId, userId).value) == ShowsApplySection(profile, job)
    ensures var after := table + [Stored(id, NewApplication(jobId, userId, resumeUrl, coverLetter), status)];
      Applied(after, jobId, userId).Some? && !ShowsApplyButton(profile, job, Applied(after, jobId, userId).value)
  {
    FirstApplicationIsFound(table, jobId, userId, resumeUrl, coverLetter, id, status);
  }

  class JobDetailPage {
    var job: Option<JobWithCompany>
    var hasApplied: bool
    var showApplyModal: bool
    var coverLetter: string
    var resumeUrl: string

    constructor ()
      ensures job.None? && !hasApplied && !showApplyModal && coverLetter == "" && resumeUrl == ""
    {
      job := None;
      hasApplied := false;
      showApplyModal := false;
      coverLetter := "";
      resumeUrl := "";
    }

    /** `fetchJob`: the job with that id, when exactly one row has it. */
    method FetchJob(jobId: string, table: Option<seq<JobWithCompany>>)
      modifies this`job
      ensures table.Some? && Single(Filter(table.value, (j: JobWithCompany) => j.job.id == jobId)).Some? ==>
        job == Single(Filter(table.value, (j: JobWithCompany) => j.job.id == jobId))
      ensures table.None? || Single(Filter(table.value, (j: JobWithCompany) => j.job.id == jobId)).None? ==>
        job == old(job)
      ensures job.Some? && job != old(job) ==> job.value.job.id == jobId
    {
      if table.Some? {
        var rows := Filter(table.value, (j: JobWithCompany) => j.job.id == jobId);
        var one := Single(rows);
        if one.Some? {
          assert one.value in rows;
          job := one;
        }
      }
    }

    /** `checkApplication`: nothing without a user or when the query fails. */
    method CheckApplication(user: Option<string>, jobId: string, table: Option<seq<Application>>)
      modifies this`hasApplied
      ensures user.Some? && table.Some? && Applied(table.value, jobId, user.value).Some? ==>
        hasApplied == Applied(table.value, jobId, user.value).value
      ensures user.None? || table.None? || Applied(table.value, jobId, user.value).None? ==>
        hasApplied == old(hasApplied)
    {
      if user.None? || table.None? {
        return;
      }
      var answer := Applied(table.value, jobId, user.value);
      if answer.Some? {
        hasApplied := answer.value;
      }
    }

    /** The load effect: the job always, the application check only for a signed-in developer. */
    method Load(user: Option<string>, profile: Option<Profile>, jobId: string,
                jobs: Option<seq<JobWithCompany>>, applications: Option<seq<Application>>)
      modifies this`job, this`hasApplied
      ensures jobs.Some? && Single(Filter(jobs.value, (j: JobWithCompany) => j.job.id == jobId)).Some? ==>
        job == Single(Filter(jobs.value, (j: JobWithCompany) => j.job.id == jobId))
      ensures jobs.None? || Single(Filter(jobs.value, (j: JobWithCompany) => j.job.id == jobId)).None? ==>
        job == old(job)
      ensures !(user.Some? && HasRole(profile, Developer)) ==> hasApplied == old(hasApplied)
      ensures user.Some? && HasRole(profile, Developer)
              && (applications.None? || Applied(applications.value, jobId, user.value).None?) ==>
        hasApplied == old(hasApplied)
      ensures user.Some? && HasRole(profile, Developer) && applications.Some?
              && Applied(applications.value, jobId, user.value).Some? ==>
        hasApplied == Applied(applications.value, jobId, user.value).value
    {
      FetchJob(jobId, jobs);
      if user.Some? && HasRole(profile, Developer) {
        CheckApplication(user, jobId, applications);
      }
    }

    /** The apply button's click handler: the button, and so the modal, exists only while it is offered. */
    method OpenApplyModal(profile: Option<Profile>)
      requires job.Some? && ShowsApplyButton(profile, job.value.job, hasApplied)
      modifies this`showApplyModal
      ensures showApplyModal
    {
      showApplyModal := true;
    }

    /**
     * `handleApply`: nothing without a user or a resume URL; otherwise one
     * insert, and on success the page records the application and clears the form.
     */
    method HandleApply(user: Option<string>, jobId: string, writeOk: bool) returns (e: Effects<ApplicationInsert>)
      modifies this`hasApplied, this`showApplyModal, this`coverLetter, this`resumeUrl
      ensures user.None? || old(resumeUrl) == "" ==>
        e == Effects(None, None, None)
        && hasApplied == old(hasApplied) && showApplyModal == old(showApplyModal)
        && coverLetter == old(coverLetter) && resumeUrl == old(resumeUrl)
      ensures user.Some? && old(resumeUrl) != "" ==>
        e.write == Some(NewApplication(jobId, user.value, old(resumeUrl), old(coverLetter)))
        && e.redirect.None?
      ensures user.Some? && old(resumeUrl) != "" && writeOk ==>
        e.alert.None? && hasApplied && !showApplyModal && coverLetter == "" && resumeUrl == ""
        && (job.Some? ==> forall profile :: !ShowsApplyButton(profile, job.value.job, hasApplied))
      ensures user.Some? && old(resumeUrl) != "" && !writeOk ==>
        e.alert == Some(ApplyFailedAlert)
        && hasApplied == old(hasApplied) && showApplyModal == old(showApplyModal)
        && coverLetter == old(coverLetter) && resumeUrl == old(resumeUrl)
    {
      if user.None? || resumeUrl == "" {
        return Effects(None, None, None);
      }
      var row := NewApplication(jobId, user.value, resumeUrl, coverLetter);
      if writeOk {
        hasApplied := true;
        showApplyModal := false;
        coverLetter := "";
        resumeUrl := "";
        e := Effects(Some(row), None, None);
      } else {
        e := Effects(Some(row), Some(ApplyFailedAlert), None);
      }
    }
  }
}
