/**
 * The job editing page: it loads one job, only for its owner, into the job
 * form plus a status select; saving sends the eight form fields as an update,
 * and deleting needs a confirmation.
 */
module EditJob {
  import opened Common
  import opened Database
  import opened Seqs
  import opened JobForm

  const UpdatedAlert := "Job updated successfully!"
  const UpdateFailedAlert := "Failed to update job"
  const DeletedAlert := "Job deleted successfully!"
  const DeleteFailedAlert := "Failed to delete job"

  /** The edit form: the job form and the status select. */
  datatype EditForm = EditForm(fields: Form, status: JobStatus)

  const Initial: EditForm := EditForm(Blank, Open)

  /** The form loaded from a job: its fields one for one, a null timezone shown as "". */
  function Load(j: Job): (f: EditForm)
    ensures f.fields.title == j.title && f.fields.description == j.description
    ensures f.fields.techStack == j.techStack && f.fields.salaryRange == j.salaryRange
    ensures f.fields.experienceLevel == j.experienceLevel && f.fields.employmentType == j.employmentType
    ensures f.status == j.status
    ensures j.timezone.Some? ==> f.fields.timezone == j.timezone.value
    ensures j.timezone.None? ==> f.fields.timezone == ""
  {
    EditForm(Form(j.title, j.description, j.techStack, j.experienceLevel, j.salaryRange,
                  j.employmentType, j.timezone.GetOr("")), j.status)
  }

  /** `update(formData)`: exactly the eight form columns, never the owner or the company. */
  function UpdateOf(f: EditForm): (u: JobUpdate)
    ensures u.title == Given(f.fields.title) && u.description == Given(f.fields.description)
    ensures u.techStack == Given(f.fields.techStack) && u.salaryRange == Given(f.fields.salaryRange)
    ensures u.experienceLevel == Given(f.fields.experienceLevel) && u.employmentType == Given(f.fields.employmentType)
    ensures u.timezone == Given(Some(f.fields.timezone)) && u.status == Given(f.status)
  {
    JobUpdate(Given(f.fields.title), Given(f.fields.description), Given(f.fields.techStack),
              Given(f.fields.experienceLevel), Given(f.fields.salaryRange),
              Given(f.fields.employmentType), Given(Some(f.fields.timezone)), Given(f.status))
  }

  /** Saving a form and loading the job again shows exactly the saved form; owner and company stay. */
  lemma SaveThenLoad(j: Job, f: EditForm)
    ensures Load(UpdateJob(j, UpdateOf(f))) == f
    ensures UpdateJob(j, UpdateOf(f)).employerId == j.employerId
    ensures UpdateJob(j, UpdateOf(f)).companyId == j.companyId
  {
  }

  /**
   * Saving the form as it was loaded writes the job back unchanged, except
   * that a null timezone is stored as "".
   */
  lemma LoadThenSave(j: Job)
    ensures UpdateJob(j, UpdateOf(Load(j))) == j.(timezone := Some(j.timezone.GetOr("")))
    ensures UpdateJob(j, UpdateOf(Load(j))) == j <==> j.timezone.Some?
  {
    if j.timezone.None? {
      assert UpdateJob(j, UpdateOf(Load(j))).timezone != j.timezone;
    }
  }

  /** The rows `eq('id', jobId)` selects. */
  function JobsWithId(table: seq<Job>, jobId: string): (r: seq<Job>)
    ensures forall j :: j in r <==> j in table && j.id == jobId
  {
    Filter(table, (j: Job) => j.id == jobId)
  }

  /** The job the page may load: the one row with that id, when the viewer owns it. */
  function Owned(table: seq<Job>, jobId: string, user: Option<string>): (r: Option<Job>)
    ensures r.Some? ==> r.value in table && r.value.id == jobId && user == Some(r.value.employerId)
  {
    var one := Single(JobsWithId(table, jobId));
    if one.Some? && user == Some(one.value.employerId) then
      assert one.value in JobsWithId(table, jobId);
      one
    else None
  }

  /** The update issued on save: the patch and the id it is applied to. */
  datatype JobWrite = UpdateRow(jobId: string, patch: JobUpdate) | DeleteRow(jobId: string)

  class EditJobPage {
    /** The `jobId` prop: the id in the route. */
    const jobId: string
    var job: Option<Job>
    var form: EditForm
    var techInput: string
    /** The signed-in user at the time `job` was loaded. */
    ghost var viewer: Option<string>

    /** A loaded job is the route's job and belongs to the user who loaded it. */
    ghost predicate Valid()
      reads this`job, this`viewer
    {
      job.Some? ==> job.value.id == jobId && viewer == Some(job.value.employerId)
    }

    constructor (jobId: string)
      ensures this.jobId == jobId && job.None? && form == Initial && techInput == ""
      ensures Valid()
    {
      this.jobId := jobId;
      job := None;
      form := Initial;
      techInput := "";
      viewer := None;
    }

    /**
     * `fetchJob`: the job and the form are set only when exactly one row has
     * the id and its owner is the viewer; a foreign job is refused with an alert.
     */
    method FetchJob(user: Option<string>, table: Option<seq<Job>>) returns (outcome: Fetched)
      requires Valid()
      modifies this`job, this`form, this`viewer
      ensures Valid()
      ensures outcome.Loaded? <==> table.Some? && Owned(table.value, jobId, user).Some?
      ensures outcome.Loaded? ==>
        job == Owned(table.value, jobId, user) && form == Load(job.value) && viewer == user
      ensures !outcome.Loaded? ==> job == old(job) && form == old(form) && viewer == old(viewer)
      ensures outcome.Unauthorized? <==> table.Some? && Single(JobsWithId(table.value, jobId)).Some?
                                         && user != Some(Single(JobsWithId(table.value, jobId)).value.employerId)
      ensures outcome.Unauthorized? ==> outcome == Unauthorized(UnauthorizedAlert, EmployerDashboardPath)
    {
      if table.None? {
        return QueryFailed;
      }
      var one := Single(JobsWithId(table.value, jobId));
      if one.None? {
        return QueryFailed;
      }
      if user != Some(one.value.employerId) {
        return Unauthorized(UnauthorizedAlert, EmployerDashboardPath);
      }
      assert one.value in JobsWithId(table.value, jobId);
      job := one;
      form := Load(one.value);
      viewer := user;
      outcome := Loaded;
    }

    method AddTechStack(input: string)
      modifies this`form, this`techInput
      ensures form == old(form).(fields := AddTech(old(form).fields, input)) && techInput == ""
    {
      form := form.(fields := AddTech(form.fields, input));
      techInput := "";
    }

    method RemoveTechStack(tag: string)
      modifies this`form
      ensures form == old(form).(fields := RemoveTech(old(form).fields, tag))
    {
      form := form.(fields := RemoveTech(form.fields, tag));
    }

    /** The status select: either status can be chosen, whatever the current one. */
    method SetStatus(status: JobStatus)
      modifies this`form
      ensures form == old(form).(status := status)
    {
      form := form.(status := status);
    }

    /**
     * `handleSubmit`: the form exists only once an owned job is loaded; no
     * update with an empty technology list, otherwise the form's eight fields
     * on the loaded job, which belongs to the user who loaded it.
     */
    method HandleSubmit(writeOk: bool) returns (e: Effects<JobWrite>)
      requires Valid() && job.Some?
      ensures e.write.Some? ==> e.write.value.jobId == job.value.id && viewer == Some(job.value.employerId)
      ensures e.write.Some? <==> form.fields.techStack != []
      ensures form.fields.techStack == [] ==> e == Refuse(NeedsTechAlert)
      ensures e.write.Some? ==>
        e == AfterWrite(UpdateRow(jobId, UpdateOf(form)), writeOk, UpdatedAlert, UpdateFailedAlert, EmployerDashboardPath)
    {
      if |form.fields.techStack| == 0 {
        return Refuse(NeedsTechAlert);
      }
      var w := UpdateRow(jobId, UpdateOf(form));
      if writeOk {
        e := Effects(Some(w), Some(UpdatedAlert), Some(EmployerDashboardPath));
      } else {
        e := Effects(Some(w), Some(UpdateFailedAlert), None);
      }
    }

    /**
     * `handleDelete`: the button exists only once an owned job is loaded;
     * nothing at all unless the user confirms, otherwise one delete of that job.
     */
    method HandleDelete(confirmed: bool, writeOk: bool) returns (e: Effects<JobWrite>)
      requires Valid() && job.Some?
      ensures e.write.Some? ==> e.write.value.jobId == job.value.id && viewer == Some(job.value.employerId)
      ensures !confirmed ==> e == Effects(None, None, None)
      ensures confirmed ==>
        e == AfterWrite(DeleteRow(jobId), writeOk, DeletedAlert, DeleteFailedAlert, EmployerDashboardPath)
    {
      if !confirmed {
        return Effects(None, None, None);
      }
      if writeOk {
        e := Effects(Some(DeleteRow(jobId)), Some(DeletedAlert), Some(EmployerDashboardPath));
      } else {
        e := Effects(Some(DeleteRow(jobId)), Some(DeleteFailedAlert), None);
      }
    }
  }
}
