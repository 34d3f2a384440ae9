/**
 * The job posting page: it loads the employer's company, edits a blank job
 * form, and on submit inserts one job owned by the employer and their company.
 */
module CreateJob {
  import opened Common
  import opened Database
  import opened Seqs
  import opened JobForm

  const NoCompanyAlert := "Please create a company profile first"
  const PostedAlert := "Job posted successfully!"
  const FailedAlert := "Failed to create job"

  /** The inserted row: owner and company from the caller, the form fields verbatim, no status. */
  function NewJob(userId: string, company: Company, f: Form): (r: JobInsert)
    ensures r.employerId == userId && r.companyId == company.id
    ensures r.status.Omitted?
  {
    JobInsert(userId, company.id, f.title, f.description, f.techStack, f.experienceLevel,
              f.salaryRange, f.employmentType, Given(Some(f.timezone)), Omitted)
  }

  /** The form an inserted row was built from (an omitted or null timezone reads as ""). */
  function FormOf(r: JobInsert): Form {
    var tz := if r.timezone.Given? then r.timezone.value.GetOr("") else "";
    Form(r.title, r.description, r.techStack, r.experienceLevel, r.salaryRange, r.employmentType, tz)
  }

  /** The inserted row carries every form field unchanged: the form can be read back from it. */
  lemma NewJobKeepsForm(userId: string, company: Company, f: Form)
    ensures FormOf(NewJob(userId, company, f)) == f
  {
  }

  /**
   * `handleSubmit` as a decision: a missing user or company is reported before
   * an empty technology list, and only a form with technologies is inserted.
   */
  function Submit(user: Option<string>, company: Option<Company>, f: Form, writeOk: bool): (e: Effects<JobInsert>)
    ensures e.write.Some? <==> user.Some? && company.Some? && f.techStack != []
    ensures user.None? || company.None? ==> e == Refuse(NoCompanyAlert)
    ensures user.Some? && company.Some? && f.techStack == [] ==> e == Refuse(NeedsTechAlert)
    ensures e.write.Some? ==>
      e.write.value == NewJob(user.value, company.value, f) && e.write.value.techStack != []
      && e.alert == Some(if writeOk then PostedAlert else FailedAlert)
      && (e.redirect.Some? <==> writeOk) && (writeOk ==> e.redirect == Some(EmployerDashboardPath))
  {
    if user.None? || company.None? then Refuse(NoCompanyAlert)
    else if f.techStack == [] then Refuse(NeedsTechAlert)
    else AfterWrite(NewJob(user.value, company.value, f), writeOk, PostedAlert, FailedAlert, EmployerDashboardPath)
  }

  /** The page state: the employer's company (if any), the form, and the technology picker. */
  class CreateJobPage {
    var company: Option<Company>
    var form: Form
    var techInput: string

    constructor ()
      ensures company.None? && form == Blank && techInput == ""
    {
      company := None;
      form := Blank;
      techInput := "";
    }

    /**
     * `fetchCompany`: nothing without a user; otherwise the caller's company,
     * or none, and nothing changes when the query fails or matches several rows.
     */
    method FetchCompany(user: Option<string>, table: Option<seq<Company>>)
      modifies this`company
      ensures user.None? || table.None? ==> company == old(company)
      ensures user.Some? && table.Some? ==>
        company == CompanyOf(table.value, user.value).GetOr(old(company))
    {
      if user.None? {
        return;
      }
      if table.Some? {
        var found := CompanyOf(table.value, user.value);
        if found.Some? {
          company := found.value;
        }
      }
    }

    /** Picking a technology adds it (trimmed, once) and clears the picker. */
    method AddTechStack(input: string)
      modifies this`form, this`techInput
      ensures form == AddTech(old(form), input) && techInput == ""
    {
      form := AddTech(form, input);
      techInput := "";
    }

    method RemoveTechStack(tag: string)
      modifies this`form
      ensures form == RemoveTech(old(form), tag)
    {
      form := RemoveTech(form, tag);
    }

    /** `handleSubmit`: the guards in their order, then the insert. */
    method HandleSubmit(user: Option<string>, writeOk: bool) returns (e: Effects<JobInsert>)
      ensures e == Submit(user, company, form, writeOk)
    {
      if user.None? || company.None? {
        return Refuse(NoCompanyAlert);
      }
      if |form.techStack| == 0 {
        return Refuse(NeedsTechAlert);
      }
      var row := NewJob(user.value, company.value, form);
      if writeOk {
        e := Effects(Some(row), Some(PostedAlert), Some(EmployerDashboardPath));
      } else {
        e := Effects(Some(row), Some(FailedAlert), None);
      }
    }
  }
}
