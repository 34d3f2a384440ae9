/**
 * The employer's company page: the form shows the employer's company, and
 * saving updates that company or, when there is none yet, creates it.
 */
module CompanyProfile {
  import opened Common
  import opened Database

  const UpdatedAlert := "Company profile updated successfully!"
  const CreatedAlert := "Company profile created successfully!"
  const SaveFailedAlert := "Failed to save company profile"

  datatype CompanyForm = CompanyForm(companyName: string, logoUrl: string, website: string, description: string)

  const Blank: CompanyForm := CompanyForm("", "", "", "")

  /** The form filled from a company: null logo, website and description read as "". */
  function FormOf(c: Company): (f: CompanyForm)
    ensures f.companyName == c.companyName
    ensures f.logoUrl == (if c.logoUrl.Some? then c.logoUrl.value else "")
    ensures f.website == (if c.website.Some? then c.website.value else "")
    ensures f.description == (if c.description.Some? then c.description.value else "")
  {
    CompanyForm(c.companyName, c.logoUrl.GetOr(""), c.website.GetOr(""), c.description.GetOr(""))
  }

  /** `update(formData)`: the four columns, written as they are ("" stays ""). */
  function UpdateOf(f: CompanyForm): (u: CompanyUpdate)
    ensures u.logoUrl == Given(Some(f.logoUrl)) && u.website == Given(Some(f.website))
    ensures u.description == Given(Some(f.description)) && u.companyName == Given(f.companyName)
  {
    CompanyUpdate(Given(f.companyName), Given(Some(f.logoUrl)), Given(Some(f.website)), Given(Some(f.description)))
  }

  /** `insert({ user_id, ...formData })`: the caller as owner and the four columns as they are. */
  function InsertOf(userId: string, f: CompanyForm): (r: CompanyInsert)
    ensures r.userId == userId && r.companyName == f.companyName
    ensures r.logoUrl == Given(Some(f.logoUrl)) && r.website == Given(Some(f.website))
    ensures r.description == Given(Some(f.description))
  {
    CompanyInsert(userId, f.companyName, Given(Some(f.logoUrl)), Given(Some(f.website)), Given(Some(f.description)))
  }

  /** Saving a form and loading the company again shows the saved form; id and owner stay. */
  lemma SaveThenLoad(c: Company, f: CompanyForm)
    ensures FormOf(UpdateCompany(c, UpdateOf(f))) == f
    ensures UpdateCompany(c, UpdateOf(f)).userId == c.userId
  {
  }

  /**
   * Saving the form as it was loaded writes the company back unchanged exactly
   * when none of its optional columns is null: a null is stored back as "".
   */
  lemma LoadThenSave(c: Company)
    ensures UpdateCompany(c, UpdateOf(FormOf(c))) == c <==>
      c.logoUrl.Some? && c.website.Some? && c.description.Some?
  {
    var d := UpdateCompany(c, UpdateOf(FormOf(c)));
    if c.logoUrl.None? {
      assert d.logoUrl != c.logoUrl;
    }
    if c.website.None? {
      assert d.website != c.website;
    }
    if c.description.None? {
      assert d.description != c.description;
    }
  }

  /** The write `handleSubmit` issues. */
  datatype CompanyWrite = UpdateRow(id: string, patch: CompanyUpdate) | InsertRow(row: CompanyInsert)

  class CompanyProfilePage {
    var company: Option<Company>
    var form: CompanyForm

    constructor ()
      ensures company.None? && form == Blank
    {
      company := None;
      form := Blank;
    }

    /**
     * `fetchCompany`: when the caller has a company it is stored and shown in
     * the form; no company, a failed query or several rows change nothing.
     */
    method FetchCompany(user: Option<string>, table: Option<seq<Company>>)
      modifies this`company, this`form
      ensures user.Some? && table.Some? && CompanyOf(table.value, user.value).Some?
              && CompanyOf(table.value, user.value).value.Some? ==>
        company == CompanyOf(table.value, user.value).value && form == FormOf(company.value)
      ensures !(user.Some? && table.Some? && CompanyOf(table.value, user.value).Some?
                && CompanyOf(table.value, user.value).value.Some?) ==>
        company == old(company) && form == old(form)
    {
      if user.None? || table.None? {
        return;
      }
      var found := CompanyOf(table.value, user.value);
      if found.Some? && found.value.Some? {
        company := found.value;
        form := FormOf(found.value.value);
      }
    }

    /**
     * `handleSubmit`: nothing without a user; with a loaded company an update
     * of that row and never an insert, otherwise one insert owned by the
     * caller; after a successful write the company is fetched again from `after`.
     */
    method HandleSubmit(user: Option<string>, writeOk: bool, after: Option<seq<Company>>)
      returns (e: Effects<CompanyWrite>)
      modifies this`company, this`form
      ensures user.None? ==> e == Effects(None, None, None) && company == old(company) && form == old(form)
      ensures user.Some? && old(company).Some? ==>
        e.write == Some(UpdateRow(old(company).value.id, UpdateOf(old(form))))
        && e.alert == Some(if writeOk then UpdatedAlert else SaveFailedAlert)
      ensures user.Some? && old(company).None? ==>
        e.write == Some(InsertRow(InsertOf(user.value, old(form))))
        && e.alert == Some(if writeOk then CreatedAlert else SaveFailedAlert)
      ensures e.redirect.None?
      ensures !writeOk ==> company == old(company) && form == old(form)
      ensures user.Some? && writeOk && after.Some? && CompanyOf(after.value, user.value).Some?
              && CompanyOf(after.value, user.value).value.Some? ==>
        company == CompanyOf(after.value, user.value).value && form == FormOf(company.value)
      ensures user.Some? && writeOk && !(after.Some? && CompanyOf(after.value, user.value).Some?
                                         && CompanyOf(after.value, user.value).value.Some?) ==>
        company == old(company) && form == old(form)
    {
      if user.None? {
        return Effects(None, None, None);
      }
      var w;
      if company.Some? {
        w := UpdateRow(company.value.id, UpdateOf(form));
        e := Effects(Some(w), Some(if writeOk then UpdatedAlert else SaveFailedAlert), None);
      } else {
        w := InsertRow(InsertOf(user.value, form));
        e := Effects(Some(w), Some(if writeOk then CreatedAlert else SaveFailedAlert), None);
      }
      if writeOk {
        FetchCompany(user, after);
      }
    }
  }
}
