/**
 * The developer's own profile page: the form is filled from the signed-in
 * profile, skills are edited with the tag editor, and saving sends a patch in
 * which empty values become null.
 */
module DeveloperProfile {
  import opened Common
  import opened Database
  import Tags

  const SavedAlert := "Profile updated successfully!"
  const SaveFailedAlert := "Failed to update profile"

  datatype ProfileForm = ProfileForm(fullName: string, bio: string, skills: seq<string>, portfolioUrl: string)

  const Blank: ProfileForm := ProfileForm("", "", [], "")

  /** The form filled from a profile: null bio and portfolio read as "", null skills as []. */
  function FormOf(p: Profile): (f: ProfileForm)
    ensures f.fullName == p.fullName
    ensures f.bio == (if p.bio.Some? then p.bio.value else "")
    ensures f.skills == (if p.skills.Some? then p.skills.value else [])
    ensures f.portfolioUrl == (if p.portfolioUrl.Some? then p.portfolioUrl.value else "")
  {
    ProfileForm(p.fullName, p.bio.GetOr(""), p.skills.GetOr([]), p.portfolioUrl.GetOr(""))
  }

  /** The update sent on save: an empty bio, skill list or portfolio becomes null. */
  function PatchOf(f: ProfileForm): (u: ProfileUpdate)
    ensures u.fullName == Given(f.fullName)
    ensures u.bio == Given(if f.bio == "" then None else Some(f.bio))
    ensures u.skills == Given(if f.skills == [] then None else Some(f.skills))
    ensures u.portfolioUrl == Given(if f.portfolioUrl == "" then None else Some(f.portfolioUrl))
  {
    ProfileUpdate(Given(f.fullName), Given(OrNull(f.bio)),
                  Given(if |f.skills| > 0 then Some(f.skills) else None), Given(OrNull(f.portfolioUrl)))
  }

  /** Saving a form and reading the profile back shows exactly the saved form. */
  lemma SaveThenLoad(p: Profile, f: ProfileForm)
    ensures FormOf(UpdateProfile(p, PatchOf(f))) == f
  {
    OrNullRoundTrip(f.bio);
    OrNullRoundTrip(f.portfolioUrl);
  }

  /**
   * Saving the form as it was filled writes the profile back unchanged exactly
   * when bio and portfolio are null or non-empty and skills are null or non-empty.
   */
  lemma LoadThenSave(p: Profile)
    ensures UpdateProfile(p, PatchOf(FormOf(p))) == p <==>
      (p.bio.None? || p.bio.value != "")
      && (p.skills.None? || p.skills.value != [])
      && (p.portfolioUrl.None? || p.portfolioUrl.value != "")
  {
    var q := UpdateProfile(p, PatchOf(FormOf(p)));
    if p.bio.Some? && p.bio.value == "" {
      assert q.bio != p.bio;
    }
    if p.skills.Some? && p.skills.value == [] {
      assert q.skills != p.skills;
    }
    if p.portfolioUrl.Some? && p.portfolioUrl.value == "" {
      assert q.portfolioUrl != p.portfolioUrl;
    }
  }

  /** The update `handleSubmit` issues: the patch and the profile id it targets. */
  datatype ProfileWrite = UpdateRow(id: string, patch: ProfileUpdate)

  class DeveloperProfilePage {
    var form: ProfileForm
    var skillInput: string

    constructor ()
      ensures form == Blank && skillInput == ""
    {
      form := Blank;
      skillInput := "";
    }

    /** The effect on `profile`: the form is refilled whenever a profile is present. */
    method LoadProfile(profile: Option<Profile>)
      modifies this`form
      ensures form == if profile.Some? then FormOf(profile.value) else old(form)
    {
      if profile.Some? {
        form := FormOf(profile.value);
      }
    }

    method AddSkill(input: string)
      modifies this`form, this`skillInput
      ensures form == old(form).(skills := Tags.AddTag(old(form).skills, input)) && skillInput == ""
    {
      form := form.(skills := Tags.AddTag(form.skills, input));
      skillInput := "";
    }

    method RemoveSkill(skill: string)
      modifies this`form
      ensures form == old(form).(skills := Tags.RemoveTag(old(form).skills, skill))
    {
      form := form.(skills := Tags.RemoveTag(form.skills, skill));
    }

    /**
     * `handleSubmit`: nothing without a user; otherwise one update of the
     * caller's own row, which cannot name the role or the e-mail.
     */
    method HandleSubmit(user: Option<string>, writeOk: bool) returns (e: Effects<ProfileWrite>)
      ensures user.None? ==> e == Effects(None, None, None)
      ensures user.Some? ==>
        e == AfterWrite(UpdateRow(user.value, PatchOf(form)), writeOk, SavedAlert, SaveFailedAlert, DeveloperDashboardPath)
    {
      if user.None? {
        return Effects(None, None, None);
      }
      var w := UpdateRow(user.value, PatchOf(form));
      if writeOk {
        e := Effects(Some(w), Some(SavedAlert), Some(DeveloperDashboardPath));
      } else {
        e := Effects(Some(w), Some(SaveFailedAlert), None);
      }
    }
  }
}
