/**
 * The job form shared by the create and edit pages: seven editable fields,
 * with the technology list edited through the tag editor.
 */
module JobForm {
  import opened Database
  import opened Text
  import Tags

  datatype Form = Form(
    title: string, description: string, techStack: seq<string>,
    experienceLevel: ExperienceLevel, salaryRange: string,
    employmentType: EmploymentType, timezone: string)

  /** The initial form: empty texts, no technology, Mid level, Full-time. */
  const Blank: Form := Form("", "", [], Mid, "", FullTime, "")

  const NeedsTechAlert := "Please add at least one technology"

  /** `addTechStack`: the tag editor's add, applied to the form's technology list. */
  function AddTech(f: Form, input: string): (r: Form)
    ensures r.techStack == Tags.AddTag(f.techStack, input)
    ensures r.(techStack := f.techStack) == f
  {
    f.(techStack := Tags.AddTag(f.techStack, input))
  }

  /** `removeTechStack`: the tag editor's remove, applied to the form's technology list. */
  function RemoveTech(f: Form, tag: string): (r: Form)
    ensures r.techStack == Tags.RemoveTag(f.techStack, tag)
    ensures r.(techStack := f.techStack) == f
  {
    f.(techStack := Tags.RemoveTag(f.techStack, tag))
  }

  /** Removing a technology that was just added gives back the form it was added to. */
  lemma RemoveUndoesAddTech(f: Form, input: string)
    requires Trim(input) != [] && Trim(input) !in f.techStack
    ensures RemoveTech(AddTech(f, input), Trim(input)) == f
  {
    Tags.RemoveUndoesAdd(f.techStack, input);
  }
}
