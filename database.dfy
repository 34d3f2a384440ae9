/**
 * The five tables of the job board (profiles, companies, jobs, applications,
 * bookmarks): their rows, the objects accepted on insert and on update, and
 * the joined shapes the pages load. Timestamps (`created_at`, `updated_at`)
 * are not part of the model.
 */
module Database {
  import opened Common
  import opened Seqs

  // ---------------------------------------------------------------- enums

  datatype Role = Employer | Developer
  datatype ExperienceLevel = Junior | Mid | Senior
  datatype EmploymentType = FullTime | Contract | Internship
  datatype JobStatus = Open | Closed
  datatype ApplicationStatus = Pending | Accepted | Rejected

  /** The string each enum value is stored as. */
  function RoleName(r: Role): string {
    match r
    case Employer => "employer"
    case Developer => "developer"
  }

  function ExperienceName(e: ExperienceLevel): string {
    match e
    case Junior => "Junior"
    case Mid => "Mid"
    case Senior => "Senior"
  }

  function EmploymentName(e: EmploymentType): string {
    match e
    case FullTime => "Full-time"
    case Contract => "Contract"
    case Internship => "Internship"
  }

  function JobStatusName(s: JobStatus): string {
    match s
    case Open => "Open"
    case Closed => "Closed"
  }

  function ApplicationStatusName(s: ApplicationStatus): string {
    match s
    case Pending => "Pending"
    case Accepted => "Accepted"
    case Rejected => "Rejected"
  }

  /** A stored role string is exactly one of the two role names. */
  function ParseRole(s: string): (r: Option<Role>)
    ensures forall role :: r == Some(role) <==> RoleName(role) == s
  {
    if s == "employer" then Some(Employer)
    else if s == "developer" then Some(Developer)
    else None
  }

  function ParseExperience(s: string): (r: Option<ExperienceLevel>)
    ensures forall e :: r == Some(e) <==> ExperienceName(e) == s
  {
    if s == "Junior" then Some(Junior)
    else if s == "Mid" then Some(Mid)
    else if s == "Senior" then Some(Senior)
    else None
  }

  function ParseEmployment(s: string): (r: Option<EmploymentType>)
    ensures forall e :: r == Some(e) <==> EmploymentName(e) == s
  {
    if s == "Full-time" then Some(FullTime)
    else if s == "Contract" then Some(Contract)
    else if s == "Internship" then Some(Internship)
    else None
  }

  function ParseJobStatus(s: string): (r: Option<JobStatus>)
    ensures forall st :: r == Some(st) <==> JobStatusName(st) == s
  {
    if s == "Open" then Some(Open)
    else if s == "Closed" then Some(Closed)
    else None
  }

  function ParseApplicationStatus(s: string): (r: Option<ApplicationStatus>)
    ensures forall st :: r == Some(st) <==> ApplicationStatusName(st) == s
  {
    if s == "Pending" then Some(Pending)
    else if s == "Accepted" then Some(Accepted)
    else if s == "Rejected" then Some(Rejected)
    else None
  }

  // ----------------------------------------------------------------- rows

  /** `skills` is nullable; a job's `techStack` below is not. */
  datatype Profile = Profile(
    id: string, email: string, fullName: string, role: Role,
    bio: Option<string>, skills: Option<seq<string>>, portfolioUrl: Option<string>)

  datatype Company = Company(
    id: string, userId: string, companyName: string,
    logoUrl: Option<string>, website: Option<string>, description: Option<string>)

  datatype Job = Job(
    id: string, employerId: string, companyId: string, title: string, description: string,
    techStack: seq<string>, experienceLevel: ExperienceLevel, salaryRange: string,
    employmentType: EmploymentType, timezone: Option<string>, status: JobStatus)

  datatype Application = Application(
    id: string, jobId: string, developerId: string, resumeUrl: string,
    coverLetter: Option<string>, status: ApplicationStatus)

  datatype Bookmark = Bookmark(id: string, jobId: string, developerId: string)

  /** A job joined with its company (`select('*, companies(*)')`). */
  datatype JobWithCompany = JobWithCompany(job: Job, company: Company)

  /** An application joined with its job, that job's company, and the applicant's profile. */
  datatype ApplicationWithDetails = ApplicationWithDetails(
    app: Application, job: JobWithCompany, profile: Profile)

  // -------------------------------------------------------------- inserts

  datatype ProfileInsert = ProfileInsert(
    id: string, email: string, fullName: string, role: Role,
    bio: Field<Option<string>>, skills: Field<Option<seq<string>>>,
    portfolioUrl: Field<Option<string>>)

  datatype CompanyInsert = CompanyInsert(
    userId: string, companyName: string,
    logoUrl: Field<Option<string>>, website: Field<Option<string>>,
    description: Field<Option<string>>)

  /** `status` may be left out; the column default is not part of the model. */
  datatype JobInsert = JobInsert(
    employerId: string, companyId: string, title: string, description: string,
    techStack: seq<string>, experienceLevel: ExperienceLevel, salaryRange: string,
    employmentType: EmploymentType, timezone: Field<Option<string>>,
    status: Field<JobStatus>)

  datatype ApplicationInsert = ApplicationInsert(
    jobId: string, developerId: string, resumeUrl: string,
    coverLetter: Field<Option<string>>, status: Field<ApplicationStatus>)

  datatype BookmarkInsert = BookmarkInsert(jobId: string, developerId: string)

  // -------------------------------------------------------------- updates

  /** The only profile columns an update can name. */
  datatype ProfileUpdate = ProfileUpdate(
    fullName: Field<string>, bio: Field<Option<string>>,
    skills: Field<Option<seq<string>>>, portfolioUrl: Field<Option<string>>)

  datatype CompanyUpdate = CompanyUpdate(
    companyName: Field<string>, logoUrl: Field<Option<string>>,
    website: Field<Option<string>>, description: Field<Option<string>>)

  /** No `employerId` and no `companyId`: a job's owner and company are fixed. */
  datatype JobUpdate = JobUpdate(
    title: Field<string>, description: Field<string>, techStack: Field<seq<string>>,
    experienceLevel: Field<ExperienceLevel>, salaryRange: Field<string>,
    employmentType: Field<EmploymentType>, timezone: Field<Option<string>>,
    status: Field<JobStatus>)

  /** No `jobId` and no `developerId`. */
  datatype ApplicationUpdate = ApplicationUpdate(
    resumeUrl: Field<string>, coverLetter: Field<Option<string>>,
    status: Field<ApplicationStatus>)

  /** The bookmark update object has no keys at all. */
  datatype BookmarkUpdate = NoColumns

  /** The row an update object turns `p` into: identity, e-mail and role survive any update. */
  function UpdateProfile(p: Profile, u: ProfileUpdate): (r: Profile)
    ensures r.id == p.id && r.email == p.email && r.role == p.role
    ensures r.fullName == Patch(p.fullName, u.fullName) && r.bio == Patch(p.bio, u.bio)
    ensures r.skills == Patch(p.skills, u.skills)
    ensures r.portfolioUrl == Patch(p.portfolioUrl, u.portfolioUrl)
  {
    p.(fullName := Patch(p.fullName, u.fullName), bio := Patch(p.bio, u.bio),
       skills := Patch(p.skills, u.skills), portfolioUrl := Patch(p.portfolioUrl, u.portfolioUrl))
  }

  function UpdateCompany(c: Company, u: CompanyUpdate): (r: Company)
    ensures r.id == c.id && r.userId == c.userId
    ensures r.companyName == Patch(c.companyName, u.companyName)
    ensures r.logoUrl == Patch(c.logoUrl, u.logoUrl) && r.website == Patch(c.website, u.website)
    ensures r.description == Patch(c.description, u.description)
  {
    c.(companyName := Patch(c.companyName, u.companyName), logoUrl := Patch(c.logoUrl, u.logoUrl),
       website := Patch(c.website, u.website), description := Patch(c.description, u.description))
  }

  /** Any update keeps the job's id, owner and company. */
  function UpdateJob(j: Job, u: JobUpdate): (r: Job)
    ensures r.id == j.id && r.employerId == j.employerId && r.companyId == j.companyId
    ensures r.title == Patch(j.title, u.title) && r.description == Patch(j.description, u.description)
    ensures r.techStack == Patch(j.techStack, u.techStack)
    ensures r.experienceLevel == Patch(j.experienceLevel, u.experienceLevel)
    ensures r.salaryRange == Patch(j.salaryRange, u.salaryRange)
    ensures r.employmentType == Patch(j.employmentType, u.employmentType)
    ensures r.timezone == Patch(j.timezone, u.timezone) && r.status == Patch(j.status, u.status)
  {
    j.(title := Patch(j.title, u.title), description := Patch(j.description, u.description),
       techStack := Patch(j.techStack, u.techStack),
       experienceLevel := Patch(j.experienceLevel, u.experienceLevel),
       salaryRange := Patch(j.salaryRange, u.salaryRange),
       employmentType := Patch(j.employmentType, u.employmentType),
       timezone := Patch(j.timezone, u.timezone), status := Patch(j.status, u.status))
  }

  /** Any update keeps the application's id, job and applicant. */
  function UpdateApplication(a: Application, u: ApplicationUpdate): (r: Application)
    ensures r.id == a.id && r.jobId == a.jobId && r.developerId == a.developerId
    ensures r.resumeUrl == Patch(a.resumeUrl, u.resumeUrl)
    ensures r.coverLetter == Patch(a.coverLetter, u.coverLetter)
    ensures r.status == Patch(a.status, u.status)
  {
    a.(resumeUrl := Patch(a.resumeUrl, u.resumeUrl), coverLetter := Patch(a.coverLetter, u.coverLetter),
       status := Patch(a.status, u.status))
  }

  /** A bookmark can only be inserted or deleted: the empty update leaves it as it is. */
  function UpdateBookmark(b: Bookmark, u: BookmarkUpdate): (r: Bookmark)
    ensures r == b
  {
    b
  }

  // ----------------------------------------------- histories of updates

  /** The profile after a history of updates, oldest first. */
  function UpdateProfileAll(p: Profile, us: seq<ProfileUpdate>): (r: Profile)
    ensures r.id == p.id && r.email == p.email && r.role == p.role
    decreases |us|
  {
    if us == [] then p else UpdateProfileAll(UpdateProfile(p, us[0]), us[1..])
  }

  function UpdateJobAll(j: Job, us: seq<JobUpdate>): (r: Job)
    ensures r.id == j.id && r.employerId == j.employerId && r.companyId == j.companyId
    decreases |us|
  {
    if us == [] then j else UpdateJobAll(UpdateJob(j, us[0]), us[1..])
  }

  function UpdateApplicationAll(a: Application, us: seq<ApplicationUpdate>): (r: Application)
    ensures r.id == a.id && r.jobId == a.jobId && r.developerId == a.developerId
    decreases |us|
  {
    if us == [] then a else UpdateApplicationAll(UpdateApplication(a, us[0]), us[1..])
  }

  /** An employer's company: `eq('user_id', ..).maybeSingle()` on the companies table. */
  function CompanyOf(table: seq<Company>, userId: string): (r: Option<Option<Company>>)
    ensures r.Some? && r.value.Some? ==> r.value.value in table && r.value.value.userId == userId
    ensures r == Some(None) <==> forall c :: c in table ==> c.userId != userId
  {
    var mine := Filter(table, (c: Company) => c.userId == userId);
    assert mine != [] ==> mine[0] in mine;
    MaybeSingle(mine)
  }

  /** `profile?.role === r`, for a profile that may not be loaded. */
  predicate HasRole(profile: Option<Profile>, r: Role) {
    profile.Some? && profile.value.role == r
  }
}
