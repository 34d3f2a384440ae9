/**
 * The public job listing: the open jobs, narrowed by a search term and three
 * filters, and (for developers) the set of bookmarked job ids.
 */
module Jobs {
  import opened Common
  import opened Database
  import opened Text
  import opened Seqs
  import JobCard

  /** The three filter selects; the empty string stands for "all". */
  datatype Filters = Filters(experienceLevel: string, employmentType: string, techStack: string)

  const NoFilters: Filters := Filters("", "", "")

  /** The listing query: only jobs whose status is Open. */
  function OpenJobs(table: seq<JobWithCompany>): (r: seq<JobWithCompany>)
    ensures forall j :: j in r <==> j in table && j.job.status == Open
  {
    Filter(table, (j: JobWithCompany) => j.job.status == Open)
  }

  /** The search box: an empty term, or a case-insensitive substring of title, company name or description. */
  predicate MatchesSearch(j: JobWithCompany, term: string) {
    term == ""
    || Includes(Lower(j.job.title), Lower(term))
    || Includes(Lower(j.company.companyName), Lower(term))
    || Includes(Lower(j.job.description), Lower(term))
  }

  predicate MatchesExperience(j: JobWithCompany, f: Filters) {
    f.experienceLevel == "" || ExperienceName(j.job.experienceLevel) == f.experienceLevel
  }

  predicate MatchesEmployment(j: JobWithCompany, f: Filters) {
    f.employmentType == "" || EmploymentName(j.job.employmentType) == f.employmentType
  }

  predicate MatchesTech(j: JobWithCompany, f: Filters) {
    f.techStack == "" || f.techStack in j.job.techStack
  }

  predicate Matches(j: JobWithCompany, term: string, f: Filters) {
    MatchesSearch(j, term) && MatchesExperience(j, f) && MatchesEmployment(j, f) && MatchesTech(j, f)
  }

  /** `filteredJobs`: the jobs that pass all four tests. */
  function FilteredJobs(jobs: seq<JobWithCompany>, term: string, f: Filters): (r: seq<JobWithCompany>)
    ensures forall j :: j in r <==> j in jobs && Matches(j, term, f)
  {
    Filter(jobs, (j: JobWithCompany) => Matches(j, term, f))
  }

  /** With no search term and no filter, every job is listed. */
  lemma NoFiltersListAll(jobs: seq<JobWithCompany>)
    ensures FilteredJobs(jobs, "", NoFilters) == jobs
  {
    FilterAll(jobs, (j: JobWithCompany) => Matches(j, "", NoFilters));
  }

  /** Filtering keeps the listing's order and every copy of each job it keeps. */
  lemma FilteredKeepsOrder(jobs: seq<JobWithCompany>, term: string, f: Filters)
    ensures IsSubsequence(FilteredJobs(jobs, term, f), jobs)
    ensures forall j :: multiset(FilteredJobs(jobs, term, f))[j] ==
                         (if Matches(j, term, f) then multiset(jobs)[j] else 0)
  {
    var p := (j: JobWithCompany) => Matches(j, term, f);
    FilterIsSubsequence(jobs, p);
    forall j ensures multiset(FilteredJobs(jobs, term, f))[j] == if p(j) then multiset(jobs)[j] else 0 {
      FilterMultiset(jobs, p, j);
    }
  }

  /** The empty-term shortcut is redundant: a job matches iff the lowered term occurs in one of the three lowered texts. */
  lemma SearchIsSubstring(j: JobWithCompany, term: string)
    ensures MatchesSearch(j, term) <==>
      Includes(Lower(j.job.title), Lower(term))
      || Includes(Lower(j.company.companyName), Lower(term))
      || Includes(Lower(j.job.description), Lower(term))
  {
    if term == "" {
      assert Lower(term) == "";
      assert Lower(term) <= Lower(j.job.title);
    }
  }

  /** A chosen experience (employment) filter admits exactly the jobs of the level (type) it names. */
  lemma SelectedFiltersAreExact(j: JobWithCompany, f: Filters)
    ensures f.experienceLevel != "" ==>
      (MatchesExperience(j, f) <==> ParseExperience(f.experienceLevel) == Some(j.job.experienceLevel))
    ensures f.employmentType != "" ==>
      (MatchesEmployment(j, f) <==> ParseEmployment(f.employmentType) == Some(j.job.employmentType))
  {
  }

  /** The set after `toggleBookmark` on `id`: only `id`'s membership flips. */
  function Toggled(s: set<string>, id: string): (r: set<string>)
    ensures id in r <==> id !in s
    ensures forall x :: x != id ==> (x in r <==> x in s)
  {
    if id in s then s - {id} else s + {id}
  }

  /** Toggling the same job twice gives back the original set. */
  lemma ToggleTwice(s: set<string>, id: string)
    ensures Toggled(Toggled(s, id), id) == s
  {
  }

  /** The ids of the jobs a developer has bookmarked (`select('job_id').eq('developer_id', ..)`). */
  function BookmarkedIds(table: seq<Bookmark>, developerId: string): (r: set<string>)
    ensures forall id :: id in r <==> exists b :: b in table && b.developerId == developerId && b.jobId == id
  {
    set b | b in table && b.developerId == developerId :: b.jobId
  }

  /** The write `toggleBookmark` sends. */
  datatype BookmarkWrite = NoWrite | DeleteBookmark(jobId: string, developerId: string) | InsertBookmark(row: BookmarkInsert)

  /** The state of the listing page: the loaded jobs and the bookmarked job ids. */
  class JobsPage {
    var jobs: seq<JobWithCompany>
    var bookmarks: set<string>

    /** Only open jobs are ever listed. */
    ghost predicate Valid()
      reads this
    {
      forall j :: j in jobs ==> j.job.status == Open
    }

    constructor ()
      ensures Valid() && jobs == [] && bookmarks == {}
    {
      jobs := [];
      bookmarks := {};
    }

    /** `fetchJobs`; `table` is what the jobs query sees, `None` when the query fails. */
    method FetchJobs(table: Option<seq<JobWithCompany>>)
      requires Valid()
      modifies this`jobs
      ensures Valid()
      ensures jobs == if table.Some? then OpenJobs(table.value) else old(jobs)
    {
      if table.Some? {
        jobs := OpenJobs(table.value);
      }
    }

    /** `fetchBookmarks`; nothing happens without a user or when the query fails. */
    method FetchBookmarks(user: Option<string>, table: Option<seq<Bookmark>>)
      modifies this`bookmarks
      ensures bookmarks == if user.Some? && table.Some? then BookmarkedIds(table.value, user.value) else old(bookmarks)
    {
      if user.None? {
        return;
      }
      if table.Some? {
        bookmarks := BookmarkedIds(table.value, user.value);
      }
    }

    /** The page's load effect: the jobs always, the bookmarks only for a developer. */
    method Load(user: Option<string>, profile: Option<Profile>,
                jobsTable: Option<seq<JobWithCompany>>, bookmarksTable: Option<seq<Bookmark>>)
      requires Valid()
      modifies this
      ensures Valid()
      ensures jobs == if jobsTable.Some? then OpenJobs(jobsTable.value) else old(jobs)
      ensures bookmarks == if HasRole(profile, Developer) && user.Some? && bookmarksTable.Some?
                           then BookmarkedIds(bookmarksTable.value, user.value) else old(bookmarks)
    {
      FetchJobs(jobsTable);
      if HasRole(profile, Developer) {
        FetchBookmarks(user, bookmarksTable);
      }
    }

    /**
     * `toggleBookmark`: for a signed-in developer, delete or insert the bookmark
     * row and flip the job's membership; the write's outcome is not consulted.
     */
    method ToggleBookmark(user: Option<string>, profile: Option<Profile>, jobId: string)
      returns (write: BookmarkWrite)
      modifies this`bookmarks
      ensures user.None? || !HasRole(profile, Developer) ==> write == NoWrite && bookmarks == old(bookmarks)
      ensures user.Some? && HasRole(profile, Developer) ==>
        bookmarks == Toggled(old(bookmarks), jobId)
        && write == (if jobId in old(bookmarks) then DeleteBookmark(jobId, user.value)
                     else InsertBookmark(BookmarkInsert(jobId, user.value)))
    {
      if user.None? || !HasRole(profile, Developer) {
        return NoWrite;
      }
      if jobId in bookmarks {
        write := DeleteBookmark(jobId, user.value);
        bookmarks := bookmarks - {jobId};
      } else {
        write := InsertBookmark(BookmarkInsert(jobId, user.value));
        bookmarks := bookmarks + {jobId};
      }
    }

    /** The cards the page renders for a search term and filters. */
    function Cards(term: string, f: Filters, profile: Option<Profile>): (cards: seq<JobCard.Props>)
      reads this
      requires Valid()
      ensures |cards| == |FilteredJobs(jobs, term, f)|
      ensures forall i :: 0 <= i < |cards| ==> cards[i].job == FilteredJobs(jobs, term, f)[i]
      ensures forall c :: c in cards ==> !JobCard.ShowsClosedBadge(c)
      ensures forall c :: c in cards ==> (JobCard.ShowsBookmarkButton(c) <==> HasRole(profile, Developer))
      ensures forall c :: c in cards ==> (c.isBookmarked <==> c.job.job.id in bookmarks)
    {
      var shown := FilteredJobs(jobs, term, f);
      var marked := bookmarks;
      seq(|shown|, i requires 0 <= i < |shown| =>
        JobCard.Props(shown[i], HasRole(profile, Developer), shown[i].job.id in marked))
    }
  }
}
