/**
 * The developer's dashboard: the developer's applications and bookmarked
 * jobs, four totals, and the five most recent of each list.
 */
module DeveloperDashboard {
  import opened Common
  import opened Database
  import opened Seqs

  /** A bookmark row joined with its job and that job's company. */
  datatype BookmarkWithJob = BookmarkWithJob(bookmark: Bookmark, job: JobWithCompany)

  /** At most this many entries of each list are shown. */
  const RecentCount: nat := 5

  /** `eq('developer_id', userId)` on the applications. */
  function MyApplications(table: seq<ApplicationWithDetails>, userId: string): (r: seq<ApplicationWithDetails>)
    ensures forall a :: a in r <==> a in table && a.app.developerId == userId
  {
    Filter(table, (a: ApplicationWithDetails) => a.app.developerId == userId)
  }

  /** `eq('developer_id', userId)` on the bookmarks. */
  function MyBookmarks(table: seq<BookmarkWithJob>, userId: string): (r: seq<BookmarkWithJob>)
    ensures forall b :: b in r <==> b in table && b.bookmark.developerId == userId
  {
    Filter(table, (b: BookmarkWithJob) => b.bookmark.developerId == userId)
  }

  /** `map((b) => b.jobs)`: one job per bookmark row, in the rows' order. */
  function JobsOf(rows: seq<BookmarkWithJob>): (r: seq<JobWithCompany>)
    ensures |r| == |rows|
    ensures forall i :: 0 <= i < |rows| ==> r[i] == rows[i].job
  {
    seq(|rows|, i requires 0 <= i < |rows| => rows[i].job)
  }

  datatype Stats = Stats(totalApplications: nat, pending: nat, accepted: nat, bookmarks: nat)

  /** The test `a.status === status`. */
  function HasStatus(status: ApplicationStatus): ApplicationWithDetails -> bool {
    (a: ApplicationWithDetails) => a.app.status == status
  }

  /** Counting one status counts the positions that hold it. */
  lemma StatusCount(applications: seq<ApplicationWithDetails>, status: ApplicationStatus)
    ensures Count(applications, HasStatus(status))
         == |set i | 0 <= i < |applications| && applications[i].app.status == status|
  {
    CountIsPassingIndices(applications, HasStatus(status));
    assert PassingIndices(applications, HasStatus(status))
        == set i | 0 <= i < |applications| && applications[i].app.status == status;
  }

  /** `stats`: the pending and accepted applications are disjoint parts of all of them. */
  function StatsOf(applications: seq<ApplicationWithDetails>, bookmarkedJobs: seq<JobWithCompany>): (s: Stats)
    ensures s.totalApplications == |applications| && s.bookmarks == |bookmarkedJobs|
    ensures s.pending == |set i | 0 <= i < |applications| && applications[i].app.status == Pending|
    ensures s.accepted == |set i | 0 <= i < |applications| && applications[i].app.status == Accepted|
    ensures s.pending + s.accepted
            + |set i | 0 <= i < |applications| && applications[i].app.status == Rejected| == s.totalApplications
    ensures s.pending == 0 <==> forall a :: a in applications ==> a.app.status != Pending
    ensures s.accepted == 0 <==> forall a :: a in applications ==> a.app.status != Accepted
  {
    StatusCount(applications, Pending);
    StatusCount(applications, Accepted);
    StatusCount(applications, Rejected);
    CountPartition3(applications, HasStatus(Pending), HasStatus(Accepted), HasStatus(Rejected));
    Stats(|applications|, Count(applications, HasStatus(Pending)), Count(applications, HasStatus(Accepted)),
          |bookmarkedJobs|)
  }

  /** `slice(0, 5)`: the first entries of a list, at most five. */
  function Recent<T>(s: seq<T>): (r: seq<T>)
    ensures |r| == Min(RecentCount, |s|)
    ensures r <= s
  {
    Take(s, RecentCount)
  }

  class DeveloperDashboardPage {
    var applications: seq<ApplicationWithDetails>
    var bookmarkedJobs: seq<JobWithCompany>

    constructor ()
      ensures applications == [] && bookmarkedJobs == []
    {
      applications := [];
      bookmarkedJobs := [];
    }

    /**
     * `fetchData`: nothing without a user; when either query fails nothing is
     * stored; otherwise the caller's applications and bookmarked jobs.
     */
    method FetchData(user: Option<string>, applicationsTable: Option<seq<ApplicationWithDetails>>,
                     bookmarksTable: Option<seq<BookmarkWithJob>>)
      modifies this`applications, this`bookmarkedJobs
      ensures user.Some? && applicationsTable.Some? && bookmarksTable.Some? ==>
        applications == MyApplications(applicationsTable.value, user.value)
        && bookmarkedJobs == JobsOf(MyBookmarks(bookmarksTable.value, user.value))
      ensures !(user.Some? && applicationsTable.Some? && bookmarksTable.Some?) ==>
        applications == old(applications) && bookmarkedJobs == old(bookmarkedJobs)
    {
      if user.None? {
        return;
      }
      if applicationsTable.None? || bookmarksTable.None? {
        return;
      }
      applications := MyApplications(applicationsTable.value, user.value);
      bookmarkedJobs := JobsOf(MyBookmarks(bookmarksTable.value, user.value));
    }
  }

  /** After a load, every application shown is the developer's own, and there is one job per bookmark. */
  lemma LoadedDataIsOwn(user: string, applicationsTable: seq<ApplicationWithDetails>, bookmarksTable: seq<BookmarkWithJob>)
    ensures forall a :: a in Recent(MyApplications(applicationsTable, user)) ==> a.app.developerId == user
    ensures StatsOf(MyApplications(applicationsTable, user), JobsOf(MyBookmarks(bookmarksTable, user))).bookmarks
            == |MyBookmarks(bookmarksTable, user)|
  {
    var mine := MyApplications(applicationsTable, user);
    forall a | a in Recent(mine) ensures a.app.developerId == user {
      var i :| 0 <= i < |Recent(mine)| && Recent(mine)[i] == a;
      assert mine[i] in mine;
    }
  }
}
