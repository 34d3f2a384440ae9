/**
 * The employer's dashboard: the employer's own jobs, each annotated with its
 * number of applications, and three totals over them.
 */
module EmployerDashboard {
  import opened Common
  import opened Database
  import opened Seqs

  /** A job with its `application_count`. */
  datatype JobWithCount = JobWithCount(job: Job, applicationCount: nat)

  /** `eq('employer_id', userId)` on the jobs table. */
  function OwnJobs(table: seq<Job>, userId: string): (r: seq<Job>)
    ensures forall j :: j in r <==> j in table && j.employerId == userId
  {
    Filter(table, (j: Job) => j.employerId == userId)
  }

  /**
   * The `Promise.all` map: each job keeps its place and its fields and gets
   * the count the count query returned for it, 0 when that count is null.
   */
  function Annotate(jobs: seq<Job>, countOf: string -> Option<nat>): (r: seq<JobWithCount>)
    ensures |r| == |jobs|
    ensures forall i :: 0 <= i < |jobs| ==>
      r[i].job == jobs[i] && r[i].applicationCount == countOf(jobs[i].id).GetOr(0)
  {
    seq(|jobs|, i requires 0 <= i < |jobs| => JobWithCount(jobs[i], countOf(jobs[i].id).GetOr(0)))
  }

  /** The counts added up from the right: the meaning of the total. */
  function Sum(jobs: seq<JobWithCount>): nat
    decreases |jobs|
  {
    if jobs == [] then 0 else jobs[0].applicationCount + Sum(jobs[1..])
  }

  /** `reduce((sum, j) => sum + j.application_count, acc)`: a left fold. */
  function ReduceFrom(jobs: seq<JobWithCount>, acc: nat): nat
    decreases |jobs|
  {
    if jobs == [] then acc else ReduceFrom(jobs[1..], acc + jobs[0].applicationCount)
  }

  /** The left fold from `acc` is `acc` plus the sum. */
  lemma {:induction false} ReduceIsSum(jobs: seq<JobWithCount>, acc: nat)
    ensures ReduceFrom(jobs, acc) == acc + Sum(jobs)
    decreases |jobs|
  {
    if jobs != [] {
      ReduceIsSum(jobs[1..], acc + jobs[0].applicationCount);
    }
  }

  datatype Stats = Stats(totalJobs: nat, openJobs: nat, totalApplications: nat)

  /** `stats`: how many jobs, how many of them open, and all their applications. */
  function StatsOf(jobs: seq<JobWithCount>): (s: Stats)
    ensures s.totalJobs == |jobs|
    ensures s.openJobs == |set i | 0 <= i < |jobs| && jobs[i].job.status == Open|
    ensures s.openJobs + |set i | 0 <= i < |jobs| && jobs[i].job.status == Closed| == s.totalJobs
    ensures s.openJobs == 0 <==> forall j :: j in jobs ==> j.job.status != Open
    ensures s.totalApplications == Sum(jobs)
  {
    var isOpen := (j: JobWithCount) => j.job.status == Open;
    var isClosed := (j: JobWithCount) => j.job.status == Closed;
    ReduceIsSum(jobs, 0);
    CountIsPassingIndices(jobs, isOpen);
    CountIsPassingIndices(jobs, isClosed);
    CountPartition(jobs, isOpen, isClosed);
    assert PassingIndices(jobs, isOpen) == set i | 0 <= i < |jobs| && jobs[i].job.status == Open;
    assert PassingIndices(jobs, isClosed) == set i | 0 <= i < |jobs| && jobs[i].job.status == Closed;
    Stats(|jobs|, Count(jobs, isOpen), ReduceFrom(jobs, 0))
  }

  // ------------------------------------------ what the counts add up to

  /** How many applications are to one of the jobs in `ids` (the count query, for one id). */
  function ApplicationsTo(apps: seq<Application>, ids: set<string>): (n: nat)
    ensures n <= |apps|
    decreases |apps|
  {
    if apps == [] then 0
    else (if apps[0].jobId in ids then 1 else 0) + ApplicationsTo(apps[1..], ids)
  }

  /** Counting for one more job, not already counted, adds that job's applications. */
  lemma {:induction false} ApplicationsToSplit(apps: seq<Application>, id: string, rest: set<string>)
    requires id !in rest
    ensures ApplicationsTo(apps, {id} + rest) == ApplicationsTo(apps, {id}) + ApplicationsTo(apps, rest)
    decreases |apps|
  {
    if apps != [] {
      ApplicationsToSplit(apps[1..], id, rest);
    }
  }

  function JobIds(jobs: seq<Job>): (ids: set<string>)
    ensures forall id :: id in ids <==> exists j :: j in jobs && j.id == id
  {
    set j | j in jobs :: j.id
  }

  /** Job ids are the table's primary key. */
  predicate UniqueJobIds(jobs: seq<Job>) {
    forall i, k :: 0 <= i < k < |jobs| ==> jobs[i].id != jobs[k].id
  }

  /**
   * When every count query answers, the total is the number of applications
   * to the employer's jobs, each counted once.
   */
  lemma {:induction false} TotalCountsEachApplicationOnce(jobs: seq<Job>, apps: seq<Application>,
                                                          countOf: string -> Option<nat>)
    requires UniqueJobIds(jobs)
    requires forall j :: j in jobs ==> countOf(j.id) == Some(ApplicationsTo(apps, {j.id}))
    ensures Sum(Annotate(jobs, countOf)) == ApplicationsTo(apps, JobIds(jobs))
    decreases |jobs|
  {
    if jobs == [] {
      assert JobIds(jobs) == {};
      ApplicationsToNone(apps);
    } else {
      var rest := jobs[1..];
      assert Annotate(jobs, countOf)[1..] == Annotate(rest, countOf);
      assert UniqueJobIds(rest) by {
        forall i, k | 0 <= i < k < |rest| ensures rest[i].id != rest[k].id {
          assert rest[i] == jobs[i + 1] && rest[k] == jobs[k + 1];
        }
      }
      TotalCountsEachApplicationOnce(rest, apps, countOf);
      assert jobs[0].id !in JobIds(rest) by {
        forall j | j in rest ensures j.id != jobs[0].id {
          var k :| 0 <= k < |rest| && rest[k] == j;
          assert jobs[k + 1] == j;
        }
      }
      assert JobIds(jobs) == {jobs[0].id} + JobIds(rest) by {
        assert jobs == [jobs[0]] + rest;
      }
      ApplicationsToSplit(apps, jobs[0].id, JobIds(rest));
    }
  }

  /** Nothing is counted for no job. */
  lemma {:induction false} ApplicationsToNone(apps: seq<Application>)
    ensures ApplicationsTo(apps, {}) == 0
    decreases |apps|
  {
    if apps != [] {
      ApplicationsToNone(apps[1..]);
    }
  }

  class EmployerDashboardPage {
    var jobs: seq<JobWithCount>

    constructor ()
      ensures jobs == []
    {
      jobs := [];
    }

    /**
     * `fetchJobs`: nothing without a user or when the jobs query fails;
     * otherwise the caller's jobs, annotated with their counts.
     */
    method FetchJobs(user: Option<string>, table: Option<seq<Job>>, countOf: string -> Option<nat>)
      modifies this`jobs
      ensures user.Some? && table.Some? ==> jobs == Annotate(OwnJobs(table.value, user.value), countOf)
      ensures user.None? || table.None? ==> jobs == old(jobs)
      ensures forall j :: j in jobs && j !in old(jobs) ==> user.Some? && j.job.employerId == user.value
    {
      if user.None? || table.None? {
        return;
      }
      var own := OwnJobs(table.value, user.value);
      jobs := Annotate(own, countOf);
      forall j | j in jobs ensures j.job.employerId == user.value {
        var i :| 0 <= i < |jobs| && jobs[i] == j;
        assert own[i] in own;
      }
    }
  }
}
