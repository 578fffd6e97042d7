/**
 * The job store: job statistics, the status filter of the organisation's
 * job list, public visibility, soft deletion and the application counter.
 */
module JobsService {
  import opened Wrappers
  import opened Text
  import opened Seqs
  import opened JobTypes
  import opened ApplicationsService

  // ---------------------------------------------------------------------
  // Statistics

  datatype JobStats = JobStats(
    totalApplications: nat, newApplications: nat, shortlistedApplications: nat,
    invitedApplications: nat, averageAtsScore: int)

  const ZeroJobStats := JobStats(0, 0, 0, 0, 0)

  /** `getJobStats`: `rows` is the answer of the statistics query over the
      job's applications, or `None` when the query failed. */
  function GetJobStats(rows: Option<seq<StatsRow>>): (s: JobStats)
    ensures rows.None? ==> s == ZeroJobStats
    ensures rows.Some? ==>
              var names := multiset(Statuses(rows.value));
              s.totalApplications == |rows.value| && s.newApplications == names["new"] &&
              s.shortlistedApplications == names["shortlisted"] && s.invitedApplications == names["invited"]
    ensures rows.Some? ==> s.averageAtsScore == RoundedMean(ScoredValues(rows.value))
    ensures s.newApplications + s.shortlistedApplications + s.invitedApplications <= s.totalApplications
    ensures rows.Some? && ScoredValues(rows.value) == [] ==> s.averageAtsScore == 0
  {
    match rows
    case None => ZeroJobStats
    case Some(rs) =>
      FiveCountsPartition(rs);
      CountStatusIsMultiplicity(rs, "new");
      CountStatusIsMultiplicity(rs, "shortlisted");
      CountStatusIsMultiplicity(rs, "invited");
      JobStats(|rs|, CountStatus(rs, "new"), CountStatus(rs, "shortlisted"),
               CountStatus(rs, "invited"), RoundedMean(ScoredValues(rs)))
  }

  /** The job statistics agree with the application statistics of the same
      rows on every figure they share, on success and on failure alike. */
  lemma JobStatsAgreeWithApplicationStats(rows: Option<seq<StatsRow>>)
    ensures GetJobStats(rows).totalApplications == GetApplicationStats(rows).total
    ensures GetJobStats(rows).newApplications == GetApplicationStats(rows).newCount
    ensures GetJobStats(rows).shortlistedApplications == GetApplicationStats(rows).shortlisted
    ensures GetJobStats(rows).invitedApplications == GetApplicationStats(rows).invited
    ensures GetJobStats(rows).averageAtsScore == GetApplicationStats(rows).averageScore
  {
  }

  // ---------------------------------------------------------------------
  // The organisation's job list

  function EmploymentTypeName(e: EmploymentType): string {
    match e
    case FullTime => "full-time"
    case PartTime => "part-time"
    case Contract => "contract"
    case Internship => "internship"
  }

  function LocationTypeName(l: LocationType): string {
    match l
    case Remote => "remote"
    case Onsite => "onsite"
    case Hybrid => "hybrid"
  }

  datatype JobStatusFilter = ActiveJobs | ArchivedJobs | AllJobs

  datatype JobFilters = JobFilters(
    status: Option<JobStatusFilter>,
    employmentType: Option<string>,
    locationType: Option<string>)

  /** The equality conditions of the job-list query. */
  datatype JobsQuery = JobsQuery(
    organizationId: string,
    isActive: Option<bool>,
    isArchived: Option<bool>,
    employmentType: Option<string>,
    locationType: Option<string>)

  predicate JobSelects(q: JobsQuery, j: Job) {
    j.posting.organizationId == q.organizationId &&
    (q.isActive.Some? ==> j.isActive == q.isActive.value) &&
    (q.isArchived.Some? ==> j.isArchived == q.isArchived.value) &&
    (q.employmentType.Some? ==> EmploymentTypeName(j.posting.employmentType) == q.employmentType.value) &&
    (q.locationType.Some? ==> LocationTypeName(j.posting.locationType) == q.locationType.value)
  }

  /**
   * `getAllJobs`' query: the organisation's jobs; "active" keeps the jobs
   * that are active and not archived, "archived" the archived ones, and any
   * other status keeps all; a non-empty employment or location type must
   * match.
   */
  method BuildJobsQuery(organizationId: string, filters: Option<JobFilters>) returns (q: JobsQuery)
    ensures forall j :: JobSelects(q, j) <==>
      j.posting.organizationId == organizationId &&
      (filters.Some? && filters.value.status == Some(ActiveJobs) ==> IsPublic(j)) &&
      (filters.Some? && filters.value.status == Some(ArchivedJobs) ==> j.isArchived) &&
      (filters.Some? && TruthyOpt(filters.value.employmentType) ==>
         EmploymentTypeName(j.posting.employmentType) == filters.value.employmentType.value) &&
      (filters.Some? && TruthyOpt(filters.value.locationType) ==>
         LocationTypeName(j.posting.locationType) == filters.value.locationType.value)
  {
    q := JobsQuery(organizationId, None, None, None, None);
    if filters.Some? && filters.value.status == Some(ActiveJobs) {
      q := q.(isActive := Some(true), isArchived := Some(false));
    } else if filters.Some? && filters.value.status == Some(ArchivedJobs) {
      q := q.(isArchived := Some(true));
    }
    if filters.Some? && TruthyOpt(filters.value.employmentType) {
      q := q.(employmentType := filters.value.employmentType);
    }
    if filters.Some? && TruthyOpt(filters.value.locationType) {
      q := q.(locationType := filters.value.locationType);
    }
  }

  // ---------------------------------------------------------------------
  // Public listing

  predicate InPublicListing(organizationId: Option<string>, j: Job) {
    IsPublic(j) && (TruthyOpt(organizationId) ==> j.posting.organizationId == organizationId.value)
  }

  /** `getActivePublicJobs`: `table` is the job table in listing order, or
      `None` when the query failed, which gives the empty list. */
  function PublicListing(table: Option<seq<Job>>, organizationId: Option<string>): (r: seq<Job>)
    ensures table.None? ==> r == []
    ensures forall k | 0 <= k < |r| :: IsPublic(r[k]) && table.Some? && r[k] in table.value
    ensures TruthyOpt(organizationId) ==>
              forall k | 0 <= k < |r| :: r[k].posting.organizationId == organizationId.value
    ensures table.Some? ==>
              forall k | 0 <= k < |table.value| ::
                InPublicListing(organizationId, table.value[k]) ==> table.value[k] in r
  {
    match table
    case None => []
    case Some(t) => Filter(t, j => InPublicListing(organizationId, j))
  }

  /** Without an organisation (or with an empty one) the listing is every
      public job, in order; no organisation restriction is applied. */
  lemma PublicListingUnrestricted(table: seq<Job>, organizationId: Option<string>)
    requires !TruthyOpt(organizationId)
    ensures PublicListing(Some(table), organizationId) == Filter(table, IsPublic)
  {
    var p := (j: Job) => InPublicListing(organizationId, j);
    FilterSameTest(table, p, IsPublic);
  }

  lemma {:induction false} FilterSameTest<T>(s: seq<T>, p: T -> bool, q: T -> bool)
    requires forall x :: p(x) == q(x)
    ensures Filter(s, p) == Filter(s, q)
  {
    if s != [] {
      FilterSameTest(s[1..], p, q);
    }
  }

  // ---------------------------------------------------------------------
  // Stored jobs

  /** The update that `archiveJob` and `deleteJob` both perform. */
  function Archived(j: Job): (r: Job)
    ensures r.isArchived && !r.isActive && !IsPublic(r)
    ensures r.(isActive := j.isActive, isArchived := j.isArchived) == j
  {
    j.(isArchived := true, isActive := false)
  }

  lemma ArchiveIdempotent(j: Job)
    ensures Archived(Archived(j)) == Archived(j)
  {
  }

  /** The count a missing or zero counter is read as. */
  function CountOrZero(j: Job): int {
    j.applicationCount.GetOr(0)
  }

  /** The row the store creates from a posting; the table defaults make a
      new job active, not archived and without applications. */
  function FromPosting(p: JobInsert, id: string, now: int): (j: Job)
    ensures j.id == id && j.posting == p && IsPublic(j) && CountOrZero(j) == 0
  {
    Job(id, now, now, p, true, false, Some(0))
  }

  /** The job table, keyed by id. */
  class JobStore {
    var rows: map<string, Job>

    constructor (initial: map<string, Job>)
      ensures rows == initial
    {
      rows := initial;
    }

    /** `getJobById`. */
    function GetById(id: string): (r: Option<Job>)
      reads this
      ensures r.Some? <==> id in rows
      ensures r.Some? ==> r.value == rows[id]
    {
      if id in rows then Some(rows[id]) else None
    }

    /** `getPublicJobById`: found only while active and not archived. */
    function GetPublicById(id: string): (r: Option<Job>)
      reads this
      ensures r.Some? <==> id in rows && IsPublic(rows[id])
      ensures r.Some? ==> r.value == rows[id]
    {
      if id in rows && IsPublic(rows[id]) then Some(rows[id]) else None
    }

    /** `createJob`: `newId` is the id the store generates, and `accepted`
        whether the insert succeeds. */
    method Create(p: JobInsert, newId: string, now: int, accepted: bool) returns (r: Option<Job>)
      requires newId !in rows
      modifies this
      ensures accepted ==> r == Some(FromPosting(p, newId, now)) && rows == old(rows)[newId := r.value]
      ensures !accepted ==> r.None? && rows == old(rows)
    {
      if accepted {
        var j := FromPosting(p, newId, now);
        rows := rows[newId := j];
        r := Some(j);
      } else {
        r := None;
      }
    }

    /** `archiveJob`: the job is no longer active and is archived; an id
        that matches no row is not an error. */
    method Archive(id: string, fault: bool) returns (ok: bool)
      modifies this
      ensures ok == !fault
      ensures ok && id in old(rows) ==> rows == old(rows)[id := Archived(old(rows)[id])]
      ensures !ok || id !in old(rows) ==> rows == old(rows)
      ensures ok ==> GetPublicById(id).None?
    {
      if fault {
        return false;
      }
      if id in rows {
        rows := rows[id := Archived(rows[id])];
      }
      ok := true;
    }

    /** `deleteJob`: a soft delete, the same update as `archiveJob`. */
    method Delete(id: string, fault: bool) returns (ok: bool)
      modifies this
      ensures ok == !fault
      ensures ok && id in old(rows) ==> rows == old(rows)[id := Archived(old(rows)[id])]
      ensures !ok || id !in old(rows) ==> rows == old(rows)
      ensures ok ==> GetPublicById(id).None?
    {
      ok := Archive(id, fault);
    }

    /**
     * `incrementApplicationCount`. The store procedure is tried first; it
     * is not part of this model beyond adding one to the counter. When it
     * is unavailable the job is read and written back with the counter one
     * higher (a missing counter read as 0) and a fresh timestamp;
     * `fallbackOk` is whether both that read and that write succeed, and
     * a failure of either is swallowed. An unknown job is left alone, and
     * nothing else changes.
     */
    method IncrementApplicationCount(jobId: string, procedureAvailable: bool, fallbackOk: bool, now: int)
      modifies this
      ensures jobId in old(rows) && (procedureAvailable || fallbackOk) ==>
                jobId in rows &&
                rows == old(rows)[jobId := rows[jobId]] &&
                rows[jobId].applicationCount == Some(CountOrZero(old(rows)[jobId]) + 1) &&
                rows[jobId].(applicationCount := old(rows)[jobId].applicationCount,
                             updatedAt := old(rows)[jobId].updatedAt) == old(rows)[jobId]
      ensures jobId !in old(rows) || (!procedureAvailable && !fallbackOk) ==> rows == old(rows)
    {
      if procedureAvailable {
        if jobId in rows {
          var j := rows[jobId];
          rows := rows[jobId := j.(applicationCount := Some(CountOrZero(j) + 1))];
        }
      } else if fallbackOk {
        var job := GetById(jobId);
        if job.Some? {
          var j := job.value;
          rows := rows[jobId := j.(applicationCount := Some(CountOrZero(j) + 1), updatedAt := now)];
        }
      }
    }
  }
}
