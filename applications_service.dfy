/**
 * The application store: statistics over the applications of a job, the
 * filter and sort resolution of the application list, and the in-place
 * updates of stored applications.
 */
module ApplicationsService {
  import opened Wrappers
  import opened ApplicationTypes
  import opened Seqs

  // ---------------------------------------------------------------------
  // Statistics

  /** One row of the statistics query: the stored status text and score. */
  datatype StatsRow = StatsRow(status: string, atsScore: Option<int>)

  /** The number of rows whose status is exactly `name`. */
  function CountStatus(rows: seq<StatsRow>, name: string): (n: nat)
    ensures n <= |rows|
  {
    if rows == [] then 0
    else (if rows[0].status == name then 1 else 0) + CountStatus(rows[1..], name)
  }

  function Statuses(rows: seq<StatsRow>): (r: seq<string>)
    ensures |r| == |rows| && forall i | 0 <= i < |rows| :: r[i] == rows[i].status
  {
    seq(|rows|, i requires 0 <= i < |rows| => rows[i].status)
  }

  /** A status count is the multiplicity of that status among the rows. */
  lemma {:induction false} CountStatusIsMultiplicity(rows: seq<StatsRow>, name: string)
    ensures CountStatus(rows, name) == multiset(Statuses(rows))[name]
  {
    if rows != [] {
      CountStatusIsMultiplicity(rows[1..], name);
      assert Statuses(rows) == [rows[0].status] + Statuses(rows[1..]);
    }
  }

  predicate KnownStatus(name: string) {
    name in {"new", "reviewing", "shortlisted", "invited", "rejected"}
  }

  function FiveCounts(rows: seq<StatsRow>): nat {
    CountStatus(rows, "new") + CountStatus(rows, "reviewing") + CountStatus(rows, "shortlisted") +
    CountStatus(rows, "invited") + CountStatus(rows, "rejected")
  }

  /** No row is counted under two statuses, and when every row carries one
      of the five statuses the five counts add up to the number of rows. */
  lemma {:induction false} FiveCountsPartition(rows: seq<StatsRow>)
    ensures FiveCounts(rows) <= |rows|
    ensures (forall i | 0 <= i < |rows| :: KnownStatus(rows[i].status)) ==> FiveCounts(rows) == |rows|
  {
    if rows != [] {
      FiveCountsPartition(rows[1..]);
      assert forall i | 0 <= i < |rows[1..]| :: rows[1..][i] == rows[i + 1];
    }
  }

  /** The scores of the scored rows, in row order; unscored rows are skipped. */
  function ScoredValues(rows: seq<StatsRow>): (xs: seq<int>)
    ensures |xs| <= |rows|
  {
    if rows == [] then []
    else (if rows[0].atsScore.Some? then [rows[0].atsScore.value] else []) + ScoredValues(rows[1..])
  }

  /** A row with a score. */
  predicate Scored(r: StatsRow) {
    r.atsScore.Some?
  }

  /** The scores of the given rows, which must all be scored. */
  function ScoresOf(rows: seq<StatsRow>): (xs: seq<int>)
    requires forall i | 0 <= i < |rows| :: Scored(rows[i])
    ensures |xs| == |rows| && forall k | 0 <= k < |rows| :: rows[k].atsScore == Some(xs[k])
  {
    seq(|rows|, k requires 0 <= k < |rows| && Scored(rows[k]) => rows[k].atsScore.value)
  }

  /** The values averaged are the scores of the scored rows, in row order:
      the non-null scores, kept in the order the query returned them. */
  lemma {:induction false} ScoredValuesAreFilteredScores(rows: seq<StatsRow>)
    ensures ScoredValues(rows) == ScoresOf(Filter(rows, Scored))
  {
    if rows != [] {
      var rest := Filter(rows[1..], Scored);
      ScoredValuesAreFilteredScores(rows[1..]);
      if Scored(rows[0]) {
        assert Filter(rows, Scored) == [rows[0]] + rest;
        ScoresOfCons(rows[0], rest);
      } else {
        assert Filter(rows, Scored) == rest;
        assert ScoredValues(rows) == [] + ScoredValues(rows[1..]);
      }
    }
  }

  lemma ScoresOfCons(r: StatsRow, rest: seq<StatsRow>)
    requires Scored(r) && forall i | 0 <= i < |rest| :: Scored(rest[i])
    ensures ScoresOf([r] + rest) == [r.atsScore.value] + ScoresOf(rest)
  {
    var a, b := ScoresOf([r] + rest), [r.atsScore.value] + ScoresOf(rest);
    forall k | 0 <= k < |a|
      ensures a[k] == b[k]
    {
      if k > 0 {
        assert ([r] + rest)[k] == rest[k - 1];
      }
    }
  }

  lemma {:induction false} ScoredValuesAppend(a: seq<StatsRow>, b: seq<StatsRow>)
    ensures ScoredValues(a + b) == ScoredValues(a) + ScoredValues(b)
  {
    if a != [] {
      ScoredValuesAppend(a[1..], b);
      assert (a + b)[1..] == a[1..] + b;
    } else {
      assert a + b == b;
    }
  }

  /** Every value in `xs` is a score of some row. */
  lemma {:induction false} ScoredValuesFromRows(rows: seq<StatsRow>, lo: int, hi: int)
    requires forall i | 0 <= i < |rows| :: rows[i].atsScore.Some? ==> lo <= rows[i].atsScore.value <= hi
    ensures forall k | 0 <= k < |ScoredValues(rows)| :: lo <= ScoredValues(rows)[k] <= hi
  {
    if rows != [] {
      ScoredValuesFromRows(rows[1..], lo, hi);
    }
  }

  function Sum(xs: seq<int>): int {
    if xs == [] then 0 else xs[0] + Sum(xs[1..])
  }

  lemma {:induction false} SumBounds(xs: seq<int>, lo: int, hi: int)
    requires forall k | 0 <= k < |xs| :: lo <= xs[k] <= hi
    ensures |xs| * lo <= Sum(xs) <= |xs| * hi
  {
    if xs != [] {
      SumBounds(xs[1..], lo, hi);
      assert |xs| * lo == lo + |xs[1..]| * lo;
      assert |xs| * hi == hi + |xs[1..]| * hi;
    }
  }

  /**
   * `Math.round(Sum(xs) / |xs|)`, or 0 for no values. `Math.round` takes the
   * nearest integer and rounds halves up, so the result `m` satisfies
   * m - 1/2 <= mean < m + 1/2.
   */
  function RoundedMean(xs: seq<int>): (m: int)
    ensures xs == [] ==> m == 0
    ensures xs != [] ==> 2 * |xs| * m - |xs| <= 2 * Sum(xs) < 2 * |xs| * m + |xs|
  {
    if xs == [] then 0 else (2 * Sum(xs) + |xs|) / (2 * |xs|)
  }

  /** The rounded mean lies between any lower and upper bound of the values,
      in particular between their minimum and maximum. */
  lemma RoundedMeanWithin(xs: seq<int>, lo: int, hi: int)
    requires xs != []
    requires forall k | 0 <= k < |xs| :: lo <= xs[k] <= hi
    ensures lo <= RoundedMean(xs) <= hi
  {
    SumBounds(xs, lo, hi);
    RoundedWithin(|xs|, RoundedMean(xs), Sum(xs), lo, hi);
  }

  /** The arithmetic core: a rounded quotient of a sum of `n` values in
      [lo, hi] is itself in [lo, hi]. */
  lemma RoundedWithin(n: int, m: int, sum: int, lo: int, hi: int)
    requires n > 0
    requires 2 * n * m - n <= 2 * sum < 2 * n * m + n
    requires n * lo <= sum <= n * hi
    ensures lo <= m <= hi
  {
    // 2n·m - n <= 2·sum <= 2n·hi, so n·(2m - 2hi - 1) <= 0
    assert n * (2 * m - 2 * hi - 1) == 2 * n * m - 2 * (n * hi) - n;
    PositiveFactor(n, 2 * m - 2 * hi - 1);
    // 2n·lo <= 2·sum < 2n·m + n, so n·(2lo - 2m - 1) < 0
    assert n * (2 * lo - 2 * m - 1) == 2 * (n * lo) - 2 * n * m - n;
    PositiveFactor(n, 2 * lo - 2 * m - 1);
  }

  lemma PositiveFactor(n: int, a: int)
    requires n > 0
    ensures n * a <= 0 ==> a <= 0
    ensures n * a < 0 ==> a < 0
  {
    if a > 0 {
      assert n * a == n * (a - 1) + n;
      if a > 1 { PositiveFactor(n, a - 1); }
    }
  }

  datatype ApplicationStats = ApplicationStats(
    total: nat, newCount: nat, reviewing: nat, shortlisted: nat, invited: nat, rejected: nat,
    averageScore: int)

  const ZeroApplicationStats := ApplicationStats(0, 0, 0, 0, 0, 0, 0)

  /**
   * `getApplicationStats`: `rows` is the answer of the statistics query, or
   * `None` when the query failed. Each count is the number of rows with
   * that status, and the average is the rounded mean of the scored rows.
   */
  function GetApplicationStats(rows: Option<seq<StatsRow>>): (s: ApplicationStats)
    ensures rows.None? ==> s == ZeroApplicationStats
    ensures rows.Some? ==> s.total == |rows.value|
    ensures rows.Some? ==>
              var names := multiset(Statuses(rows.value));
              s.newCount == names["new"] && s.reviewing == names["reviewing"] &&
              s.shortlisted == names["shortlisted"] && s.invited == names["invited"] &&
              s.rejected == names["rejected"]
    ensures rows.Some? ==> s.averageScore == RoundedMean(ScoredValues(rows.value))
    ensures s.newCount + s.reviewing + s.shortlisted + s.invited + s.rejected <= s.total
    ensures rows.Some? && (forall i | 0 <= i < |rows.value| :: KnownStatus(rows.value[i].status)) ==>
              s.newCount + s.reviewing + s.shortlisted + s.invited + s.rejected == s.total
    ensures rows.Some? && ScoredValues(rows.value) == [] ==> s.averageScore == 0
  {
    match rows
    case None => ZeroApplicationStats
    case Some(rs) =>
      FiveCountsPartition(rs);
      CountStatusIsMultiplicity(rs, "new");
      CountStatusIsMultiplicity(rs, "reviewing");
      CountStatusIsMultiplicity(rs, "shortlisted");
      CountStatusIsMultiplicity(rs, "invited");
      CountStatusIsMultiplicity(rs, "rejected");
      ApplicationStats(
        |rs|,
        CountStatus(rs, "new"),
        CountStatus(rs, "reviewing"),
        CountStatus(rs, "shortlisted"),
        CountStatus(rs, "invited"),
        CountStatus(rs, "rejected"),
        RoundedMean(ScoredValues(rs)))
  }

  /** A status count is the multiplicity of that status's name. */
  lemma StatsCountStatuses(rs: seq<StatsRow>)
    ensures GetApplicationStats(Some(rs)).newCount == multiset(Statuses(rs))["new"]
    ensures GetApplicationStats(Some(rs)).reviewing == multiset(Statuses(rs))["reviewing"]
    ensures GetApplicationStats(Some(rs)).shortlisted == multiset(Statuses(rs))["shortlisted"]
    ensures GetApplicationStats(Some(rs)).invited == multiset(Statuses(rs))["invited"]
    ensures GetApplicationStats(Some(rs)).rejected == multiset(Statuses(rs))["rejected"]
  {
    CountStatusIsMultiplicity(rs, "new");
    CountStatusIsMultiplicity(rs, "reviewing");
    CountStatusIsMultiplicity(rs, "shortlisted");
    CountStatusIsMultiplicity(rs, "invited");
    CountStatusIsMultiplicity(rs, "rejected");
  }

  /** Adding an unscored row changes the total but not the average. */
  lemma UnscoredRowKeepsAverage(rs: seq<StatsRow>, row: StatsRow)
    requires row.atsScore.None?
    ensures GetApplicationStats(Some(rs + [row])).averageScore == GetApplicationStats(Some(rs)).averageScore
    ensures GetApplicationStats(Some(rs + [row])).total == GetApplicationStats(Some(rs)).total + 1
  {
    ScoredValuesAppend(rs, [row]);
    assert ScoredValues([row]) == [];
    assert ScoredValues(rs + [row]) == ScoredValues(rs);
  }

  /** When some row is scored and all scores lie in [lo, hi], so does the
      average; in particular it lies between the lowest and highest score. */
  lemma AverageWithinScores(rs: seq<StatsRow>, lo: int, hi: int)
    requires ScoredValues(rs) != []
    requires forall i | 0 <= i < |rs| :: rs[i].atsScore.Some? ==> lo <= rs[i].atsScore.value <= hi
    ensures lo <= GetApplicationStats(Some(rs)).averageScore <= hi
  {
    ScoredValuesFromRows(rs, lo, hi);
    RoundedMeanWithin(ScoredValues(rs), lo, hi);
  }

  // ---------------------------------------------------------------------
  // The application list: filter and sort resolution

  datatype StatusFilter = AllStatuses | OnlyStatus(status: Status)
  datatype SortKey = ByScore | ByDate | ByName
  datatype SortOrder = Ascending | Descending

  datatype ApplicationFilters = ApplicationFilters(
    status: Option<StatusFilter>,
    minScore: Option<int>,
    maxScore: Option<int>,
    sortBy: Option<SortKey>,
    sortOrder: Option<SortOrder>)

  datatype Column = AtsScoreColumn | NameColumn | CreatedAtColumn

  /** A sort instruction; `nullsFirst` is `None` when the handler leaves the
      placement of nulls to the store. */
  datatype Order = Order(column: Column, ascending: bool, nullsFirst: Option<bool>)

  /** The list query the handler builds: equality and range conditions and
      one sort instruction. */
  datatype ApplicationsQuery = ApplicationsQuery(
    jobId: string,
    status: Option<Status>,
    minScore: Option<int>,
    maxScore: Option<int>,
    order: Order)

  /** Which rows a query selects; a range condition on a null score is not met. */
  predicate Selects(q: ApplicationsQuery, a: Application) {
    a.jobId == q.jobId &&
    (q.status.Some? ==> a.status == q.status.value) &&
    (q.minScore.Some? ==> a.atsScore.Some? && a.atsScore.value >= q.minScore.value) &&
    (q.maxScore.Some? ==> a.atsScore.Some? && a.atsScore.value <= q.maxScore.value)
  }

  /** Whether a score-ordered listing may place a row scored `x` before one
      scored `y`. */
  predicate ScoreMayPrecede(o: Order, x: Option<int>, y: Option<int>)
    requires o.column == AtsScoreColumn && o.nullsFirst.Some?
  {
    if x.None? && y.None? then true
    else if x.None? then o.nullsFirst.value
    else if y.None? then !o.nullsFirst.value
    else if o.ascending then x.value <= y.value
    else x.value >= y.value
  }

  /**
   * `getAllApplications`' query: rows of the job; a status condition unless
   * the status is absent or "all"; inclusive score bounds whenever given
   * (zero included); ordered by creation date, newest first, unless told
   * otherwise, and with unscored rows last when ordered by score.
   */
  method BuildApplicationsQuery(jobId: string, filters: Option<ApplicationFilters>)
    returns (q: ApplicationsQuery)
    ensures forall a :: Selects(q, a) <==>
      a.jobId == jobId &&
      (filters.Some? && filters.value.status.Some? && filters.value.status.value.OnlyStatus? ==>
         a.status == filters.value.status.value.status) &&
      (filters.Some? && filters.value.minScore.Some? ==>
         a.atsScore.Some? && filters.value.minScore.value <= a.atsScore.value) &&
      (filters.Some? && filters.value.maxScore.Some? ==>
         a.atsScore.Some? && a.atsScore.value <= filters.value.maxScore.value)
    ensures (filters.None? || filters.value.sortBy.None? || filters.value.sortBy == Some(ByDate)) <==>
              q.order.column == CreatedAtColumn
    ensures (filters.Some? && filters.value.sortBy == Some(ByName)) <==> q.order.column == NameColumn
    ensures q.order.ascending <==> filters.Some? && filters.value.sortOrder == Some(Ascending)
    ensures q.order.column == AtsScoreColumn <==> q.order.nullsFirst == Some(false)
    ensures q.order.column != AtsScoreColumn ==> q.order.nullsFirst.None?
  {
    q := ApplicationsQuery(jobId, None, None, None, Order(CreatedAtColumn, false, None));
    if filters.Some? && filters.value.status.Some? && filters.value.status.value.OnlyStatus? {
      q := q.(status := Some(filters.value.status.value.status));
    }
    if filters.Some? && filters.value.minScore.Some? {
      q := q.(minScore := filters.value.minScore);
    }
    if filters.Some? && filters.value.maxScore.Some? {
      q := q.(maxScore := filters.value.maxScore);
    }
    var sortBy := if filters.Some? && filters.value.sortBy.Some? then filters.value.sortBy.value else ByDate;
    var sortOrder := if filters.Some? && filters.value.sortOrder.Some? then filters.value.sortOrder.value else Descending;
    var ascending := sortOrder == Ascending;
    if sortBy == ByScore {
      q := q.(order := Order(AtsScoreColumn, ascending, Some(false)));
    } else if sortBy == ByName {
      q := q.(order := Order(NameColumn, ascending, None));
    } else {
      q := q.(order := Order(CreatedAtColumn, ascending, None));
    }
  }

  /** In a score-ordered listing built by the handler, in either direction,
      every scored row comes before every unscored one. */
  lemma ScoreOrderPutsNullsLast(o: Order, x: int)
    requires o.column == AtsScoreColumn && o.nullsFirst == Some(false)
    ensures ScoreMayPrecede(o, Some(x), None) && !ScoreMayPrecede(o, None, Some(x))
  {
  }

  // ---------------------------------------------------------------------
  // Stored applications

  /** The row the store creates from an insert payload; the table defaults
      (status "new", not viewed, both timestamps the current time) fill in
      what the payload leaves out. */
  function FromInsert(p: ApplicationInsert, id: string, now: int): (a: Application)
    ensures a.id == id && a.jobId == p.jobId && a.createdAt == now && a.updatedAt == now
    ensures a.status == p.status.GetOr(New) && !a.isViewed && a.interviewId.None?
    ensures a.name == p.name && a.email == p.email && a.phone == p.phone && a.resumeUrl == p.resumeUrl
    ensures a.resumeText == p.resumeText && a.coverLetter == p.coverLetter
    ensures a.atsAnalysis == p.atsAnalysis && a.atsScore == p.atsScore
  {
    Application(id, now, now, p.jobId, p.name, p.email, p.phone, p.resumeUrl, p.resumeText,
                p.coverLetter, p.atsAnalysis, p.atsScore, p.status.GetOr(New), false, None)
  }

  /** A nullable field after a spread: the payload's value when it gives
      one, else the stored one. */
  function Given<T>(given: Option<T>, stored: Option<T>): (r: Option<T>)
    ensures given.Some? ==> r == given
    ensures given.None? ==> r == stored
  {
    if given.Some? then given else stored
  }

  /** `{ ...payload, updated_at: now }` applied to a stored row: the fields
      the payload gives replace the stored ones and the timestamp becomes
      `now`, whatever timestamp the payload carries. */
  function ApplyUpdate(a: Application, u: ApplicationUpdate, now: int): (r: Application)
    ensures r.id == a.id && r.jobId == a.jobId && r.createdAt == a.createdAt && r.resumeUrl == a.resumeUrl
    ensures r.updatedAt == now
    ensures u.name.Some? ==> r.name == u.name.value
    ensures u.name.None? ==> r.name == a.name
    ensures u.email.Some? ==> r.email == u.email.value
    ensures u.email.None? ==> r.email == a.email
    ensures u.phone.Some? ==> r.phone == u.phone.value
    ensures u.phone.None? ==> r.phone == a.phone
    ensures u.resumeText.Some? ==> r.resumeText == u.resumeText
    ensures u.resumeText.None? ==> r.resumeText == a.resumeText
    ensures u.coverLetter.Some? ==> r.coverLetter == u.coverLetter
    ensures u.coverLetter.None? ==> r.coverLetter == a.coverLetter
    ensures u.atsAnalysis.Some? ==> r.atsAnalysis == u.atsAnalysis
    ensures u.atsAnalysis.None? ==> r.atsAnalysis == a.atsAnalysis
    ensures u.atsScore.Some? ==> r.atsScore == u.atsScore
    ensures u.atsScore.None? ==> r.atsScore == a.atsScore
    ensures u.status.Some? ==> r.status == u.status.value
    ensures u.status.None? ==> r.status == a.status
    ensures u.isViewed.Some? ==> r.isViewed == u.isViewed.value
    ensures u.isViewed.None? ==> r.isViewed == a.isViewed
    ensures u.interviewId.Some? ==> r.interviewId == u.interviewId
    ensures u.interviewId.None? ==> r.interviewId == a.interviewId
  {
    Application(a.id, a.createdAt, now, a.jobId,
                u.name.GetOr(a.name), u.email.GetOr(a.email), u.phone.GetOr(a.phone), a.resumeUrl,
                Given(u.resumeText, a.resumeText), Given(u.coverLetter, a.coverLetter),
                Given(u.atsAnalysis, a.atsAnalysis), Given(u.atsScore, a.atsScore),
                u.status.GetOr(a.status), u.isViewed.GetOr(a.isViewed), Given(u.interviewId, a.interviewId))
  }

  /** An empty payload only refreshes the timestamp. */
  lemma EmptyUpdateOnlyTouchesTimestamp(a: Application, now: int)
    ensures ApplyUpdate(a, NoChange, now) == a.(updatedAt := now)
  {
  }

  /** Storing a report changes the report and the score and nothing else
      but the timestamp. */
  lemma AnalysisUpdateTouchesOnlyReport(a: Application, r: Analysis, now: int)
    ensures ApplyUpdate(a, AnalysisUpdate(r), now) ==
            a.(atsAnalysis := Some(r), atsScore := Some(r.overallScore), updatedAt := now)
  {
  }

  /** Applying the same payload again only moves the timestamp. */
  lemma UpdateIdempotent(a: Application, u: ApplicationUpdate, t1: int, t2: int)
    ensures ApplyUpdate(ApplyUpdate(a, u, t1), u, t2) == ApplyUpdate(a, u, t2)
  {
  }

  /** The application table, keyed by id. Calls to the store that fail for
      reasons outside the model take a `fault` flag. */
  class ApplicationStore {
    var rows: map<string, Application>

    constructor (initial: map<string, Application>)
      ensures rows == initial
    {
      rows := initial;
    }

    /** `getApplicationById`. */
    function GetById(id: string): (r: Option<Application>)
      reads this
      ensures r.Some? <==> id in rows
      ensures r.Some? ==> r.value == rows[id]
    {
      if id in rows then Some(rows[id]) else None
    }

    /** `createApplication`: `newId` is the id the store generates, and
        `accepted` whether the insert succeeds. */
    method Create(p: ApplicationInsert, newId: string, now: int, accepted: bool)
      returns (r: Option<Application>)
      requires newId !in rows
      modifies this
      ensures accepted ==> r == Some(FromInsert(p, newId, now)) && rows == old(rows)[newId := r.value]
      ensures !accepted ==> r.None? && rows == old(rows)
    {
      if accepted {
        var a := FromInsert(p, newId, now);
        rows := rows[newId := a];
        r := Some(a);
      } else {
        r := None;
      }
    }

    /** `updateApplication`: the row with the payload applied, or `None`
        when no row has that id. */
    method Update(u: ApplicationUpdate, id: string, now: int) returns (r: Option<Application>)
      modifies this
      ensures id in old(rows) ==> r == Some(ApplyUpdate(old(rows)[id], u, now)) && rows == old(rows)[id := r.value]
      ensures id !in old(rows) ==> r.None? && rows == old(rows)
    {
      if id in rows {
        var a := ApplyUpdate(rows[id], u, now);
        rows := rows[id := a];
        r := Some(a);
      } else {
        r := None;
      }
    }

    /** `updateApplicationStatus`: any of the five statuses is written, from
        any status; an unknown id matches no row and is not an error. */
    method UpdateStatus(id: string, status: Status, now: int, fault: bool) returns (ok: bool)
      modifies this
      ensures ok == !fault
      ensures ok && id in old(rows) ==>
                rows == old(rows)[id := old(rows)[id].(status := status, updatedAt := now)]
      ensures !ok || id !in old(rows) ==> rows == old(rows)
    {
      if fault {
        return false;
      }
      if id in rows {
        rows := rows[id := ApplyUpdate(rows[id], NoChange.(status := Some(status)), now)];
      }
      ok := true;
    }

    /** `markAsViewed`: sets the viewed flag and leaves the timestamp alone. */
    method MarkAsViewed(id: string, fault: bool) returns (ok: bool)
      modifies this
      ensures ok == !fault
      ensures ok && id in old(rows) ==> rows == old(rows)[id := old(rows)[id].(isViewed := true)]
      ensures !ok || id !in old(rows) ==> rows == old(rows)
    {
      if fault {
        return false;
      }
      if id in rows {
        rows := rows[id := rows[id].(isViewed := true)];
      }
      ok := true;
    }
  }
}
