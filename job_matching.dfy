/**
 * The client-side part of a search (jobApi.ts, `applyFilters`,
 * `sortJobs`, `processResults`): which fetched jobs a filter keeps and the
 * order they are returned in.
 */
module JobMatching {
  import opened Wrappers
  import opened Text
  import opened Jobs
  import opened FilterObject
  import StableSort
  import SeqFacts

  /** The string a property holds; the type system makes every truthy text field a `Str`. */
  function TextOf(v: Value): string {
    if v.Str? then v.s else ""
  }

  /** `x && ...` on an optional salary number: present and non-zero. */
  predicate NonZero(x: Option<int>) {
    x.Some? && x.value != 0
  }

  predicate MatchesKeyword(job: JobListing, f: JobFilter) {
    var kw := Get(f, Keyword);
    !Truthy(kw)
    || ContainsIgnoringCase(job.title, TextOf(kw))
    || ContainsIgnoringCase(job.description, TextOf(kw))
  }

  predicate MatchesLocation(job: JobListing, f: JobFilter) {
    var loc := Get(f, Location);
    !Truthy(loc)
    || ContainsIgnoringCase(job.location, TextOf(loc))
    || (job.remote && Lower(TextOf(loc)) == "remote")
  }

  /**
   * The salary clause. A comparison with a bound the salary object lacks
   * compares with `undefined`, which is false.
   */
  predicate MatchesSalary(job: JobListing, f: JobFilter) {
    var sal := Get(f, Salary);
    !Truthy(sal)
    || (NonZero(job.salaryMin) && NonZero(job.salaryMax)
        && BoundOf(sal, Max).Some? && job.salaryMin.value <= BoundOf(sal, Max).value
        && BoundOf(sal, Min).Some? && job.salaryMax.value >= BoundOf(sal, Min).value)
  }

  predicate MatchesExperience(job: JobListing, f: JobFilter) {
    var lvl := Get(f, ExperienceLevel);
    !Truthy(lvl) || job.experienceLevel == TextOf(lvl)
  }

  predicate MatchesJobType(job: JobListing, f: JobFilter) {
    var ty := Get(f, JobType);
    !Truthy(ty) || job.jobType == TextOf(ty)
  }

  /** `applyFilters`: all five clauses hold (industry, company size, posting age and remote are not applied). */
  predicate ApplyFilters(job: JobListing, f: JobFilter) {
    MatchesKeyword(job, f) && MatchesLocation(job, f) && MatchesSalary(job, f)
    && MatchesExperience(job, f) && MatchesJobType(job, f)
  }

  /**
   * What the filter means, with substring search stated as an occurrence position:
   * a job passes exactly when each of the five clauses holds.
   */
  lemma ApplyFiltersMeaning(job: JobListing, f: JobFilter)
    ensures ApplyFilters(job, f) <==>
      (var kw, loc, sal := TextOf(Get(f, Keyword)), TextOf(Get(f, Location)), Get(f, Salary);
       (!Truthy(Get(f, Keyword))
        || (exists i :: OccursAt(Lower(job.title), Lower(kw), i))
        || (exists i :: OccursAt(Lower(job.description), Lower(kw), i)))
       && (!Truthy(Get(f, Location))
           || (exists i :: OccursAt(Lower(job.location), Lower(loc), i))
           || (job.remote && Lower(loc) == "remote"))
       && (!Truthy(sal)
           || (job.salaryMin.Some? && job.salaryMin.value != 0
               && job.salaryMax.Some? && job.salaryMax.value != 0
               && (exists hi :: BoundOf(sal, Max) == Some(hi) && job.salaryMin.value <= hi)
               && (exists lo :: BoundOf(sal, Min) == Some(lo) && job.salaryMax.value >= lo)))
       && (!Truthy(Get(f, ExperienceLevel)) || job.experienceLevel == TextOf(Get(f, ExperienceLevel)))
       && (!Truthy(Get(f, JobType)) || job.jobType == TextOf(Get(f, JobType))))
  {
  }

  // ---------------------------------------------------------------------
  // A salary object with one key. The first keystroke in either salary box
  // sets a salary object with only that key, and the comparison with the
  // missing key is false, so the salary clause rejects every job until both
  // boxes hold a number.

  /** As written: a set salary filter with one bound rejects every job. */
  lemma OneSidedSalaryRejectsAll(job: JobListing, f: JobFilter)
    requires Get(f, Salary).Range? && Get(f, Salary).second.None?
    ensures !MatchesSalary(job, f) && !ApplyFilters(job, f)
  {
    var sal := Get(f, Salary);
    assert BoundOf(sal, Other(sal.first.bound)).None?;
  }

  /** A job paying 80000 to 120000, with only "Min" set to 50000: intended to match, rejected as written. */
  lemma OneSidedSalaryExample(job: JobListing)
    requires job.salaryMin == Some(80000) && job.salaryMax == Some(120000)
    ensures var f := [Prop(Salary, WithBound(Undefined, Min, 50000))];
      MatchesSalaryIntended(job, f) && !MatchesSalary(job, f)
  {
    var f := [Prop(Salary, WithBound(Undefined, Min, 50000))];
    assert Get(f, Salary) == Range(SalaryBound(Min, 50000), None);
    OneSidedSalaryRejectsAll(job, f);
  }

  /** Corrected: a bound the salary object lacks does not constrain the job. */
  predicate MatchesSalaryIntended(job: JobListing, f: JobFilter) {
    var sal := Get(f, Salary);
    !Truthy(sal)
    || (NonZero(job.salaryMin) && NonZero(job.salaryMax)
        && (BoundOf(sal, Max).None? || job.salaryMin.value <= BoundOf(sal, Max).value)
        && (BoundOf(sal, Min).None? || job.salaryMax.value >= BoundOf(sal, Min).value))
  }

  /** Once both bounds are set, or none, the corrected clause and the written one agree. */
  lemma SalaryIntendedAgrees(job: JobListing, f: JobFilter)
    requires !Truthy(Get(f, Salary))
          || (BoundOf(Get(f, Salary), Min).Some? && BoundOf(Get(f, Salary), Max).Some?)
    ensures MatchesSalaryIntended(job, f) <==> MatchesSalary(job, f)
  {
  }

  /**
   * With only a minimum set, the corrected clause keeps exactly the jobs with
   * both salary numbers whose maximum reaches it; with only a maximum, those
   * whose minimum does not exceed it.
   */
  lemma SalaryIntendedOneBound(job: JobListing, f: JobFilter, n: int)
    ensures Get(f, Salary) == Range(SalaryBound(Min, n), None) ==>
      (MatchesSalaryIntended(job, f) <==>
        NonZero(job.salaryMin) && NonZero(job.salaryMax) && job.salaryMax.value >= n)
    ensures Get(f, Salary) == Range(SalaryBound(Max, n), None) ==>
      (MatchesSalaryIntended(job, f) <==>
        NonZero(job.salaryMin) && NonZero(job.salaryMax) && job.salaryMin.value <= n)
  {
  }

  /** Filling an empty salary box only narrows what the corrected clause keeps. */
  lemma SalaryIntendedNarrows(job: JobListing, f: JobFilter, b: Bound, n: int)
    requires DistinctBounds(Get(f, Salary)) && (Get(f, Salary).Range? || Get(f, Salary) == Undefined)
    requires BoundOf(Get(f, Salary), b).None?
    ensures var g := Put(f, Salary, WithBound(Get(f, Salary), b, n));
      MatchesSalaryIntended(job, g) ==> MatchesSalaryIntended(job, f)
  {
    var g := Put(f, Salary, WithBound(Get(f, Salary), b, n));
    GetPut(f, Salary, WithBound(Get(f, Salary), b, n), Salary);
    WithBoundSpec(Get(f, Salary), b, n, Other(b));
  }

  /** `jobs.filter(job => applyFilters(job, f))`: the matching jobs, each as often as it occurs. */
  function FilterJobs(jobs: seq<JobListing>, f: JobFilter): (r: seq<JobListing>)
    ensures forall j :: j in r ==> ApplyFilters(j, f)
  {
    if jobs == [] then []
    else (if ApplyFilters(jobs[0], f) then [jobs[0]] else []) + FilterJobs(jobs[1..], f)
  }

  /** Filtering keeps every matching job as often as it occurs, and no other job. */
  lemma {:induction false} FilterJobsCount(jobs: seq<JobListing>, f: JobFilter)
    ensures forall j :: multiset(FilterJobs(jobs, f))[j] == if ApplyFilters(j, f) then multiset(jobs)[j] else 0
  {
    if jobs != [] {
      FilterJobsCount(jobs[1..], f);
      assert jobs == [jobs[0]] + jobs[1..];
    }
  }

  /**
   * Filtering never lengthens the list; it shortens it exactly when some job
   * fails the filter, and empties it exactly when every job does.
   */
  lemma {:induction false} FilterJobsSize(jobs: seq<JobListing>, f: JobFilter)
    ensures |FilterJobs(jobs, f)| <= |jobs|
    ensures |FilterJobs(jobs, f)| < |jobs| <==> exists j :: j in jobs && !ApplyFilters(j, f)
    ensures |FilterJobs(jobs, f)| == 0 <==> forall j :: j in jobs ==> !ApplyFilters(j, f)
  {
    if jobs != [] {
      FilterJobsSize(jobs[1..], f);
      assert forall j :: j in jobs <==> j == jobs[0] || j in jobs[1..];
    }
  }

  /** Filtering keeps order: it can be done piecewise on the parts of a concatenation. */
  lemma {:induction false} FilterJobsConcat(a: seq<JobListing>, b: seq<JobListing>, f: JobFilter)
    ensures FilterJobs(a + b, f) == FilterJobs(a, f) + FilterJobs(b, f)
  {
    if a == [] {
      SeqFacts.AppendEmpty(a, b);
    } else {
      var head := if ApplyFilters(a[0], f) then [a[0]] else [];
      SeqFacts.SplitFront(a, b);
      calc {
        FilterJobs(a + b, f);
        head + FilterJobs(a[1..] + b, f);
        { FilterJobsConcat(a[1..], b, f); }
        head + (FilterJobs(a[1..], f) + FilterJobs(b, f));
        { SeqFacts.AppendAssoc(head, FilterJobs(a[1..], f), FilterJobs(b, f)); }
        (head + FilterJobs(a[1..], f)) + FilterJobs(b, f);
      }
    }
  }

  datatype SortMode = ByDate | BySalary | ByRelevance

  /** The `sortBy` switch: "date", "salary", and anything else (including "relevance" and none) by relevance. */
  function SortModeOf(f: JobFilter): SortMode {
    var v := Get(f, SortBy);
    if v == Str("date") then ByDate
    else if v == Str("salary") then BySalary
    else ByRelevance
  }

  /** The number `sortJobs` compares, larger first; a missing `salaryMax` counts as 0. */
  function SortKey(job: JobListing, mode: SortMode): int {
    match mode
    case ByDate => job.postedAt
    case BySalary => job.salaryMax.GetOr(0)
    case ByRelevance => job.relevanceScore
  }

  function KeyFor(mode: SortMode): JobListing -> int {
    j => SortKey(j, mode)
  }

  /**
   * `processResults`: the jobs that satisfy the filter, each as often as it was
   * fetched, ordered by the sort key (largest first), ties in fetched order.
   */
  function ProcessResults(jobs: seq<JobListing>, f: JobFilter): (r: seq<JobListing>)
    ensures forall j :: multiset(r)[j] == if ApplyFilters(j, f) then multiset(jobs)[j] else 0
    ensures forall j :: j in r ==> ApplyFilters(j, f)
    ensures StableSort.NonIncreasing(r, KeyFor(SortModeOf(f)))
    ensures StableSort.SameTies(r, FilterJobs(jobs, f), KeyFor(SortModeOf(f)))
  {
    var kept := FilterJobs(jobs, f);
    var key := KeyFor(SortModeOf(f));
    FilterJobsCount(jobs, f);
    StableSort.SortNonIncreasing(kept, key);
    var r := StableSort.Sort(kept, key);
    assert forall j :: j in r ==> j in multiset(kept);
    r
  }

  /** Sorting keeps the number of jobs the filter kept. */
  lemma ProcessResultsSize(jobs: seq<JobListing>, f: JobFilter)
    ensures |ProcessResults(jobs, f)| == |FilterJobs(jobs, f)|
  {
    FilterJobsCount(jobs, f);
    assert multiset(ProcessResults(jobs, f)) == multiset(FilterJobs(jobs, f));
  }
}
