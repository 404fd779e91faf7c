/**
 * Facet tables (jobApi.ts, `generateFacets`, `incrementMapCount`,
 * `mapToSortedArray`). A JavaScript `Map` iterates in insertion order, so the
 * count table is a list of entries in the order values were first seen; the
 * published table is that list stably sorted by count, largest first.
 */
module FacetTables {
  import opened Jobs
  import StableSort
  import SeqFacts

  /** How many times `v` occurs in `vs`. */
  function Occurrences(vs: seq<string>, v: string): nat {
    if vs == [] then 0
    else Occurrences(vs[..|vs| - 1], v) + (if vs[|vs| - 1] == v then 1 else 0)
  }

  /** The position of the first occurrence of `v` in `vs`. */
  function FirstIndex(vs: seq<string>, v: string): (k: nat)
    requires v in vs
    ensures k < |vs| && vs[k] == v && v !in vs[..k]
  {
    if vs[0] == v then 0 else 1 + FirstIndex(vs[1..], v)
  }

  predicate HasValue(t: seq<FacetEntry>, v: string) {
    exists i :: 0 <= i < |t| && t[i].value == v
  }

  predicate DistinctValues(t: seq<FacetEntry>) {
    forall i, j :: 0 <= i < j < |t| ==> t[i].value != t[j].value
  }

  function SumCounts(t: seq<FacetEntry>): nat {
    if t == [] then 0 else t[0].count + SumCounts(t[1..])
  }

  /** `map.set(value, (map.get(value) || 0) + 1)`: bump the entry where it stands, or append a new one. */
  function IncrementMapCount(t: seq<FacetEntry>, v: string): seq<FacetEntry> {
    if t == [] then [FacetEntry(v, 1)]
    else if t[0].value == v then [FacetEntry(v, t[0].count + 1)] + t[1..]
    else [t[0]] + IncrementMapCount(t[1..], v)
  }

  /** The count table after `incrementMapCount` for each of `vs` in turn, starting from an empty map. */
  function TallyOf(vs: seq<string>): seq<FacetEntry> {
    if vs == [] then [] else IncrementMapCount(TallyOf(vs[..|vs| - 1]), vs[|vs| - 1])
  }

  const ByCount: FacetEntry -> int := (e: FacetEntry) => e.count as int

  /** `mapToSortedArray`: entries sorted by count, largest first, ties in map order. */
  function MapToSortedArray(t: seq<FacetEntry>): seq<FacetEntry> {
    StableSort.Sort(t, ByCount)
  }

  /** The facet table of one field, given the field's value in each fetched job. */
  function FacetTable(vs: seq<string>): seq<FacetEntry> {
    MapToSortedArray(TallyOf(vs))
  }

  /**
   * What a facet table promises about the values it was built from: every value
   * once, with its number of occurrences, counts adding up to the number of jobs,
   * largest count first, and entries with equal counts in first-seen order.
   */
  ghost predicate IsFacetTableFor(r: seq<FacetEntry>, vs: seq<string>) {
    && DistinctValues(r)
    && (forall i :: 0 <= i < |r| ==> r[i].count == Occurrences(vs, r[i].value))
    && (forall v :: v in vs <==> HasValue(r, v))
    && SumCounts(r) == |vs|
    && StableSort.NonIncreasing(r, ByCount)
    && StableSort.SameTies(r, TallyOf(vs), ByCount)
  }

  lemma SumCountsConcat(a: seq<FacetEntry>, b: seq<FacetEntry>)
    ensures SumCounts(a + b) == SumCounts(a) + SumCounts(b)
  {
    if a == [] {
      assert a + b == b;
    } else {
      assert (a + b)[0] == a[0];
      assert (a + b)[1..] == a[1..] + b;
      SumCountsConcat(a[1..], b);
    }
  }

  lemma {:induction false} OccurrencesOfPrefix(vs: seq<string>, v: string)
    requires v !in vs
    ensures Occurrences(vs, v) == 0
  {
    if vs != [] {
      OccurrencesOfPrefix(vs[..|vs| - 1], v);
    }
  }

  lemma FirstIndexSnoc(vs: seq<string>, x: string, v: string)
    requires v in vs
    ensures FirstIndex(vs + [x], v) == FirstIndex(vs, v)
  {
    var w := vs + [x];
    var k, k' := FirstIndex(vs, v), FirstIndex(w, v);
    assert forall i :: 0 <= i < k' ==> w[..k'][i] == w[i];
    assert w[k] == v;
    assert k' <= k;
    assert vs[k'] == w[k'];
    assert forall i :: 0 <= i < k ==> vs[..k][i] == vs[i];
  }

  /** Bumping adds one to the sum of the counts. */
  lemma {:induction false} IncrementSum(t: seq<FacetEntry>, v: string)
    ensures SumCounts(IncrementMapCount(t, v)) == SumCounts(t) + 1
  {
    if t == [] {
    } else if t[0].value == v {
      SeqFacts.Uncons(FacetEntry(v, t[0].count + 1), t[1..]);
    } else {
      var r' := IncrementMapCount(t[1..], v);
      IncrementSum(t[1..], v);
      SeqFacts.Uncons(t[0], r');
    }
  }

  /** A value not in the table gets a new entry with count 1 at the end. */
  lemma {:induction false} IncrementNew(t: seq<FacetEntry>, v: string)
    requires !HasValue(t, v)
    ensures IncrementMapCount(t, v) == t + [FacetEntry(v, 1)]
  {
    if t != [] {
      var t' := t[1..];
      assert !HasValue(t', v) by {
        forall i | 0 <= i < |t'| ensures t'[i].value != v {
          assert t'[i] == t[i + 1];
        }
      }
      IncrementNew(t', v);
      SeqFacts.SplitFront(t, [FacetEntry(v, 1)]);
    }
  }

  /** The count of a table's own entries bumped where they stand, one at the value and none elsewhere. */
  ghost predicate BumpedAt(r: seq<FacetEntry>, t: seq<FacetEntry>, v: string) {
    |r| == |t|
    && forall i :: 0 <= i < |t| ==>
         r[i] == FacetEntry(t[i].value, t[i].count + (if t[i].value == v then 1 else 0))
  }

  /** A value already in a table of distinct values is bumped in place. */
  lemma {:induction false} IncrementFound(t: seq<FacetEntry>, v: string)
    requires DistinctValues(t) && HasValue(t, v)
    ensures BumpedAt(IncrementMapCount(t, v), t, v)
  {
    var r := IncrementMapCount(t, v);
    if t[0].value == v {
      assert forall i :: 1 <= i < |t| ==> t[i].value != v;
      SeqFacts.Uncons(FacetEntry(v, t[0].count + 1), t[1..]);
    } else {
      var t' := t[1..];
      var r' := IncrementMapCount(t', v);
      assert HasValue(t', v) by {
        var i :| 0 <= i < |t| && t[i].value == v;
        assert t'[i - 1].value == v;
      }
      assert DistinctValues(t');
      IncrementFound(t', v);
      SeqFacts.Uncons(t[0], r');
      forall i | 0 <= i < |t|
        ensures r[i] == FacetEntry(t[i].value, t[i].count + (if t[i].value == v then 1 else 0))
      {
        if i > 0 {
          assert r[i] == r'[i - 1] && t[i] == t'[i - 1];
        }
      }
    }
  }

  /** Bumping keeps a table's values distinct. */
  lemma IncrementDistinct(t: seq<FacetEntry>, v: string)
    requires DistinctValues(t)
    ensures DistinctValues(IncrementMapCount(t, v))
  {
    var r := IncrementMapCount(t, v);
    if HasValue(t, v) {
      IncrementFound(t, v);
      assert forall i :: 0 <= i < |r| ==> r[i].value == t[i].value;
    } else {
      IncrementNew(t, v);
      forall i, j | 0 <= i < j < |r| ensures r[i].value != r[j].value {
        if j < |t| {
          assert r[i] == t[i] && r[j] == t[j];
        } else {
          assert r[i] == t[i] && r[j].value == v;
        }
      }
    }
  }

  /** What one `incrementMapCount` does to a table whose values are distinct. */
  lemma IncrementSpec(t: seq<FacetEntry>, v: string)
    requires DistinctValues(t)
    ensures var r := IncrementMapCount(t, v);
      && DistinctValues(r)
      && SumCounts(r) == SumCounts(t) + 1
      && (HasValue(t, v) ==>
            |r| == |t| && forall i :: 0 <= i < |t| ==>
              r[i] == FacetEntry(t[i].value, t[i].count + (if t[i].value == v then 1 else 0)))
      && (!HasValue(t, v) ==> r == t + [FacetEntry(v, 1)])
  {
    IncrementDistinct(t, v);
    IncrementSum(t, v);
    if HasValue(t, v) {
      IncrementFound(t, v);
    } else {
      IncrementNew(t, v);
    }
  }

  /** One bump keeps the values distinct and adds the bumped value to them. */
  lemma ValuesStep(t: seq<FacetEntry>, p: seq<string>, x: string)
    requires DistinctValues(t)
    requires forall v :: v in p <==> HasValue(t, v)
    ensures var r := IncrementMapCount(t, x);
      && DistinctValues(r)
      && (forall v :: v in p + [x] <==> HasValue(r, v))
  {
    var r := IncrementMapCount(t, x);
    IncrementDistinct(t, x);
    if HasValue(t, x) {
      IncrementFound(t, x);
    } else {
      IncrementNew(t, x);
      assert r[|t|].value == x;
    }
    ValuesGrown(t, r, x);
    assert forall v :: v in p + [x] <==> v in p || v == x;
  }

  /** A table that keeps the old values in place and holds `x`, and nothing else, after them. */
  lemma ValuesGrown(t: seq<FacetEntry>, r: seq<FacetEntry>, x: string)
    requires |t| <= |r| && forall i :: 0 <= i < |t| ==> r[i].value == t[i].value
    requires forall i :: |t| <= i < |r| ==> r[i].value == x
    requires HasValue(t, x) || HasValue(r, x)
    ensures forall v :: HasValue(r, v) <==> HasValue(t, v) || v == x
  {
    forall v ensures HasValue(r, v) <==> HasValue(t, v) || v == x {
      if HasValue(t, v) {
        var i :| 0 <= i < |t| && t[i].value == v;
        assert r[i].value == v;
      }
      if HasValue(r, v) {
        var i :| 0 <= i < |r| && r[i].value == v;
        if i < |t| {
          assert t[i].value == v;
        }
      }
    }
  }

  /** The count table holds each seen value once, and only seen values. */
  lemma {:induction false} TallyOfValues(vs: seq<string>)
    ensures var t := TallyOf(vs);
      && DistinctValues(t)
      && (forall v :: v in vs <==> HasValue(t, v))
  {
    if vs != [] {
      var n := |vs|;
      var p, x := vs[..n - 1], vs[n - 1];
      TallyOfValues(p);
      ValuesStep(TallyOf(p), p, x);
      assert vs == p + [x];
    }
  }

  /** Each entry's count is the number of times its value was seen, and the counts add up. */
  lemma {:induction false} TallyOfCounts(vs: seq<string>)
    ensures var t := TallyOf(vs);
      && (forall i :: 0 <= i < |t| ==> t[i].count == Occurrences(vs, t[i].value))
      && SumCounts(t) == |vs|
  {
    if vs != [] {
      var n := |vs|;
      var p, x := vs[..n - 1], vs[n - 1];
      assert vs == p + [x];
      TallyOfCounts(p);
      TallyOfValues(p);
      var t := TallyOf(p);
      IncrementSpec(t, x);
      var r := TallyOf(vs);
      assert r == IncrementMapCount(t, x);
      assert forall v :: Occurrences(vs, v) == Occurrences(p, v) + (if x == v then 1 else 0);
      if !HasValue(t, x) {
        OccurrencesOfPrefix(p, x);
      }
    }
  }

  /** Every entry's value occurs in `vs`, and entries stand in the order their values were first seen. */
  ghost predicate FirstSeenOrder(t: seq<FacetEntry>, vs: seq<string>) {
    && (forall i :: 0 <= i < |t| ==> t[i].value in vs)
    && (forall i, j :: 0 <= i < j < |t| ==> FirstIndex(vs, t[i].value) < FirstIndex(vs, t[j].value))
  }

  /** A value seen for the first time at the end has its first occurrence there. */
  lemma FirstIndexLast(p: seq<string>, x: string)
    requires x !in p
    ensures FirstIndex(p + [x], x) == |p|
  {
    var w := p + [x];
    assert forall i :: 0 <= i < |p| ==> w[i] == p[i];
  }

  /** One bump keeps the entries in first-seen order. */
  lemma OrderStep(t: seq<FacetEntry>, p: seq<string>, x: string)
    requires FirstSeenOrder(t, p) && DistinctValues(t)
    requires forall v :: v in p <==> HasValue(t, v)
    ensures FirstSeenOrder(IncrementMapCount(t, x), p + [x])
  {
    var vs := p + [x];
    var r := IncrementMapCount(t, x);
    if HasValue(t, x) {
      IncrementFound(t, x);
    } else {
      IncrementNew(t, x);
      assert x !in p;
      FirstIndexLast(p, x);
    }
    assert |t| <= |r| && forall i :: 0 <= i < |t| ==> r[i].value == t[i].value;
    assert forall i :: |t| <= i < |r| ==> r[i].value == x;
    forall i | 0 <= i < |r| ensures r[i].value in vs {
      if i < |t| {
        assert t[i].value in p;
      }
    }
    forall i, j | 0 <= i < j < |r| ensures FirstIndex(vs, r[i].value) < FirstIndex(vs, r[j].value) {
      FirstIndexSnoc(p, x, t[i].value);
      if j < |t| {
        FirstIndexSnoc(p, x, t[j].value);
      }
    }
  }

  lemma {:induction false} TallyOfOrder(vs: seq<string>)
    ensures FirstSeenOrder(TallyOf(vs), vs)
  {
    if vs != [] {
      var n := |vs|;
      var p, x := vs[..n - 1], vs[n - 1];
      TallyOfOrder(p);
      TallyOfValues(p);
      OrderStep(TallyOf(p), p, x);
      assert vs == p + [x];
    }
  }

  lemma {:induction false} DistinctMultiplicity(a: seq<FacetEntry>)
    requires DistinctValues(a)
    ensures forall x :: multiset(a)[x] <= 1
  {
    if a != [] {
      assert a == [a[0]] + a[1..];
      assert DistinctValues(a[1..]);
      DistinctMultiplicity(a[1..]);
      assert a[0] !in a[1..];
    }
  }

  lemma TwoPositions<T>(b: seq<T>, i: int, j: int)
    requires 0 <= i < j < |b| && b[i] == b[j]
    ensures multiset(b)[b[i]] >= 2
  {
    assert b == b[..j] + b[j..];
    assert b[..j][i] == b[i] && b[j..][0] == b[j];
  }

  /** Rearranging a table keeps its values distinct. */
  lemma DistinctValuesPermutation(a: seq<FacetEntry>, b: seq<FacetEntry>)
    requires multiset(a) == multiset(b) && DistinctValues(a)
    ensures DistinctValues(b)
  {
    DistinctMultiplicity(a);
    forall i, j | 0 <= i < j < |b| ensures b[i].value != b[j].value {
      assert b[i] != b[j] by {
        if b[i] == b[j] { TwoPositions(b, i, j); }
      }
      assert b[i] in multiset(a) && b[j] in multiset(a);
      var p :| 0 <= p < |a| && a[p] == b[i];
      var q :| 0 <= q < |a| && a[q] == b[j];
      assert p != q;
    }
  }

  /** Taking one entry out of a table takes its count out of the sum. */
  lemma RemoveAtSum(b: seq<FacetEntry>, k: int)
    requires 0 <= k < |b|
    ensures SumCounts(b) == b[k].count + SumCounts(b[..k] + b[k + 1..])
  {
    var left, x, right := b[..k], b[k], b[k + 1..];
    assert b == (left + [x]) + right;
    SumCountsConcat(left + [x], right);
    SumCountsConcat(left, [x]);
    SumCountsConcat(left, right);
    assert SumCounts([x]) == x.count;
  }

  /** Rearranging a table keeps the sum of its counts. */
  lemma {:induction false} SumCountsPermutation(a: seq<FacetEntry>, b: seq<FacetEntry>)
    requires multiset(a) == multiset(b)
    ensures SumCounts(a) == SumCounts(b)
  {
    if a == [] {
      assert |multiset(b)| == 0;
    } else {
      var x := a[0];
      assert x in multiset(b);
      var k :| 0 <= k < |b| && b[k] == x;
      var b' := b[..k] + b[k + 1..];
      SeqFacts.MultisetRemoveAt(b, k);
      SeqFacts.MultisetTail(a);
      SumCountsPermutation(a[1..], b');
      RemoveAtSum(b, k);
    }
  }

  /** A rearranged table keeps each entry's count-occurrence agreement and the values it holds. */
  lemma EntriesPermutation(t: seq<FacetEntry>, r: seq<FacetEntry>, vs: seq<string>)
    requires multiset(r) == multiset(t)
    requires forall i :: 0 <= i < |t| ==> t[i].count == Occurrences(vs, t[i].value)
    ensures forall i :: 0 <= i < |r| ==> r[i].count == Occurrences(vs, r[i].value)
    ensures forall v :: HasValue(t, v) <==> HasValue(r, v)
  {
    forall i | 0 <= i < |r| ensures r[i].count == Occurrences(vs, r[i].value) && HasValue(t, r[i].value) {
      assert r[i] in multiset(t);
      var p :| 0 <= p < |t| && t[p] == r[i];
    }
    forall v | HasValue(t, v) ensures HasValue(r, v) {
      var p :| 0 <= p < |t| && t[p].value == v;
      assert t[p] in multiset(r);
      var i :| 0 <= i < |r| && r[i] == t[p];
    }
  }

  /** The published table of a field meets every promise of `IsFacetTableFor`. */
  lemma FacetTableSpec(vs: seq<string>)
    ensures IsFacetTableFor(FacetTable(vs), vs)
  {
    var t := TallyOf(vs);
    var r := FacetTable(vs);
    TallyOfValues(vs);
    TallyOfCounts(vs);
    StableSort.SortNonIncreasing(t, ByCount);
    DistinctValuesPermutation(t, r);
    SumCountsPermutation(t, r);
    EntriesPermutation(t, r, vs);
  }

  /** The facet fields, in the order `generateFacets` visits them. */
  datatype FacetField = CompanyField | LocationField | JobTypeField | ExperienceLevelField | IndustryField

  function FieldOf(job: JobListing, f: FacetField): string {
    match f
    case CompanyField => job.company
    case LocationField => job.location
    case JobTypeField => job.jobType
    case ExperienceLevelField => job.experienceLevel
    case IndustryField => job.industry
  }

  /** The value of field `f` in each job, in job order. */
  function ValuesOf(jobs: seq<JobListing>, f: FacetField): (vs: seq<string>)
    ensures |vs| == |jobs| && forall i :: 0 <= i < |jobs| ==> vs[i] == FieldOf(jobs[i], f)
  {
    seq(|jobs|, i requires 0 <= i < |jobs| => FieldOf(jobs[i], f))
  }

  /** One more value seen: the table of a longer prefix is the table of the shorter one, bumped. */
  lemma TallyStep(vs: seq<string>, i: int)
    requires 0 <= i < |vs|
    ensures TallyOf(vs[..i + 1]) == IncrementMapCount(TallyOf(vs[..i]), vs[i])
  {
    assert vs[..i + 1][..i] == vs[..i];
  }

  /** The five facet tables of a list of jobs. */
  function FacetsOf(jobs: seq<JobListing>): Facets {
    Facets(FacetTable(ValuesOf(jobs, CompanyField)), FacetTable(ValuesOf(jobs, LocationField)),
           FacetTable(ValuesOf(jobs, JobTypeField)), FacetTable(ValuesOf(jobs, ExperienceLevelField)),
           FacetTable(ValuesOf(jobs, IndustryField)))
  }

  lemma FacetsOfSpec(jobs: seq<JobListing>)
    ensures var facets := FacetsOf(jobs);
      && IsFacetTableFor(facets.companies, ValuesOf(jobs, CompanyField))
      && IsFacetTableFor(facets.locations, ValuesOf(jobs, LocationField))
      && IsFacetTableFor(facets.jobTypes, ValuesOf(jobs, JobTypeField))
      && IsFacetTableFor(facets.experienceLevels, ValuesOf(jobs, ExperienceLevelField))
      && IsFacetTableFor(facets.industries, ValuesOf(jobs, IndustryField))
  {
    FacetTableSpec(ValuesOf(jobs, CompanyField));
    FacetTableSpec(ValuesOf(jobs, LocationField));
    FacetTableSpec(ValuesOf(jobs, JobTypeField));
    FacetTableSpec(ValuesOf(jobs, ExperienceLevelField));
    FacetTableSpec(ValuesOf(jobs, IndustryField));
  }

  /** The `forEach` callback of `generateFacets`: bump each of the five count tables for one job. */
  function CountJob(tables: Facets, job: JobListing): Facets {
    Facets(IncrementMapCount(tables.companies, job.company),
           IncrementMapCount(tables.locations, job.location),
           IncrementMapCount(tables.jobTypes, job.jobType),
           IncrementMapCount(tables.experienceLevels, job.experienceLevel),
           IncrementMapCount(tables.industries, job.industry))
  }

  /** The five count tables, unsorted, after the callback has run for each job in turn. */
  function Tallies(jobs: seq<JobListing>): Facets {
    if jobs == [] then EmptyFacets else CountJob(Tallies(jobs[..|jobs| - 1]), jobs[|jobs| - 1])
  }

  function TableOf(tables: Facets, f: FacetField): seq<FacetEntry> {
    match f
    case CompanyField => tables.companies
    case LocationField => tables.locations
    case JobTypeField => tables.jobTypes
    case ExperienceLevelField => tables.experienceLevels
    case IndustryField => tables.industries
  }

  lemma CountJobField(tables: Facets, job: JobListing, f: FacetField)
    ensures TableOf(CountJob(tables, job), f) == IncrementMapCount(TableOf(tables, f), FieldOf(job, f))
  {
  }

  /** Each of the five tables is the count table of its own field. */
  lemma {:induction false} TalliesField(jobs: seq<JobListing>, f: FacetField)
    ensures TableOf(Tallies(jobs), f) == TallyOf(ValuesOf(jobs, f))
  {
    if jobs != [] {
      var n := |jobs|;
      var p := jobs[..n - 1];
      var vs := ValuesOf(jobs, f);
      TalliesField(p, f);
      CountJobField(Tallies(p), jobs[n - 1], f);
      assert vs[..n - 1] == ValuesOf(p, f);
      assert TallyOf(vs) == IncrementMapCount(TallyOf(vs[..n - 1]), vs[n - 1]);
    }
  }

  /** The returned object of `generateFacets`: each count table passed through `mapToSortedArray`. */
  function SortTables(tables: Facets): Facets {
    Facets(MapToSortedArray(tables.companies), MapToSortedArray(tables.locations),
           MapToSortedArray(tables.jobTypes), MapToSortedArray(tables.experienceLevels),
           MapToSortedArray(tables.industries))
  }

  lemma SortedTalliesAreFacets(jobs: seq<JobListing>)
    ensures SortTables(Tallies(jobs)) == FacetsOf(jobs)
  {
    var tables := Tallies(jobs);
    TalliesField(jobs, CompanyField);
    assert tables.companies == TallyOf(ValuesOf(jobs, CompanyField));
    TalliesField(jobs, LocationField);
    assert tables.locations == TallyOf(ValuesOf(jobs, LocationField));
    TalliesField(jobs, JobTypeField);
    assert tables.jobTypes == TallyOf(ValuesOf(jobs, JobTypeField));
    TalliesField(jobs, ExperienceLevelField);
    assert tables.experienceLevels == TallyOf(ValuesOf(jobs, ExperienceLevelField));
    TalliesField(jobs, IndustryField);
    assert tables.industries == TallyOf(ValuesOf(jobs, IndustryField));
  }

  /**
   * `generateFacets`: one pass over the jobs bumping five count tables, then
   * each table sorted by count.
   */
  method GenerateFacets(jobs: seq<JobListing>) returns (facets: Facets)
    ensures facets == FacetsOf(jobs)
    ensures IsFacetTableFor(facets.companies, ValuesOf(jobs, CompanyField))
    ensures IsFacetTableFor(facets.locations, ValuesOf(jobs, LocationField))
    ensures IsFacetTableFor(facets.jobTypes, ValuesOf(jobs, JobTypeField))
    ensures IsFacetTableFor(facets.experienceLevels, ValuesOf(jobs, ExperienceLevelField))
    ensures IsFacetTableFor(facets.industries, ValuesOf(jobs, IndustryField))
  {
    var tables := EmptyFacets;
    var i := 0;
    while i < |jobs|
      invariant 0 <= i <= |jobs|
      invariant tables == Tallies(jobs[..i])
    {
      assert jobs[..i + 1][..i] == jobs[..i];
      tables := CountJob(tables, jobs[i]);
      i := i + 1;
    }
    assert jobs[..i] == jobs;
    SortedTalliesAreFacets(jobs);
    FacetsOfSpec(jobs);
    facets := SortTables(tables);
  }
}
