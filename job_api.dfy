/**
 * The search facade (jobApi.ts, class `JobAPI`): a per-source request counter
 * with a cap, a result cache keyed by the filter's JSON text with a freshness
 * window, and the fan-out over the three sources whose results are filtered,
 * sorted and counted into facets.
 *
 * The clock is a parameter (`now` when the cache is consulted, `completedAt`
 * when the response is stored); the timer that gives a request slot back is the
 * explicit method `Release`; what each source's API call does once admitted is
 * an input `Delivery`.
 */
module JobApi {
  import opened Wrappers
  import opened Jobs
  import opened FilterObject
  import CacheKey
  import JobMatching
  import FacetTables

  const CacheDuration: int := 5 * 60 * 1000
  const MaxRequests: nat := 100
  /** How long an admitted request holds its slot; the timer itself is `Release`. */
  const TimeWindow: int := 60 * 1000
  const Sources: seq<string> := ["indeed", "linkedin", "glassdoor"]

  datatype CacheEntry = CacheEntry(data: SearchResponse, timestamp: int)

  /** What a source's API call does once it is admitted: resolve with listings, or throw. */
  datatype Delivery = Delivers(jobs: seq<JobListing>) | Throws(error: string)

  /** One settled promise of `Promise.allSettled`. */
  datatype Settled = Fulfilled(value: seq<JobListing>) | Rejected(reason: string)

  function RateLimitMessage(source: string): string {
    "Rate limit exceeded for " + source
  }

  /** `rateLimiter.get(source) || 0` */
  function CountIn(counts: map<string, nat>, source: string): nat {
    if source in counts then counts[source] else 0
  }

  predicate Bounded(counts: map<string, nat>) {
    forall s :: s in counts ==> counts[s] <= MaxRequests
  }

  /** The counts after `checkRateLimit(source)`: one more request, unless the cap is reached. */
  function Admit(counts: map<string, nat>, source: string): map<string, nat> {
    var n := CountIn(counts, source);
    if n >= MaxRequests then counts else counts[source := n + 1]
  }

  /** The counts after the timer of `checkRateLimit` fires: `(get(source) || 1) - 1`. */
  function Released(counts: map<string, nat>, source: string): map<string, nat> {
    var n := CountIn(counts, source);
    counts[source := if n == 0 then 0 else n - 1]
  }

  /** Admission counts exactly the source asked about, and only below the cap. */
  lemma AdmitSpec(counts: map<string, nat>, source: string, other: string)
    ensures CountIn(Admit(counts, source), other) ==
      if other == source && CountIn(counts, source) < MaxRequests then CountIn(counts, source) + 1
      else CountIn(counts, other)
    ensures Bounded(counts) ==> Bounded(Admit(counts, source))
  {
  }

  /** A release gives back one slot of the source, never going below zero, and touches nothing else. */
  lemma ReleasedSpec(counts: map<string, nat>, source: string, other: string)
    ensures CountIn(Released(counts, source), other) ==
      if other == source then (if CountIn(counts, source) == 0 then 0 else CountIn(counts, source) - 1)
      else CountIn(counts, other)
    ensures Bounded(counts) ==> Bounded(Released(counts, source))
  {
  }

  /** The settled result of `fetchFromSource(source)` against the counts before its check. */
  function FetchOutcome(counts: map<string, nat>, source: string, delivery: Delivery): Settled {
    if CountIn(counts, source) >= MaxRequests then Rejected(RateLimitMessage(source))
    else if source !in Sources then Fulfilled([])
    else match delivery
      case Delivers(jobs) => Fulfilled(jobs)
      case Throws(e) => Rejected(e)
  }

  /**
   * `sources.map(source => this.fetchFromSource(source, filters))`: each call
   * runs its rate check before the next call starts, so the checks happen in
   * list order. The results and the counts after the first `i` sources.
   */
  function FanOut(counts: map<string, nat>, sources: seq<string>, deliveries: seq<Delivery>): (seq<Settled>, map<string, nat>)
    requires |sources| == |deliveries|
  {
    if sources == [] then ([], counts)
    else
      var n := |sources| - 1;
      var (results, c) := FanOut(counts, sources[..n], deliveries[..n]);
      (results + [FetchOutcome(c, sources[n], deliveries[n])], Admit(c, sources[n]))
  }

  /** `results.filter(fulfilled).flatMap(r => r.value)`: the fulfilled values, in result order. */
  function FulfilledJobs(results: seq<Settled>): seq<JobListing> {
    if results == [] then []
    else (match results[0] case Fulfilled(v) => v case Rejected(_) => []) + FulfilledJobs(results[1..])
  }

  /** The response built from the fetched jobs: `total` and the facets are over all of them, not the filtered ones. */
  function BuildResponse(jobs: seq<JobListing>, f: JobFilter): SearchResponse {
    SearchResponse(JobMatching.ProcessResults(jobs, f), |jobs|, FacetTables.FacetsOf(jobs))
  }

  /** The end of `searchJobs`: the facets by `generateFacets`, the page by `processResults`. */
  method Respond(jobs: seq<JobListing>, f: JobFilter) returns (response: SearchResponse)
    ensures response == BuildResponse(jobs, f)
  {
    var facets := FacetTables.GenerateFacets(jobs);
    response := SearchResponse(JobMatching.ProcessResults(jobs, f), |jobs|, facets);
  }

  /** `cached && Date.now() - cached.timestamp < CACHE_DURATION` */
  predicate IsFresh(cache: map<string, CacheEntry>, key: string, now: int) {
    key in cache && now - cache[key].timestamp < CacheDuration
  }

  /** What the cache answers for a filter at time `now`, if anything. */
  function Lookup(cache: map<string, CacheEntry>, f: JobFilter, now: int): Option<SearchResponse> {
    var key := CacheKey.GetCacheKey(f);
    if IsFresh(cache, key, now) then Some(cache[key].data) else None
  }

  class JobApi {
    var cache: map<string, CacheEntry>
    var rateLimiter: map<string, nat>

    /** No source is ever counted past the cap. */
    ghost predicate Valid()
      reads this
    {
      Bounded(rateLimiter)
    }

    constructor()
      ensures cache == map[] && rateLimiter == map[]
      ensures Valid()
    {
      cache := map[];
      rateLimiter := map[];
    }

    function Count(source: string): nat
      reads this
    {
      CountIn(rateLimiter, source)
    }

    /** `checkRateLimit`: refuse at the cap, otherwise count the request. */
    method CheckRateLimit(source: string) returns (allowed: bool)
      modifies this`rateLimiter
      ensures allowed <==> old(Count(source)) < MaxRequests
      ensures rateLimiter == Admit(old(rateLimiter), source)
      ensures cache == old(cache)
      ensures old(Valid()) ==> Valid()
    {
      var requests := Count(source);
      if requests >= MaxRequests {
        return false;
      }
      rateLimiter := rateLimiter[source := requests + 1];
      return true;
    }

    /** The `setTimeout` callback of `checkRateLimit`, fired `TimeWindow` after an admitted request. */
    method Release(source: string)
      modifies this`rateLimiter
      ensures rateLimiter == Released(old(rateLimiter), source)
      ensures Count(source) == if old(Count(source)) == 0 then 0 else old(Count(source)) - 1
      ensures cache == old(cache)
      ensures old(Valid()) ==> Valid()
    {
      var n := Count(source);
      rateLimiter := rateLimiter[source := if n == 0 then 0 else n - 1];
    }

    /** `fetchFromSource`: the rate check, then the source's API call. */
    method FetchFromSource(source: string, delivery: Delivery) returns (result: Settled)
      modifies this`rateLimiter
      ensures result == FetchOutcome(old(rateLimiter), source, delivery)
      ensures rateLimiter == Admit(old(rateLimiter), source)
      ensures cache == old(cache)
      ensures old(Valid()) ==> Valid()
    {
      var allowed := CheckRateLimit(source);
      if !allowed {
        return Rejected(RateLimitMessage(source));
      }
      if source !in Sources {
        return Fulfilled([]);
      }
      match delivery
      case Delivers(jobs) => result := Fulfilled(jobs);
      case Throws(e) => result := Rejected(e);
    }

    /** `Promise.allSettled(sources.map(fetchFromSource))`: each source in turn, one result per source. */
    method FetchAll(deliveries: seq<Delivery>) returns (results: seq<Settled>)
      requires |deliveries| == |Sources|
      modifies this`rateLimiter
      ensures (results, rateLimiter) == FanOut(old(rateLimiter), Sources, deliveries)
      ensures old(Valid()) ==> Valid()
    {
      results := [];
      var i := 0;
      while i < |Sources|
        invariant 0 <= i <= |Sources|
        invariant (results, rateLimiter) == FanOut(old(rateLimiter), Sources[..i], deliveries[..i])
        invariant old(Valid()) ==> Valid()
      {
        assert Sources[..i + 1][..i] == Sources[..i] && deliveries[..i + 1][..i] == deliveries[..i];
        var r := FetchFromSource(Sources[i], deliveries[i]);
        results := results + [r];
        i := i + 1;
      }
      assert Sources[..i] == Sources && deliveries[..i] == deliveries;
    }

    /**
     * `searchJobs`: a fresh cache entry for the filter's key is returned as it is;
     * otherwise the three sources are asked in order, the response is built
     * from the fulfilled results and stored under the key.
     */
    method SearchJobs(filters: JobFilter, now: int, deliveries: seq<Delivery>, completedAt: int)
      returns (response: SearchResponse)
      requires |deliveries| == |Sources|
      modifies this
      ensures var key := CacheKey.GetCacheKey(filters);
        if IsFresh(old(cache), key, now) then
          response == old(cache)[key].data && cache == old(cache) && rateLimiter == old(rateLimiter)
        else
          var (results, counts) := FanOut(old(rateLimiter), Sources, deliveries);
          && response == BuildResponse(FulfilledJobs(results), filters)
          && rateLimiter == counts
          && cache == old(cache)[key := CacheEntry(response, completedAt)]
      ensures old(Valid()) ==> Valid()
    {
      var key := CacheKey.GetCacheKey(filters);
      if key in cache && now - cache[key].timestamp < CacheDuration {
        return cache[key].data;
      }
      var results := FetchAll(deliveries);
      response := Respond(FulfilledJobs(results), filters);
      cache := cache[key := CacheEntry(response, completedAt)];
    }
  }

  // ---------------------------------------------------------------------
  // Properties of the fan-out, the response and the cache.

  /** The jobs a source contributes: its listings if it was under the cap and its call resolved, else nothing. */
  function Contribution(counts: map<string, nat>, source: string, delivery: Delivery): seq<JobListing> {
    if CountIn(counts, source) < MaxRequests && source in Sources && delivery.Delivers? then delivery.jobs else []
  }

  lemma FulfilledJobsConcat(a: seq<Settled>, b: seq<Settled>)
    ensures FulfilledJobs(a + b) == FulfilledJobs(a) + FulfilledJobs(b)
  {
    if a == [] {
      assert a + b == b;
    } else {
      assert (a + b)[0] == a[0];
      assert (a + b)[1..] == a[1..] + b;
    }
  }

  lemma ContributionOf(counts: map<string, nat>, source: string, delivery: Delivery)
    ensures FulfilledJobs([FetchOutcome(counts, source, delivery)]) == Contribution(counts, source, delivery)
  {
    assert [FetchOutcome(counts, source, delivery)][1..] == [];
  }

  /** The fan-out over the three sources, unfolded. */
  lemma FanOutUnfolded(counts: map<string, nat>, deliveries: seq<Delivery>)
    requires |deliveries| == |Sources|
    ensures var c1 := Admit(counts, Sources[0]);
      var c2 := Admit(c1, Sources[1]);
      && FanOut(counts, Sources, deliveries).0 ==
           [FetchOutcome(counts, Sources[0], deliveries[0]), FetchOutcome(c1, Sources[1], deliveries[1]),
            FetchOutcome(c2, Sources[2], deliveries[2])]
      && FanOut(counts, Sources, deliveries).1 == Admit(c2, Sources[2])
  {
    var c1 := Admit(counts, Sources[0]);
    var c2 := Admit(c1, Sources[1]);
    var r0 := FetchOutcome(counts, Sources[0], deliveries[0]);
    var r1 := FetchOutcome(c1, Sources[1], deliveries[1]);
    assert Sources[..1][..0] == [] && deliveries[..1][..0] == [];
    assert Sources[..1][0] == Sources[0] && deliveries[..1][0] == deliveries[0];
    assert FanOut(counts, Sources[..1], deliveries[..1]).0 == [] + [r0] == [r0];
    assert FanOut(counts, Sources[..1], deliveries[..1]).1 == c1;
    assert Sources[..2][..1] == Sources[..1] && deliveries[..2][..1] == deliveries[..1];
    assert Sources[..2][1] == Sources[1] && deliveries[..2][1] == deliveries[1];
    assert FanOut(counts, Sources[..2], deliveries[..2]).0 == [r0] + [r1] == [r0, r1];
    assert FanOut(counts, Sources[..2], deliveries[..2]).1 == c2;
    assert Sources[..2] == Sources[..|Sources| - 1] && deliveries[..2] == deliveries[..|deliveries| - 1];
  }

  /** Within one search the three sources are distinct, so each is judged against the counts before the search. */
  lemma FanOutAgainstOldCounts(counts: map<string, nat>, deliveries: seq<Delivery>)
    requires |deliveries| == |Sources|
    ensures FanOut(counts, Sources, deliveries).0 ==
      [FetchOutcome(counts, Sources[0], deliveries[0]), FetchOutcome(counts, Sources[1], deliveries[1]),
       FetchOutcome(counts, Sources[2], deliveries[2])]
  {
    FanOutUnfolded(counts, deliveries);
    var c1 := Admit(counts, Sources[0]);
    AdmitSpec(counts, Sources[0], Sources[1]);
    AdmitSpec(counts, Sources[0], Sources[2]);
    AdmitSpec(c1, Sources[1], Sources[2]);
  }

  /**
   * The fetched jobs are the contributions of indeed, linkedin and glassdoor,
   * in that order, each judged against the counts before the search: a source
   * at the cap, or whose call throws, contributes nothing.
   */
  lemma FetchedJobsInSourceOrder(counts: map<string, nat>, deliveries: seq<Delivery>)
    requires |deliveries| == |Sources|
    ensures FulfilledJobs(FanOut(counts, Sources, deliveries).0) ==
      Contribution(counts, Sources[0], deliveries[0])
      + Contribution(counts, Sources[1], deliveries[1])
      + Contribution(counts, Sources[2], deliveries[2])
  {
    FanOutAgainstOldCounts(counts, deliveries);
    var r0 := FetchOutcome(counts, Sources[0], deliveries[0]);
    var r1 := FetchOutcome(counts, Sources[1], deliveries[1]);
    var r2 := FetchOutcome(counts, Sources[2], deliveries[2]);
    assert [r0, r1, r2] == [r0] + ([r1] + [r2]);
    FulfilledJobsConcat([r0], [r1] + [r2]);
    FulfilledJobsConcat([r1], [r2]);
    ContributionOf(counts, Sources[0], deliveries[0]);
    ContributionOf(counts, Sources[1], deliveries[1]);
    ContributionOf(counts, Sources[2], deliveries[2]);
  }

  /** Each source's count goes up by one if it was under the cap, and no other count changes. */
  lemma FanOutCounts(counts: map<string, nat>, deliveries: seq<Delivery>, s: string)
    requires |deliveries| == |Sources|
    ensures CountIn(FanOut(counts, Sources, deliveries).1, s) ==
      if s in Sources && CountIn(counts, s) < MaxRequests then CountIn(counts, s) + 1 else CountIn(counts, s)
  {
    FanOutUnfolded(counts, deliveries);
    var c1 := Admit(counts, Sources[0]);
    var c2 := Admit(c1, Sources[1]);
    AdmitSpec(counts, Sources[0], s);
    AdmitSpec(c1, Sources[1], s);
    AdmitSpec(c2, Sources[2], s);
    AdmitSpec(counts, Sources[0], Sources[1]);
    AdmitSpec(counts, Sources[0], Sources[2]);
    AdmitSpec(c1, Sources[1], Sources[2]);
  }

  /**
   * A built response: `total` counts every fetched job, so it is at least the
   * number of jobs returned, and each facet table counts the fetched jobs.
   */
  lemma BuildResponseSpec(jobs: seq<JobListing>, f: JobFilter)
    ensures var r := BuildResponse(jobs, f);
      && r.total == |jobs|
      && |r.jobs| <= r.total
      && FacetTables.IsFacetTableFor(r.facets.companies, FacetTables.ValuesOf(jobs, FacetTables.CompanyField))
      && FacetTables.IsFacetTableFor(r.facets.locations, FacetTables.ValuesOf(jobs, FacetTables.LocationField))
      && FacetTables.IsFacetTableFor(r.facets.jobTypes, FacetTables.ValuesOf(jobs, FacetTables.JobTypeField))
      && FacetTables.IsFacetTableFor(r.facets.experienceLevels, FacetTables.ValuesOf(jobs, FacetTables.ExperienceLevelField))
      && FacetTables.IsFacetTableFor(r.facets.industries, FacetTables.ValuesOf(jobs, FacetTables.IndustryField))
  {
    JobMatching.FilterJobsSize(jobs, f);
    JobMatching.ProcessResultsSize(jobs, f);
    FacetTables.FacetsOfSpec(jobs);
  }

  /**
   * After a response is stored for `f` at `t`, the cache answers every filter
   * whose defined properties are those of `f`, in the same order, with that
   * response until the window closes; every other filter gets what it got before.
   */
  lemma LookupAfterStore(cache: map<string, CacheEntry>, f: JobFilter, resp: SearchResponse, t: int, g: JobFilter, now: int)
    ensures var stored := cache[CacheKey.GetCacheKey(f) := CacheEntry(resp, t)];
      if CacheKey.Defined(g) == CacheKey.Defined(f) then
        Lookup(stored, g, now) == (if now - t < CacheDuration then Some(resp) else None)
      else
        Lookup(stored, g, now) == Lookup(cache, g, now)
  {
    CacheKey.CacheKeyInjective(f, g);
  }
}
