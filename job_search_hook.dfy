/**
 * The search controller (useJobSearch.ts): the hook's state, the fetch
 * lifecycle around `jobApi.searchJobs`, and the two filter transitions.
 * The awaited search is split in two: `BeginFetch` runs up to the await and
 * `EndFetch` runs the rest with the call's outcome as a parameter.
 */
module JobSearchHook {
  import opened Wrappers
  import opened Jobs
  import opened FilterObject

  datatype Error = Error(message: string)

  /** What `searchJobs` settled with: a response, or something thrown (an `Error` or any other value). */
  datatype SearchSettled = Resolved(response: SearchResponse) | ThrewError(err: Error) | ThrewOther

  /** `err instanceof Error ? err : new Error('Failed to fetch jobs')` */
  function ErrorOf(thrown: SearchSettled): Error
    requires !thrown.Resolved?
  {
    if thrown.ThrewError? then thrown.err else Error("Failed to fetch jobs")
  }

  /** `{...prev, ...newFilters, page: 1}` */
  function SearchFilters(prev: JobFilter, newFilters: JobFilter): JobFilter {
    Put(Spread(prev, newFilters), Page, Num(1))
  }

  /** `(prev.page || 1) + 1` with JavaScript's `+`: a number adds, a non-empty string concatenates. */
  function NextPage(page: Value): Value {
    match page
    case Num(n) => if n == 0 then Num(2) else Num(n + 1)
    case Undefined => Num(2)
    case Bool(_) => Num(2)
    case Str(s) => if s == "" then Num(2) else Str(s + "1")
    case Range(_, _) => Str("[object Object]1")
  }

  /** `{...prev, page: (prev.page || 1) + 1}` */
  function LoadMoreFilters(prev: JobFilter): JobFilter {
    Put(prev, Page, NextPage(Get(prev, Page)))
  }

  /**
   * `search(p)`: every field of `p` overrides the current one, every other field
   * is kept, and the page is 1 even when `p` carries a page; the current fields
   * keep their places.
   */
  lemma SearchFiltersSpec(prev: JobFilter, p: JobFilter, k: Field)
    requires DistinctFields(p)
    ensures Get(SearchFilters(prev, p), k) ==
      if k == Page then Num(1) else if Has(p, k) then Get(p, k) else Get(prev, k)
  {
    GetPut(Spread(prev, p), Page, Num(1), k);
    GetSpread(prev, p, k);
  }

  /** The fields already set keep their places; new ones come after them. */
  lemma SearchFiltersKeepsOrder(prev: JobFilter, p: JobFilter)
    ensures |SearchFilters(prev, p)| >= |prev|
    ensures Keys(SearchFilters(prev, p))[..|prev|] == Keys(prev)
  {
    var s := Spread(prev, p);
    SpreadKeepsOrder(prev, p);
    var r := Put(s, Page, Num(1));
    PutShape(s, Page, Num(1));
    assert forall i :: 0 <= i < |prev| ==> Keys(r)[i] == Keys(s)[i];
    assert forall i :: 0 <= i < |prev| ==> Keys(r)[..|prev|][i] == Keys(s)[..|prev|][i];
  }

  /** `loadMore` moves a numbered page on by one, starts an unset page at 2, and changes no other field. */
  lemma LoadMoreSpec(prev: JobFilter, k: Field)
    ensures Get(LoadMoreFilters(prev), k) == if k == Page then NextPage(Get(prev, Page)) else Get(prev, k)
    ensures Get(prev, Page) == Undefined ==> Get(LoadMoreFilters(prev), Page) == Num(2)
    ensures forall n :: Get(prev, Page) == Num(n) && n >= 1 ==> Get(LoadMoreFilters(prev), Page) == Num(n + 1)
  {
    GetPut(prev, Page, NextPage(Get(prev, Page)), k);
    GetPut(prev, Page, NextPage(Get(prev, Page)), Page);
  }

  class JobSearch {
    var filters: JobFilter
    var jobs: seq<JobListing>
    var loading: bool
    var error: Option<Error>
    var facets: Facets
    var total: nat

    /** The hook's initial state: no jobs, empty facets, nothing loading, no error. */
    constructor(initialFilters: JobFilter)
      ensures filters == initialFilters
      ensures jobs == [] && facets == EmptyFacets && total == 0
      ensures !loading && error == None
    {
      filters := initialFilters;
      jobs := [];
      loading := false;
      error := None;
      facets := EmptyFacets;
      total := 0;
    }

    /** `fetchJobs` up to the await: loading on, error cleared. */
    method BeginFetch()
      modifies this
      ensures loading && error == None
      ensures filters == old(filters) && jobs == old(jobs) && facets == old(facets) && total == old(total)
    {
      loading := true;
      error := None;
    }

    /** `fetchJobs` after the await: the response's fields on success, the error on failure, then loading off. */
    method EndFetch(outcome: SearchSettled)
      modifies this
      ensures !loading
      ensures filters == old(filters)
      ensures outcome.Resolved? ==>
        jobs == outcome.response.jobs && facets == outcome.response.facets
        && total == outcome.response.total && error == old(error)
      ensures !outcome.Resolved? ==>
        error == Some(ErrorOf(outcome)) && jobs == old(jobs) && facets == old(facets) && total == old(total)
    {
      if outcome.Resolved? {
        jobs := outcome.response.jobs;
        facets := outcome.response.facets;
        total := outcome.response.total;
      } else {
        error := Some(ErrorOf(outcome));
      }
      loading := false;
    }

    method Search(newFilters: JobFilter)
      modifies this
      ensures filters == SearchFilters(old(filters), newFilters)
      ensures jobs == old(jobs) && loading == old(loading) && error == old(error)
      ensures facets == old(facets) && total == old(total)
    {
      filters := Put(Spread(filters, newFilters), Page, Num(1));
    }

    method LoadMore()
      modifies this
      ensures filters == LoadMoreFilters(old(filters))
      ensures jobs == old(jobs) && loading == old(loading) && error == old(error)
      ensures facets == old(facets) && total == old(total)
    {
      filters := Put(filters, Page, NextPage(Get(filters, Page)));
    }
  }

  /** A whole fetch: it always ends with loading off, and a failure leaves the shown results alone. */
  method Fetch(hook: JobSearch, outcome: SearchSettled)
    modifies hook
    ensures !hook.loading && hook.filters == old(hook.filters)
    ensures outcome.Resolved? ==>
      hook.error == None && hook.jobs == outcome.response.jobs
      && hook.total == outcome.response.total && hook.facets == outcome.response.facets
    ensures !outcome.Resolved? ==>
      (hook.error == Some(ErrorOf(outcome)) && hook.jobs == old(hook.jobs)
       && hook.total == old(hook.total) && hook.facets == old(hook.facets))
  {
    hook.BeginFetch();
    hook.EndFetch(outcome);
  }
}
