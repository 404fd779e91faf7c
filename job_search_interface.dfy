/**
 * The search page (JobSearchInterface.tsx): the filter panel's state, the
 * handlers that edit the selected filters, the active-filter chips and the
 * rule that offers "Load More Jobs".
 */
module JobSearchPanel {
  import opened Wrappers
  import opened Jobs
  import opened FilterObject
  import JobSearchHook
  import JobMatching
  import JobApi

  /** `initialFilters` */
  const InitialFilters: JobFilter :=
    [Prop(Keyword, Str("")), Prop(Location, Str("")), Prop(Page, Num(1)), Prop(Limit, Num(20)), Prop(SortBy, Str("relevance"))]

  /** A chip is shown for a property whose value is truthy and whose key is not page, limit or sortBy. */
  predicate ShowsChip(p: Prop) {
    Truthy(p.value) && p.field != Page && p.field != Limit && p.field != SortBy
  }

  /** The chips of `Object.entries(selectedFilters)`, in property order. */
  function ActiveChips(f: JobFilter): (r: seq<Prop>)
    ensures forall p :: p in r <==> p in f && ShowsChip(p)
  {
    if f == [] then []
    else
      assert forall p :: p in f <==> p == f[0] || p in f[1..];
      (if ShowsChip(f[0]) then [f[0]] else []) + ActiveChips(f[1..])
  }

  /** The page starts with no chips: its only truthy values are page, limit and sortBy. */
  lemma InitialFiltersHaveNoChips()
    ensures ActiveChips(InitialFilters) == []
    ensures DistinctFields(InitialFilters)
  {
    var f := InitialFilters;
    assert forall p :: p in f ==> !ShowsChip(p);
    NoChipsShown(f);
    DistinctFive(f[0], f[1], f[2], f[3], f[4]);
  }

  lemma DistinctFive(a: Prop, b: Prop, c: Prop, d: Prop, e: Prop)
    requires a.field != b.field && a.field != c.field && a.field != d.field && a.field != e.field
    requires b.field != c.field && b.field != d.field && b.field != e.field
    requires c.field != d.field && c.field != e.field && d.field != e.field
    ensures DistinctFields([a, b, c, d, e])
  {
  }

  /** A filter none of whose properties shows a chip has no chips. */
  lemma {:induction false} NoChipsShown(f: JobFilter)
    requires forall p :: p in f ==> !ShowsChip(p)
    ensures ActiveChips(f) == []
  {
    if f != [] {
      assert f[0] in f;
      NoChipsShown(f[1..]);
    }
  }

  /** Clearing a filter hides its chip and keeps every other chip. */
  lemma ClearFilterChips(f: JobFilter, k: Field)
    requires DistinctFields(f)
    ensures forall p :: p in ActiveChips(Put(f, k, Undefined)) <==> p in ActiveChips(f) && p.field != k
  {
    var r := Put(f, k, Undefined);
    PutElements(f, k, Undefined);
    forall p ensures p in r && ShowsChip(p) <==> p in f && ShowsChip(p) && p.field != k {
      if p in r && ShowsChip(p) {
        var i :| 0 <= i < |r| && r[i] == p;
        assert i < |f| ==> r[i] == if f[i].field == k then Prop(k, Undefined) else f[i];
      }
      if p in f && ShowsChip(p) && p.field != k {
        var i :| 0 <= i < |f| && f[i] == p;
        assert r[i] == p;
      }
    }
  }

  /**
   * "Load More Jobs" is offered once results are on show (not loading, no
   * error, at least one job) and fewer jobs are shown than the total.
   */
  predicate ShowLoadMore(loading: bool, error: Option<JobSearchHook.Error>, jobs: seq<JobListing>, total: nat) {
    !loading && error.None? && |jobs| != 0 && |jobs| < total
  }

  /**
   * For a response built from the fetched jobs, the button is offered exactly
   * when some fetched job passes the filter and some fails it: the page then
   * holds at least one job and fewer than the fetched total.
   */
  lemma LoadMoreAfterSearch(fetched: seq<JobListing>, f: JobFilter)
    ensures var r := JobApi.BuildResponse(fetched, f);
      ShowLoadMore(false, None, r.jobs, r.total) <==>
        (exists j :: j in fetched && JobMatching.ApplyFilters(j, f))
        && (exists j :: j in fetched && !JobMatching.ApplyFilters(j, f))
  {
    JobMatching.FilterJobsSize(fetched, f);
    JobMatching.ProcessResultsSize(fetched, f);
  }

  /**
   * A fetch and the render after it: on success the button is offered exactly
   * when the response holds some jobs but fewer than its total; after a
   * failure it is not offered.
   */
  method FetchThenOfferLoadMore(hook: JobSearchHook.JobSearch, outcome: JobSearchHook.SearchSettled)
    returns (offered: bool)
    modifies hook
    ensures !hook.loading && hook.filters == old(hook.filters)
    ensures outcome.Resolved? ==>
      hook.error == None && hook.jobs == outcome.response.jobs
      && hook.total == outcome.response.total && hook.facets == outcome.response.facets
    ensures !outcome.Resolved? ==>
      (hook.error == Some(JobSearchHook.ErrorOf(outcome)) && hook.jobs == old(hook.jobs)
       && hook.total == old(hook.total) && hook.facets == old(hook.facets))
    ensures offered == ShowLoadMore(hook.loading, hook.error, hook.jobs, hook.total)
    ensures outcome.Resolved? ==>
      (offered <==> 0 < |outcome.response.jobs| < outcome.response.total)
    ensures !outcome.Resolved? ==> !offered
  {
    JobSearchHook.Fetch(hook, outcome);
    offered := ShowLoadMore(hook.loading, hook.error, hook.jobs, hook.total);
  }

  class SearchPanel {
    var showFilters: bool
    var selectedFilters: JobFilter

    constructor()
      ensures !showFilters && selectedFilters == InitialFilters
    {
      showFilters := false;
      selectedFilters := InitialFilters;
    }

    /** `handleFilterChange(key, value)`: `{...prev, [key]: value}` */
    method HandleFilterChange(key: Field, value: Value)
      modifies this
      ensures selectedFilters == Put(old(selectedFilters), key, value)
      ensures showFilters == old(showFilters)
    {
      selectedFilters := Put(selectedFilters, key, value);
    }

    /**
     * Typing `n` into the "Min" or "Max" salary box:
     * `handleFilterChange('salary', {...selectedFilters.salary, [b]: n})`.
     * The number is set, the other box keeps its number (or stays unset), and
     * no other property changes.
     */
    method SalaryChange(b: Bound, n: int)
      modifies this
      ensures selectedFilters == Put(old(selectedFilters), Salary, WithBound(Get(old(selectedFilters), Salary), b, n))
      ensures BoundOf(Get(selectedFilters, Salary), b) == Some(n)
      ensures DistinctBounds(Get(old(selectedFilters), Salary)) ==>
        DistinctBounds(Get(selectedFilters, Salary))
        && BoundOf(Get(selectedFilters, Salary), Other(b)) == BoundOf(Get(old(selectedFilters), Salary), Other(b))
      ensures forall k :: k != Salary ==> Get(selectedFilters, k) == Get(old(selectedFilters), k)
      ensures showFilters == old(showFilters)
    {
      var salary := WithBound(Get(selectedFilters, Salary), b, n);
      forall k ensures Get(Put(selectedFilters, Salary, salary), k) == if k == Salary then salary else Get(selectedFilters, k) {
        GetPut(selectedFilters, Salary, salary, k);
      }
      if DistinctBounds(Get(selectedFilters, Salary)) {
        WithBoundSpec(Get(selectedFilters, Salary), b, n, Other(b));
      }
      HandleFilterChange(Salary, salary);
    }

    /** `clearFilter(key)`: `{...prev, [key]: undefined}` */
    method ClearFilter(key: Field)
      modifies this
      ensures selectedFilters == Put(old(selectedFilters), key, Undefined)
      ensures Get(selectedFilters, key) == Undefined
      ensures showFilters == old(showFilters)
    {
      GetPut(selectedFilters, key, Undefined, key);
      selectedFilters := Put(selectedFilters, key, Undefined);
    }

    /** "Clear all filters": back to `initialFilters`, panel closed. */
    method ClearAll()
      modifies this
      ensures selectedFilters == InitialFilters && !showFilters
    {
      selectedFilters := InitialFilters;
      showFilters := false;
    }

    /** The "Filters" button. */
    method ToggleFilters()
      modifies this
      ensures showFilters == !old(showFilters) && selectedFilters == old(selectedFilters)
    {
      showFilters := !showFilters;
    }

    /** "Apply Filters" closes the panel; submitting the form hands the selected filters to `search`. */
    method ApplyAndSearch(hook: JobSearchHook.JobSearch)
      modifies this, hook
      ensures !showFilters && selectedFilters == old(selectedFilters)
      ensures hook.filters == JobSearchHook.SearchFilters(old(hook.filters), selectedFilters)
      ensures hook.jobs == old(hook.jobs) && hook.total == old(hook.total)
      ensures hook.loading == old(hook.loading) && hook.error == old(hook.error)
      ensures hook.facets == old(hook.facets)
    {
      showFilters := false;
      hook.Search(selectedFilters);
    }
  }
}
