/**
 * The job-search card (EnhancedJobSearch.tsx): a job query and a location
 * query, each with a suggestion list computed by an effect from a fixed list
 * of common titles or locations, and three select filters.
 *
 * React runs an effect after a render in which its dependency changed; the
 * class keeps, per effect, the query value at its last run, and
 * `RunEffects` is that step.
 */
module EnhancedJobSearch {
  import opened Text
  import SeqFacts

  datatype JobSuggestionType = JobKind | CompanyKind | RecentKind
  datatype JobSuggestion = JobSuggestion(id: string, title: string, kind: JobSuggestionType)

  datatype LocationType = City | RemoteLocation
  datatype LocationSuggestion = LocationSuggestion(id: string, name: string, kind: LocationType)

  /** The queries shorter than this hide their suggestion list. */
  const MinQueryLength := 2

  const CommonJobTitles := ["Software Engineer", "Product Manager", "Data Scientist", "UX Designer",
                            "Marketing Manager", "Sales Representative", "Frontend Developer",
                            "Backend Developer", "Full Stack Developer", "DevOps Engineer"]

  const CommonLocations := [LocationSuggestion("1", "Remote", RemoteLocation),
                            LocationSuggestion("2", "San Francisco, CA", City),
                            LocationSuggestion("3", "New York, NY", City),
                            LocationSuggestion("4", "Seattle, WA", City),
                            LocationSuggestion("5", "Austin, TX", City)]

  predicate NoSpace(s: string) {
    forall i :: 0 <= i < |s| ==> !IsSpace(s[i])
  }

  /** `s.toLowerCase().replace(/\s+/g, '-')` */
  function Slug(s: string): (r: string)
    ensures NoSpace(r)
    decreases |s|
  {
    if s == [] then []
    else if IsSpace(s[0]) then "-" + Slug(TrimStart(s[1..]))
    else [LowerChar(s[0])] + Slug(s[1..])
  }

  /** A word without white space is only lower-cased. */
  lemma {:induction false} SlugOfWord(a: string)
    requires NoSpace(a)
    ensures Slug(a) == Lower(a)
  {
    if a != [] {
      SlugOfWord(a[1..]);
      LowerCons(a);
    }
  }

  /** A run of white space between a word and the rest becomes exactly one "-". */
  lemma {:induction false} SlugOfRun(a: string, w: string, b: string)
    requires NoSpace(a) && w != [] && AllSpace(w) && (b == [] || !IsSpace(b[0]))
    ensures Slug(a + w + b) == Lower(a) + "-" + Slug(b)
  {
    if a == [] {
      assert a + w + b == w + b;
      SkipRun(w, b);
    } else {
      var s := a + w + b;
      SeqFacts.AppendAssoc(a, w, b);
      SeqFacts.SplitFront(a, w + b);
      SeqFacts.AppendAssoc(a[1..], w, b);
      SlugOfRun(a[1..], w, b);
      LowerCons(a);
      assert Slug(s) == [LowerChar(a[0])] + (Lower(a[1..]) + "-" + Slug(b));
      SeqFacts.RegroupFront([LowerChar(a[0])], Lower(a[1..]), "-", Slug(b));
    }
  }

  /** Trimming the start of a white-space run followed by the rest leaves the rest. */
  lemma {:induction false} SkipRun(w: string, b: string)
    requires w != [] && AllSpace(w) && (b == [] || !IsSpace(b[0]))
    ensures Slug(w + b) == "-" + Slug(b)
  {
    assert (w + b)[0] == w[0];
    assert (w + b)[1..] == w[1..] + b;
    TrimSpacePrefix(w[1..], b);
  }

  lemma {:induction false} TrimSpacePrefix(w: string, b: string)
    requires AllSpace(w) && (b == [] || !IsSpace(b[0]))
    ensures TrimStart(w + b) == b
  {
    if w == [] {
      assert w + b == b;
    } else {
      assert (w + b)[0] == w[0];
      assert (w + b)[1..] == w[1..] + b;
      TrimSpacePrefix(w[1..], b);
    }
  }

  /** `titles.filter(title => title.toLowerCase().includes(query.toLowerCase()))` */
  function MatchingTitles(titles: seq<string>, query: string): (r: seq<string>)
    ensures forall t :: t in r <==> t in titles && ContainsIgnoringCase(t, query)
  {
    if titles == [] then []
    else (if ContainsIgnoringCase(titles[0], query) then [titles[0]] else []) + MatchingTitles(titles[1..], query)
  }

  /** Filtering keeps list order: it works piecewise on a concatenation. */
  lemma {:induction false} MatchingTitlesConcat(a: seq<string>, b: seq<string>, query: string)
    ensures MatchingTitles(a + b, query) == MatchingTitles(a, query) + MatchingTitles(b, query)
  {
    if a == [] {
      SeqFacts.AppendEmpty(a, b);
    } else {
      var head := if ContainsIgnoringCase(a[0], query) then [a[0]] else [];
      SeqFacts.SplitFront(a, b);
      calc {
        MatchingTitles(a + b, query);
        head + MatchingTitles(a[1..] + b, query);
        { MatchingTitlesConcat(a[1..], b, query); }
        head + (MatchingTitles(a[1..], query) + MatchingTitles(b, query));
        { SeqFacts.AppendAssoc(head, MatchingTitles(a[1..], query), MatchingTitles(b, query)); }
        (head + MatchingTitles(a[1..], query)) + MatchingTitles(b, query);
      }
    }
  }

  /** The job suggestions for the matching titles: id the slug, type 'job'. */
  function JobSuggestionsFor(titles: seq<string>, query: string): (r: seq<JobSuggestion>)
    ensures var m := MatchingTitles(titles, query);
            |r| == |m| && forall i :: 0 <= i < |r| ==> r[i] == JobSuggestion(Slug(m[i]), m[i], JobKind)
  {
    var m := MatchingTitles(titles, query);
    seq(|m|, i requires 0 <= i < |m| => JobSuggestion(Slug(m[i]), m[i], JobKind))
  }

  /** Every job suggestion is a common title containing the query, with a white-space-free id. */
  lemma JobSuggestionsSpec(titles: seq<string>, query: string)
    ensures forall s :: s in JobSuggestionsFor(titles, query) ==>
              s.title in titles && ContainsIgnoringCase(s.title, query) && NoSpace(s.id) && s.kind == JobKind
  {
    var r := JobSuggestionsFor(titles, query);
    var m := MatchingTitles(titles, query);
    forall s | s in r
      ensures s.title in titles && ContainsIgnoringCase(s.title, query) && NoSpace(s.id) && s.kind == JobKind
    {
      var i :| 0 <= i < |r| && r[i] == s;
      assert m[i] in m;
    }
  }

  /** `commonLocations.filter(loc => loc.name.toLowerCase().includes(query.toLowerCase()))` */
  function MatchingLocations(locations: seq<LocationSuggestion>, query: string): (r: seq<LocationSuggestion>)
    ensures forall l :: l in r <==> l in locations && ContainsIgnoringCase(l.name, query)
  {
    if locations == [] then []
    else (if ContainsIgnoringCase(locations[0].name, query) then [locations[0]] else [])
         + MatchingLocations(locations[1..], query)
  }

  lemma {:induction false} MatchingLocationsConcat(a: seq<LocationSuggestion>, b: seq<LocationSuggestion>, query: string)
    ensures MatchingLocations(a + b, query) == MatchingLocations(a, query) + MatchingLocations(b, query)
  {
    if a == [] {
      SeqFacts.AppendEmpty(a, b);
    } else {
      var head := if ContainsIgnoringCase(a[0].name, query) then [a[0]] else [];
      SeqFacts.SplitFront(a, b);
      calc {
        MatchingLocations(a + b, query);
        head + MatchingLocations(a[1..] + b, query);
        { MatchingLocationsConcat(a[1..], b, query); }
        head + (MatchingLocations(a[1..], query) + MatchingLocations(b, query));
        { SeqFacts.AppendAssoc(head, MatchingLocations(a[1..], query), MatchingLocations(b, query)); }
        (head + MatchingLocations(a[1..], query)) + MatchingLocations(b, query);
      }
    }
  }

  /** What one run of the job-query effect leaves: a list and whether it is shown. */
  datatype JobList = JobList(shown: bool, items: seq<JobSuggestion>)

  /**
   * The job-query effect: a query of two or more characters shows the
   * suggestions for it; a shorter one hides the list and keeps the old items.
   */
  function JobEffect(query: string, current: JobList): (r: JobList)
    ensures r.shown <==> |query| >= MinQueryLength
    ensures r.shown ==> r.items == JobSuggestionsFor(CommonJobTitles, query)
    ensures !r.shown ==> r.items == current.items
  {
    if |query| >= MinQueryLength then JobList(true, JobSuggestionsFor(CommonJobTitles, query))
    else current.(shown := false)
  }

  datatype LocationList = LocationList(shown: bool, items: seq<LocationSuggestion>)

  /** The location-query effect: the same rule over the common locations, by name. */
  function LocationEffect(query: string, current: LocationList): (r: LocationList)
    ensures r.shown <==> |query| >= MinQueryLength
    ensures r.shown ==> r.items == MatchingLocations(CommonLocations, query)
    ensures !r.shown ==> r.items == current.items
  {
    if |query| >= MinQueryLength then LocationList(true, MatchingLocations(CommonLocations, query))
    else current.(shown := false)
  }

  /**
   * The job-query effect as React runs it after a render: only when the query
   * differs from the one it last ran on.
   */
  function JobEffectAfter(seen: string, query: string, current: JobList): JobList {
    if query != seen then JobEffect(query, current) else current
  }

  /**
   * The click handler as written, followed by the render it causes: the
   * handler hides the list, but the query changed, so the effect runs again
   * and shows it again for any title of two or more characters.
   */
  function ClickAsWritten(lastQuery: string, current: JobList, s: JobSuggestion): (r: JobList)
    ensures r.shown <==> s.title != lastQuery && |s.title| >= MinQueryLength
    ensures r.items == if r.shown then JobSuggestionsFor(CommonJobTitles, s.title) else current.items
  {
    JobEffectAfter(lastQuery, s.title, current.(shown := false))
  }

  /** Picking a suggestion whose title differs from the typed query leaves the list open. */
  lemma ClickReopensList(lastQuery: string, current: JobList, s: JobSuggestion)
    requires s.title != lastQuery && |s.title| >= MinQueryLength
    ensures ClickAsWritten(lastQuery, current, s).shown
  {
  }

  /**
   * Picking one of the common titles other than the typed query reopens a list
   * that holds at least that title's own suggestion, so the list renders.
   */
  lemma ClickReopensCommonTitle(lastQuery: string, current: JobList, s: JobSuggestion)
    requires s.title in CommonJobTitles && s.title != lastQuery
    ensures var r := ClickAsWritten(lastQuery, current, s);
            r.shown && JobSuggestion(Slug(s.title), s.title, JobKind) in r.items
  {
    assert forall t :: t in CommonJobTitles ==> |t| >= MinQueryLength;
    assert Lower(s.title) <= Lower(s.title);
    var m := MatchingTitles(CommonJobTitles, s.title);
    assert s.title in m;
    var i :| 0 <= i < |m| && m[i] == s.title;
    assert JobSuggestionsFor(CommonJobTitles, s.title)[i] == JobSuggestion(Slug(s.title), s.title, JobKind);
  }

  /**
   * Typing "so" (the effect shows its list) and then picking "Software
   * Engineer" leaves a non-empty list shown.
   */
  lemma ClickReopensListExample()
    ensures var typed := JobEffect("so", JobList(false, []));
            var r := ClickAsWritten("so", typed, JobSuggestion("software-engineer", "Software Engineer", JobKind));
            typed.shown && r.shown && |r.items| > 0
  {
    ClickReopensCommonTitle("so", JobEffect("so", JobList(false, [])),
                            JobSuggestion("software-engineer", "Software Engineer", JobKind));
  }

  /**
   * The click as evidently intended, followed by its render: the handler also
   * records the picked title as the query the effect has handled, so the
   * effect does not run and the list stays hidden.
   */
  function ClickCorrected(current: JobList, s: JobSuggestion): (r: JobList)
    ensures !r.shown && r.items == current.items
  {
    JobEffectAfter(s.title, s.title, current.(shown := false))
  }

  /** The corrected click differs from the written one exactly when the written one reopens the list. */
  lemma ClickCorrectedAgrees(lastQuery: string, current: JobList, s: JobSuggestion)
    ensures ClickCorrected(current, s) == ClickAsWritten(lastQuery, current, s)
        <==> !ClickAsWritten(lastQuery, current, s).shown
  {
  }

  /** The location-query effect as React runs it: only when the query changed. */
  function LocationEffectAfter(seen: string, query: string, current: LocationList): LocationList {
    if query != seen then LocationEffect(query, current) else current
  }

  /**
   * The location click handler as written, followed by its render: the same
   * reopening as for a job title, for any name of two or more characters.
   */
  function LocationClickAsWritten(lastQuery: string, current: LocationList, s: LocationSuggestion)
    : (r: LocationList)
    ensures r.shown <==> s.name != lastQuery && |s.name| >= MinQueryLength
    ensures r.items == if r.shown then MatchingLocations(CommonLocations, s.name) else current.items
  {
    LocationEffectAfter(lastQuery, s.name, current.(shown := false))
  }

  /** Picking a common location other than the typed query reopens a list holding it. */
  lemma LocationClickReopensList(lastQuery: string, current: LocationList, s: LocationSuggestion)
    requires s in CommonLocations && s.name != lastQuery
    ensures var r := LocationClickAsWritten(lastQuery, current, s); r.shown && s in r.items
  {
    assert forall l :: l in CommonLocations ==> |l.name| >= MinQueryLength;
    assert Lower(s.name) <= Lower(s.name);
  }

  /**
   * Typing "sa" (the effect shows its list) and then picking "San Francisco,
   * CA" leaves a non-empty list shown.
   */
  lemma LocationClickReopensListExample()
    ensures var typed := LocationEffect("sa", LocationList(false, CommonLocations));
            var r := LocationClickAsWritten("sa", typed, CommonLocations[1]);
            typed.shown && r.shown && |r.items| > 0
  {
    LocationClickReopensList("sa", LocationEffect("sa", LocationList(false, CommonLocations)), CommonLocations[1]);
  }

  /**
   * The location click as evidently intended, followed by its render: the
   * picked name is recorded as handled, so the list stays hidden.
   */
  function LocationClickCorrected(current: LocationList, s: LocationSuggestion): (r: LocationList)
    ensures !r.shown && r.items == current.items
  {
    LocationEffectAfter(s.name, s.name, current.(shown := false))
  }

  /** The corrected location click differs from the written one exactly when that one reopens the list. */
  lemma LocationClickCorrectedAgrees(lastQuery: string, current: LocationList, s: LocationSuggestion)
    ensures LocationClickCorrected(current, s) == LocationClickAsWritten(lastQuery, current, s)
        <==> !LocationClickAsWritten(lastQuery, current, s).shown
  {
  }

  datatype SelectField = JobTypeSelect | ExperienceSelect | IndustrySelect
  datatype SelectedFilters = SelectedFilters(jobType: string, experience: string, industry: string)

  /** `{...selectedFilters, [field]: value}` for one select. */
  function WithSelect(f: SelectedFilters, field: SelectField, v: string): (r: SelectedFilters)
    ensures field == JobTypeSelect ==> r == f.(jobType := v)
    ensures field == ExperienceSelect ==> r == f.(experience := v)
    ensures field == IndustrySelect ==> r == f.(industry := v)
  {
    match field
    case JobTypeSelect => f.(jobType := v)
    case ExperienceSelect => f.(experience := v)
    case IndustrySelect => f.(industry := v)
  }

  /** What `handleSearch` acts on: the two queries, when at least one is not blank. */
  datatype SearchRequest = NoSearch | SearchFor(jobQuery: string, locationQuery: string)

  class Card {
    var jobQuery: string
    var locationQuery: string
    var showFilters: bool
    var showJobSuggestions: bool
    var showLocationSuggestions: bool
    var jobSuggestions: seq<JobSuggestion>
    var locationSuggestions: seq<LocationSuggestion>
    var selectedFilters: SelectedFilters
    var jobQuerySeen: string
    var locationQuerySeen: string

    /** The initial render, after its effects: both lists hidden, the location list holding every common location. */
    constructor()
      ensures jobQuery == "" && locationQuery == "" && !showFilters
      ensures !showJobSuggestions && !showLocationSuggestions
      ensures jobSuggestions == [] && locationSuggestions == CommonLocations
      ensures selectedFilters == SelectedFilters("", "", "")
      ensures jobQuerySeen == "" && locationQuerySeen == ""
    {
      jobQuery := "";
      locationQuery := "";
      showFilters := false;
      showJobSuggestions := false;
      showLocationSuggestions := false;
      jobSuggestions := [];
      locationSuggestions := CommonLocations;
      selectedFilters := SelectedFilters("", "", "");
      jobQuerySeen := "";
      locationQuerySeen := "";
    }

    method JobQueryChange(v: string)
      modifies this
      ensures jobQuery == v
      ensures locationQuery == old(locationQuery) && showJobSuggestions == old(showJobSuggestions)
      ensures jobSuggestions == old(jobSuggestions) && jobQuerySeen == old(jobQuerySeen)
      ensures locationQuerySeen == old(locationQuerySeen)
      ensures showFilters == old(showFilters) && selectedFilters == old(selectedFilters)
      ensures showLocationSuggestions == old(showLocationSuggestions)
      ensures locationSuggestions == old(locationSuggestions)
    {
      jobQuery := v;
    }

    method LocationQueryChange(v: string)
      modifies this
      ensures locationQuery == v
      ensures jobQuery == old(jobQuery) && showLocationSuggestions == old(showLocationSuggestions)
      ensures locationSuggestions == old(locationSuggestions) && jobQuerySeen == old(jobQuerySeen)
      ensures locationQuerySeen == old(locationQuerySeen)
      ensures showFilters == old(showFilters) && selectedFilters == old(selectedFilters)
      ensures showJobSuggestions == old(showJobSuggestions) && jobSuggestions == old(jobSuggestions)
    {
      locationQuery := v;
    }

    /** The job-query effect, when the job query changed since its last run. */
    method RunJobEffect()
      modifies this
      ensures jobQuerySeen == jobQuery
      ensures old(jobQuery) != old(jobQuerySeen) ==>
                JobList(showJobSuggestions, jobSuggestions)
                  == JobEffect(jobQuery, JobList(old(showJobSuggestions), old(jobSuggestions)))
      ensures old(jobQuery) == old(jobQuerySeen) ==>
                showJobSuggestions == old(showJobSuggestions) && jobSuggestions == old(jobSuggestions)
      ensures jobQuery == old(jobQuery) && locationQuery == old(locationQuery)
      ensures locationQuerySeen == old(locationQuerySeen)
      ensures showLocationSuggestions == old(showLocationSuggestions)
      ensures locationSuggestions == old(locationSuggestions)
      ensures selectedFilters == old(selectedFilters) && showFilters == old(showFilters)
    {
      if jobQuery != jobQuerySeen {
        var r := JobEffect(jobQuery, JobList(showJobSuggestions, jobSuggestions));
        showJobSuggestions := r.shown;
        jobSuggestions := r.items;
        jobQuerySeen := jobQuery;
      }
    }

    /** The location-query effect, when the location query changed since its last run. */
    method RunLocationEffect()
      modifies this
      ensures locationQuerySeen == locationQuery
      ensures old(locationQuery) != old(locationQuerySeen) ==>
                LocationList(showLocationSuggestions, locationSuggestions)
                  == LocationEffect(locationQuery,
                                    LocationList(old(showLocationSuggestions), old(locationSuggestions)))
      ensures old(locationQuery) == old(locationQuerySeen) ==>
                showLocationSuggestions == old(showLocationSuggestions)
                && locationSuggestions == old(locationSuggestions)
      ensures jobQuery == old(jobQuery) && locationQuery == old(locationQuery)
      ensures jobQuerySeen == old(jobQuerySeen)
      ensures showJobSuggestions == old(showJobSuggestions) && jobSuggestions == old(jobSuggestions)
      ensures selectedFilters == old(selectedFilters) && showFilters == old(showFilters)
    {
      if locationQuery != locationQuerySeen {
        var r := LocationEffect(locationQuery, LocationList(showLocationSuggestions, locationSuggestions));
        showLocationSuggestions := r.shown;
        locationSuggestions := r.items;
        locationQuerySeen := locationQuery;
      }
    }

    /** `handleJobSuggestionClick`: the query becomes the title and the list is hidden. */
    method JobSuggestionClick(s: JobSuggestion)
      modifies this
      ensures jobQuery == s.title && !showJobSuggestions
      ensures jobSuggestions == old(jobSuggestions) && jobQuerySeen == old(jobQuerySeen)
      ensures locationQuery == old(locationQuery) && locationQuerySeen == old(locationQuerySeen)
      ensures showLocationSuggestions == old(showLocationSuggestions)
      ensures locationSuggestions == old(locationSuggestions)
      ensures selectedFilters == old(selectedFilters) && showFilters == old(showFilters)
    {
      jobQuery := s.title;
      showJobSuggestions := false;
    }

    /** A click on a job suggestion and the render after it, as written. */
    method PickJobSuggestion(s: JobSuggestion)
      modifies this
      ensures JobList(showJobSuggestions, jobSuggestions)
           == ClickAsWritten(old(jobQuerySeen), JobList(old(showJobSuggestions), old(jobSuggestions)), s)
      ensures jobQuery == s.title && jobQuerySeen == s.title
      ensures locationQuery == old(locationQuery) && locationQuerySeen == old(locationQuerySeen)
      ensures showLocationSuggestions == old(showLocationSuggestions)
      ensures locationSuggestions == old(locationSuggestions)
      ensures selectedFilters == old(selectedFilters) && showFilters == old(showFilters)
    {
      JobSuggestionClick(s);
      RunJobEffect();
    }

    /**
     * The click handler as evidently intended: besides setting the query and
     * hiding the list, it marks the title as the query the effect has handled.
     */
    method JobSuggestionClickCorrected(s: JobSuggestion)
      modifies this
      ensures jobQuery == s.title && jobQuerySeen == s.title && !showJobSuggestions
      ensures jobSuggestions == old(jobSuggestions)
      ensures locationQuery == old(locationQuery) && locationQuerySeen == old(locationQuerySeen)
      ensures showLocationSuggestions == old(showLocationSuggestions)
      ensures locationSuggestions == old(locationSuggestions)
      ensures selectedFilters == old(selectedFilters) && showFilters == old(showFilters)
    {
      jobQuery := s.title;
      jobQuerySeen := s.title;
      showJobSuggestions := false;
    }

    /** The corrected click and the render after it: the list stays hidden for every title. */
    method PickJobSuggestionCorrected(s: JobSuggestion)
      modifies this
      ensures !showJobSuggestions
      ensures JobList(showJobSuggestions, jobSuggestions)
           == ClickCorrected(JobList(old(showJobSuggestions), old(jobSuggestions)), s)
      ensures jobQuery == s.title && jobQuerySeen == s.title
      ensures locationQuery == old(locationQuery) && locationQuerySeen == old(locationQuerySeen)
      ensures showLocationSuggestions == old(showLocationSuggestions)
      ensures locationSuggestions == old(locationSuggestions)
      ensures selectedFilters == old(selectedFilters) && showFilters == old(showFilters)
    {
      JobSuggestionClickCorrected(s);
      RunJobEffect();
    }

    /** `handleLocationSuggestionClick`: the location query becomes the name and the list is hidden. */
    method LocationSuggestionClick(s: LocationSuggestion)
      modifies this
      ensures locationQuery == s.name && !showLocationSuggestions
      ensures locationSuggestions == old(locationSuggestions) && locationQuerySeen == old(locationQuerySeen)
      ensures jobQuery == old(jobQuery) && jobQuerySeen == old(jobQuerySeen)
      ensures showJobSuggestions == old(showJobSuggestions) && jobSuggestions == old(jobSuggestions)
      ensures selectedFilters == old(selectedFilters) && showFilters == old(showFilters)
    {
      locationQuery := s.name;
      showLocationSuggestions := false;
    }

    /** A click on a location suggestion and the render after it, as written. */
    method PickLocationSuggestion(s: LocationSuggestion)
      modifies this
      ensures LocationList(showLocationSuggestions, locationSuggestions)
           == LocationClickAsWritten(old(locationQuerySeen),
                                     LocationList(old(showLocationSuggestions), old(locationSuggestions)), s)
      ensures locationQuery == s.name && locationQuerySeen == s.name
      ensures jobQuery == old(jobQuery) && jobQuerySeen == old(jobQuerySeen)
      ensures showJobSuggestions == old(showJobSuggestions) && jobSuggestions == old(jobSuggestions)
      ensures selectedFilters == old(selectedFilters) && showFilters == old(showFilters)
    {
      LocationSuggestionClick(s);
      RunLocationEffect();
    }

    /** The location click handler as evidently intended: it also marks the name as handled. */
    method LocationSuggestionClickCorrected(s: LocationSuggestion)
      modifies this
      ensures locationQuery == s.name && locationQuerySeen == s.name && !showLocationSuggestions
      ensures locationSuggestions == old(locationSuggestions)
      ensures jobQuery == old(jobQuery) && jobQuerySeen == old(jobQuerySeen)
      ensures showJobSuggestions == old(showJobSuggestions) && jobSuggestions == old(jobSuggestions)
      ensures selectedFilters == old(selectedFilters) && showFilters == old(showFilters)
    {
      locationQuery := s.name;
      locationQuerySeen := s.name;
      showLocationSuggestions := false;
    }

    /** The corrected location click and the render after it: the list stays hidden. */
    method PickLocationSuggestionCorrected(s: LocationSuggestion)
      modifies this
      ensures !showLocationSuggestions
      ensures LocationList(showLocationSuggestions, locationSuggestions)
           == LocationClickCorrected(LocationList(old(showLocationSuggestions), old(locationSuggestions)), s)
      ensures locationQuery == s.name && locationQuerySeen == s.name
      ensures jobQuery == old(jobQuery) && jobQuerySeen == old(jobQuerySeen)
      ensures showJobSuggestions == old(showJobSuggestions) && jobSuggestions == old(jobSuggestions)
      ensures selectedFilters == old(selectedFilters) && showFilters == old(showFilters)
    {
      LocationSuggestionClickCorrected(s);
      RunLocationEffect();
    }

    /** `handleSearch`: acts only when the job or the location query is not blank. */
    method Search() returns (request: SearchRequest)
      ensures request == if !AllSpace(jobQuery) || !AllSpace(locationQuery)
                         then SearchFor(jobQuery, locationQuery) else NoSearch
    {
      if !IsBlank(jobQuery) || !IsBlank(locationQuery) {
        request := SearchFor(jobQuery, locationQuery);
      } else {
        request := NoSearch;
      }
    }

    /** A select's `onChange`: only its own filter field changes. */
    method SelectChange(field: SelectField, v: string)
      modifies this
      ensures selectedFilters == WithSelect(old(selectedFilters), field, v)
      ensures jobQuery == old(jobQuery) && locationQuery == old(locationQuery) && showFilters == old(showFilters)
      ensures showJobSuggestions == old(showJobSuggestions) && jobSuggestions == old(jobSuggestions)
      ensures showLocationSuggestions == old(showLocationSuggestions)
      ensures locationSuggestions == old(locationSuggestions)
      ensures jobQuerySeen == old(jobQuerySeen) && locationQuerySeen == old(locationQuerySeen)
    {
      selectedFilters := WithSelect(selectedFilters, field, v);
    }

    /** The filters button. */
    method ToggleFilters()
      modifies this
      ensures showFilters == !old(showFilters) && selectedFilters == old(selectedFilters)
      ensures jobQuery == old(jobQuery) && locationQuery == old(locationQuery)
      ensures showJobSuggestions == old(showJobSuggestions) && jobSuggestions == old(jobSuggestions)
      ensures showLocationSuggestions == old(showLocationSuggestions)
      ensures locationSuggestions == old(locationSuggestions)
      ensures jobQuerySeen == old(jobQuerySeen) && locationQuerySeen == old(locationQuerySeen)
    {
      showFilters := !showFilters;
    }
  }
}
