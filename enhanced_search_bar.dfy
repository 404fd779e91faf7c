/**
 * The landing-page search box (EnhancedSearchBar.tsx): query, location,
 * whether the suggestion panel is open, and the list of recent searches,
 * newest first and at most five long.
 */
module EnhancedSearchBar {
  import opened Text

  datatype SuggestionType = Recent | Trending | Job | Company
  datatype Suggestion = Suggestion(id: string, text: string, kind: SuggestionType)

  const MaxRecent := 5

  /** `[newSearch, ...prev.slice(0, 4)]` */
  function PushRecent(prev: seq<Suggestion>, entry: Suggestion): (r: seq<Suggestion>)
    ensures |r| <= MaxRecent && |r| == (if |prev| < MaxRecent - 1 then |prev| else MaxRecent - 1) + 1
    ensures r[0] == entry
    ensures forall i :: 1 <= i < |r| ==> r[i] == prev[i - 1]
  {
    [entry] + (if |prev| <= MaxRecent - 1 then prev else prev[..MaxRecent - 1])
  }

  /** The recent list after the searches `entries`, in the order they were made. */
  function PushAll(prev: seq<Suggestion>, entries: seq<Suggestion>): seq<Suggestion>
    decreases |entries|
  {
    if entries == [] then prev else PushAll(PushRecent(prev, entries[0]), entries[1..])
  }

  function Min(a: int, b: int): int { if a < b then a else b }

  /**
   * After any run of searches the list holds the newest ones, newest first —
   * the last five when there were at least five — followed by the older
   * entries that still fit, and is never longer than five.
   */
  lemma {:induction false} PushAllSpec(prev: seq<Suggestion>, entries: seq<Suggestion>)
    requires |prev| <= MaxRecent
    ensures var r := PushAll(prev, entries);
            |r| == Min(MaxRecent, |prev| + |entries|)
            && (forall i :: 0 <= i < Min(MaxRecent, |entries|) ==> r[i] == entries[|entries| - 1 - i])
            && (forall i :: |entries| <= i < |r| ==> r[i] == prev[i - |entries|])
    decreases |entries|
  {
    if entries != [] {
      var es := entries[1..];
      var p := PushRecent(prev, entries[0]);
      PushAllSpec(p, es);
      var r := PushAll(prev, entries);
      assert r == PushAll(p, es);
      forall i | 0 <= i < Min(MaxRecent, |entries|)
        ensures r[i] == entries[|entries| - 1 - i]
      {
        if i < |es| {
          assert r[i] == es[|es| - 1 - i];
        } else {
          assert r[i] == p[i - |es|];
        }
      }
    }
  }

  class Bar {
    var query: string
    var location: string
    var showSuggestions: bool
    var recentSearches: seq<Suggestion>

    ghost predicate Valid()
      reads this
    {
      |recentSearches| <= MaxRecent
    }

    constructor()
      ensures query == "" && location == "" && !showSuggestions && recentSearches == [] && Valid()
    {
      query := "";
      location := "";
      showSuggestions := false;
      recentSearches := [];
    }

    /**
     * `handleSearch`: a blank query changes nothing; otherwise the untrimmed
     * query is remembered as the newest recent search and the panel closes.
     * `newId` stands for `Date.now().toString()`.
     */
    method Search(newId: string)
      requires Valid()
      modifies this
      ensures query == old(query) && location == old(location)
      ensures Valid()
      ensures AllSpace(old(query)) ==>
                recentSearches == old(recentSearches) && showSuggestions == old(showSuggestions)
      ensures !AllSpace(old(query)) ==>
                recentSearches == PushRecent(old(recentSearches), Suggestion(newId, old(query), Recent))
                && !showSuggestions
    {
      var q := query;
      var blank := IsBlank(q);
      if !blank {
        var entry := Suggestion(newId, q, Recent);
        recentSearches := PushRecent(recentSearches, entry);
        showSuggestions := false;
      }
    }

    /** Focusing the query input opens the panel. */
    method Focus()
      modifies this
      ensures showSuggestions
      ensures query == old(query) && location == old(location) && recentSearches == old(recentSearches)
    {
      showSuggestions := true;
    }

    /** Clicking a recent or trending search copies its text into the query. */
    method SuggestionClick(s: Suggestion)
      modifies this
      ensures query == s.text
      ensures location == old(location) && showSuggestions == old(showSuggestions)
      ensures recentSearches == old(recentSearches)
    {
      query := s.text;
    }

    /** Clicking a popular location sets the location. */
    method LocationClick(loc: string)
      modifies this
      ensures location == loc
      ensures query == old(query) && showSuggestions == old(showSuggestions)
      ensures recentSearches == old(recentSearches)
    {
      location := loc;
    }
  }
}
