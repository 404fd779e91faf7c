/**
 * The search box with a keyboard-driven suggestion list (SearchBar.tsx):
 * the query, whether the list is open, and the highlighted suggestion
 * (-1 for none). The suggestion list is the component's prop.
 */
module SearchBar {
  import opened Wrappers
  import opened Text

  datatype SuggestionType = Recent | Trending | Job
  datatype Suggestion = Suggestion(id: string, text: string, kind: SuggestionType)

  datatype Key = ArrowDown | ArrowUp | Enter | Escape | OtherKey

  /** The minimum query length that opens the list. */
  const MinQueryLength := 3

  /** What a handler passes to the parent: the query to search for, or the suggestion clicked. */
  datatype Notice = Quiet | Searched(query: string) | Picked(suggestion: Suggestion)

  /** The highlight after an arrow key: down stops at the last suggestion, up stops at -1. */
  function StepHighlight(index: int, key: Key, count: nat): (r: int)
    requires key == ArrowDown || key == ArrowUp
    ensures -1 <= index && (index <= count - 1 || index == -1) ==> -1 <= r && (r <= count - 1 || r == -1)
    ensures key == ArrowDown && index < count - 1 ==> r == index + 1
    ensures key == ArrowDown && index >= count - 1 ==> r == index
    ensures key == ArrowUp && index > 0 ==> r == index - 1
    ensures key == ArrowUp && index <= 0 ==> r == -1
  {
    if key == ArrowDown then (if index < count - 1 then index + 1 else index)
    else if index > 0 then index - 1 else -1
  }

  class Bar {
    var query: string
    var showSuggestions: bool
    var highlightedIndex: int

    /** The highlight is -1 or a position in the suggestion list. */
    ghost predicate Valid(suggestions: seq<Suggestion>)
      reads this
    {
      -1 <= highlightedIndex < |suggestions|
    }

    constructor()
      ensures query == "" && !showSuggestions && highlightedIndex == -1
    {
      query := "";
      showSuggestions := false;
      highlightedIndex := -1;
    }

    /** `handleInputChange`: the list opens for three or more characters, and nothing is highlighted. */
    method InputChange(value: string)
      modifies this
      ensures query == value && showSuggestions == (|value| >= MinQueryLength) && highlightedIndex == -1
    {
      query := value;
      showSuggestions := |value| >= MinQueryLength;
      highlightedIndex := -1;
    }

    /** `handleSearch`: a query that is not blank goes to `onSearch` and closes the list. */
    method Search() returns (notice: Notice)
      modifies this
      ensures !AllSpace(query) ==> notice == Searched(query) && !showSuggestions
      ensures AllSpace(query) ==> notice == Quiet && showSuggestions == old(showSuggestions)
      ensures query == old(query) && highlightedIndex == old(highlightedIndex)
    {
      if !IsBlank(query) {
        notice := Searched(query);
        showSuggestions := false;
      } else {
        notice := Quiet;
      }
    }

    /** `handleSuggestionClick`: the query becomes the suggestion's text and the list closes. */
    method SuggestionClick(s: Suggestion) returns (notice: Notice)
      modifies this
      ensures query == s.text && !showSuggestions && notice == Picked(s)
      ensures highlightedIndex == old(highlightedIndex)
    {
      query := s.text;
      showSuggestions := false;
      notice := Picked(s);
    }

    /** `clearInput` */
    method ClearInput()
      modifies this
      ensures query == "" && showSuggestions == old(showSuggestions) && highlightedIndex == old(highlightedIndex)
    {
      query := "";
    }

    /**
     * `handleKeyDown`: nothing while the list is closed; the arrows move the
     * highlight within the list; Enter picks the highlighted suggestion or,
     * with none highlighted, searches; Escape closes the list.
     */
    method KeyDown(key: Key, suggestions: seq<Suggestion>) returns (notice: Notice)
      requires Valid(suggestions)
      modifies this
      ensures Valid(suggestions)
      ensures !old(showSuggestions) ==>
                notice == Quiet && query == old(query) && !showSuggestions
                && highlightedIndex == old(highlightedIndex)
      ensures old(showSuggestions) && (key == ArrowDown || key == ArrowUp) ==>
                highlightedIndex == StepHighlight(old(highlightedIndex), key, |suggestions|)
                && notice == Quiet && query == old(query) && showSuggestions
      ensures old(showSuggestions) && key == Enter && old(highlightedIndex) >= 0 ==>
                var s := suggestions[old(highlightedIndex)];
                query == s.text && !showSuggestions && notice == Picked(s)
      ensures old(showSuggestions) && key == Enter && old(highlightedIndex) < 0 ==>
                query == old(query)
                && (!AllSpace(query) ==> notice == Searched(query) && !showSuggestions)
                && (AllSpace(query) ==> notice == Quiet && showSuggestions)
      ensures old(showSuggestions) && key == Escape ==>
                !showSuggestions && notice == Quiet && query == old(query)
                && highlightedIndex == old(highlightedIndex)
      ensures old(showSuggestions) && key == OtherKey ==>
                notice == Quiet && query == old(query) && showSuggestions
                && highlightedIndex == old(highlightedIndex)
      ensures key == Enter || key == Escape ==> highlightedIndex == old(highlightedIndex)
    {
      notice := Quiet;
      if !showSuggestions {
        return;
      }
      match key
      case ArrowDown =>
        highlightedIndex := StepHighlight(highlightedIndex, key, |suggestions|);
      case ArrowUp =>
        highlightedIndex := StepHighlight(highlightedIndex, key, |suggestions|);
      case Enter =>
        if highlightedIndex >= 0 {
          notice := SuggestionClick(suggestions[highlightedIndex]);
        } else {
          notice := Search();
        }
      case Escape =>
        showSuggestions := false;
      case OtherKey =>
    }
  }

  /**
   * For a fixed suggestion list the highlight always stays between -1 and the
   * last position, whatever keys are pressed: with no suggestions it stays -1.
   */
  lemma {:induction false} HighlightBounded(index: int, keys: seq<Key>, count: nat)
    requires -1 <= index && (index <= count - 1 || index == -1)
    requires forall i :: 0 <= i < |keys| ==> keys[i] == ArrowDown || keys[i] == ArrowUp
    ensures var r := Highlights(index, keys, count);
            -1 <= r && (r <= count - 1 || r == -1)
            && (count == 0 ==> r == -1)
    decreases |keys|
  {
    if keys != [] {
      var next := StepHighlight(index, keys[0], count);
      HighlightBounded(next, keys[1..], count);
    }
  }

  /** The highlight after a sequence of arrow keys. */
  function Highlights(index: int, keys: seq<Key>, count: nat): int
    requires forall i :: 0 <= i < |keys| ==> keys[i] == ArrowDown || keys[i] == ArrowUp
    decreases |keys|
  {
    if keys == [] then index else Highlights(StepHighlight(index, keys[0], count), keys[1..], count)
  }
}
