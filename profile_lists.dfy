/**
 * The list transforms the profile editors apply to their state:
 * `filter` to delete, `map` with a conditional spread to update, and
 * `findIndex` to locate an entry.
 */
module ProfileLists {
  import opened Wrappers

  /** `xs.filter(x => !drop(x))`: the entries `drop` does not select, in order. */
  function Without<T>(xs: seq<T>, drop: T -> bool): (r: seq<T>)
    ensures |r| <= |xs|
    ensures forall x :: x in r ==> x in xs && !drop(x)
  {
    if xs == [] then []
    else (if drop(xs[0]) then [] else [xs[0]]) + Without(xs[1..], drop)
  }

  /** Deleting keeps every other entry as often as it occurs and leaves no selected entry. */
  lemma {:induction false} WithoutCount<T>(xs: seq<T>, drop: T -> bool)
    ensures forall x :: multiset(Without(xs, drop))[x] == if drop(x) then 0 else multiset(xs)[x]
  {
    if xs != [] {
      WithoutCount(xs[1..], drop);
      assert xs == [xs[0]] + xs[1..];
    }
  }

  /** Deleting works piecewise on a concatenation, so the kept entries stay in their order. */
  lemma {:induction false} WithoutConcat<T>(a: seq<T>, b: seq<T>, drop: T -> bool)
    ensures Without(a + b, drop) == Without(a, drop) + Without(b, drop)
  {
    if a == [] {
      assert a + b == b;
    } else {
      var ab := a + b;
      assert ab[0] == a[0];
      assert ab[1..] == a[1..] + b;
      var head := if drop(a[0]) then [] else [a[0]];
      calc {
        Without(ab, drop);
        head + Without(ab[1..], drop);
        { WithoutConcat(a[1..], b, drop); }
        head + (Without(a[1..], drop) + Without(b, drop));
        (head + Without(a[1..], drop)) + Without(b, drop);
      }
    }
  }

  /** A list with nothing to delete is returned as it is. */
  lemma {:induction false} WithoutNothing<T>(xs: seq<T>, drop: T -> bool)
    requires forall i :: 0 <= i < |xs| ==> !drop(xs[i])
    ensures Without(xs, drop) == xs
  {
    if xs != [] {
      WithoutNothing(xs[1..], drop);
    }
  }

  /** `xs.map(x => hit(x) ? upd(x) : x)` */
  function UpdateWhere<T>(xs: seq<T>, hit: T -> bool, upd: T -> T): (r: seq<T>)
    ensures |r| == |xs|
    ensures forall i :: 0 <= i < |xs| ==> r[i] == if hit(xs[i]) then upd(xs[i]) else xs[i]
  {
    if xs == [] then []
    else [if hit(xs[0]) then upd(xs[0]) else xs[0]] + UpdateWhere(xs[1..], hit, upd)
  }

  /** How many entries `hit` selects. */
  function CountWhere<T>(xs: seq<T>, hit: T -> bool): (n: nat)
    ensures n <= |xs|
  {
    if xs == [] then 0 else (if hit(xs[0]) then 1 else 0) + CountWhere(xs[1..], hit)
  }

  /** `xs.findIndex(p)`: the first position satisfying `p`, or -1. */
  function FindIndex<T>(xs: seq<T>, p: T -> bool): (r: int)
    ensures -1 <= r < |xs|
    ensures r >= 0 ==> p(xs[r]) && forall j :: 0 <= j < r ==> !p(xs[j])
    ensures r == -1 <==> forall j :: 0 <= j < |xs| ==> !p(xs[j])
  {
    if xs == [] then -1
    else if p(xs[0]) then 0
    else
      var k := FindIndex(xs[1..], p);
      assert forall j :: 1 <= j < |xs| ==> xs[j] == xs[1..][j - 1];
      if k == -1 then -1 else k + 1
  }

  /** An id held in component state is acted on only when it is truthy: present and not "". */
  predicate IsSetId(id: Option<string>) {
    id.Some? && id.value != ""
  }

  /**
   * The list a manager's `handleSave` hands to `onUpdate`: while editing, the
   * form merged into every entry with the edited id; otherwise the new entry appended.
   */
  function Saved<T>(items: seq<T>, editingId: Option<string>, idOf: T -> string, merge: T -> T, created: T): (r: seq<T>)
    ensures IsSetId(editingId) ==>
              |r| == |items|
              && forall i :: 0 <= i < |items| ==>
                   r[i] == if idOf(items[i]) == editingId.value then merge(items[i]) else items[i]
    ensures !IsSetId(editingId) ==> |r| == |items| + 1 && r[..|items|] == items && r[|items|] == created
  {
    if IsSetId(editingId) then UpdateWhere(items, x => idOf(x) == editingId.value, merge)
    else items + [created]
  }
}
