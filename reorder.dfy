/**
 * The drag-and-drop reorder of the two list managers (`handleDragOver` in
 * WorkExperienceManager.tsx and EducationManager.tsx): on a copy of the list,
 * `splice(draggedIndex, 1)` takes the dragged entry out and
 * `splice(targetIndex, 0, draggedItem)` puts it back in, both indices being
 * `findIndex` results on the list before the move.
 */
module Reorder {

  /** Where `splice(start, …)` begins on an array of length `len`: a negative start counts from the end, and the result is clamped to `[0, len]`. */
  function SpliceStart(len: nat, start: int): (k: nat)
    ensures k <= len
    ensures 0 <= start <= len ==> k == start
    ensures start < 0 && len + start >= 0 ==> k == len + start
  {
    if start < 0 then (if len + start < 0 then 0 else len + start)
    else if start > len then len
    else start
  }

  /** `splice(k, 1)` on the array: the entry at `k` is gone, the rest closes up. */
  function RemoveAt<T>(s: seq<T>, k: nat): (r: seq<T>)
    requires k < |s|
    ensures |r| == |s| - 1
    ensures forall i :: 0 <= i < k ==> r[i] == s[i]
    ensures forall i :: k <= i < |r| ==> r[i] == s[i + 1]
    ensures multiset(r) + multiset{s[k]} == multiset(s)
  {
    assert s == s[..k] + [s[k]] + s[k + 1..];
    s[..k] + s[k + 1..]
  }

  /** `splice(k, 0, x)` on the array: `x` now stands at `k`, the entries from `k` on move up one. */
  function InsertAt<T>(s: seq<T>, k: nat, x: T): (r: seq<T>)
    requires k <= |s|
    ensures |r| == |s| + 1
    ensures r[k] == x
    ensures forall i :: 0 <= i < k ==> r[i] == s[i]
    ensures forall i :: k <= i < |s| ==> r[i + 1] == s[i]
    ensures multiset(r) == multiset(s) + multiset{x}
  {
    assert s == s[..k] + s[k..];
    s[..k] + [x] + s[k..]
  }

  /**
   * The list after the two splices. `draggedIndex` may be -1 (the dragged id
   * is not in the list), in which case `splice(-1, 1)` takes the last entry;
   * `targetIndex` is the position of the entry the pointer is over.
   */
  function DragReorder<T>(items: seq<T>, draggedIndex: int, targetIndex: nat): (r: seq<T>)
    requires -1 <= draggedIndex < |items| && targetIndex < |items|
    ensures |r| == |items|
    ensures multiset(r) == multiset(items)
    ensures r[targetIndex] == items[SpliceStart(|items|, draggedIndex)]
  {
    var from := SpliceStart(|items|, draggedIndex);
    var rest := RemoveAt(items, from);
    InsertAt(rest, SpliceStart(|rest|, targetIndex), items[from])
  }

  /**
   * Moving the entry at `from` to `to`, described position by position: the
   * moved entry stands at `to`, the entries between the two positions shift by
   * one towards `from`, and every other entry stays where it was.
   */
  function MovedElement<T>(s: seq<T>, from: nat, to: nat, i: nat): T
    requires from < |s| && to < |s| && i < |s|
  {
    if i == to then s[from]
    else if from < to && from <= i < to then s[i + 1]
    else if to < from && to < i <= from then s[i - 1]
    else s[i]
  }

  /** The two splices move the dragged entry to the target's position and shift the entries in between. */
  lemma DragReorderElements<T>(items: seq<T>, draggedIndex: int, targetIndex: nat)
    requires -1 <= draggedIndex < |items| && targetIndex < |items|
    ensures forall i :: 0 <= i < |items| ==>
      DragReorder(items, draggedIndex, targetIndex)[i]
        == MovedElement(items, SpliceStart(|items|, draggedIndex), targetIndex, i)
  {
    var from := SpliceStart(|items|, draggedIndex);
    var rest := RemoveAt(items, from);
    assert SpliceStart(|rest|, targetIndex) == targetIndex;
  }

  /** A list is equal to the result of the two splices exactly when it agrees with the move at every position. */
  lemma DragReorderIsMove<T>(items: seq<T>, from: nat, to: nat, r: seq<T>)
    requires from < |items| && to < |items| && |r| == |items|
    requires forall i :: 0 <= i < |items| ==> r[i] == MovedElement(items, from, to, i)
    ensures r == DragReorder(items, from, to)
  {
    DragReorderElements(items, from, to);
  }

  /**
   * The two splices carried out in place on the copied array: the entries
   * between the two positions are shifted one place, and the saved entry is
   * written at `to`.
   */
  method MoveItem<T>(a: array<T>, from: nat, to: nat)
    requires from < a.Length && to < a.Length
    modifies a
    ensures a[..] == DragReorder(old(a[..]), from, to)
  {
    ghost var s := a[..];
    var x := a[from];
    if from < to {
      var i := from;
      while i < to
        invariant from <= i <= to
        invariant forall j :: 0 <= j < a.Length && (j < from || j >= i) ==> a[j] == s[j]
        invariant forall j :: from <= j < i ==> a[j] == s[j + 1]
      {
        a[i] := a[i + 1];
        i := i + 1;
      }
    } else {
      var i := from;
      while i > to
        invariant to <= i <= from
        invariant forall j :: 0 <= j < a.Length && (j <= i || j > from) ==> a[j] == s[j]
        invariant forall j :: i < j <= from ==> a[j] == s[j - 1]
      {
        a[i] := a[i - 1];
        i := i - 1;
      }
    }
    a[to] := x;
    assert forall i :: 0 <= i < a.Length ==> a[i] == MovedElement(s, from, to, i);
    DragReorderIsMove(s, from, to, a[..]);
  }

  /**
   * The body of `handleDragOver` once both indices are known: `[...items]`
   * into a fresh array, the move on that array, and the array as the new list.
   */
  method Reordered<T>(items: seq<T>, draggedIndex: int, targetIndex: nat) returns (r: seq<T>)
    requires -1 <= draggedIndex < |items| && targetIndex < |items|
    ensures r == DragReorder(items, draggedIndex, targetIndex)
  {
    var a := new T[|items|](i requires 0 <= i < |items| => items[i]);
    assert a[..] == items;
    var from := SpliceStart(|items|, draggedIndex);
    MoveItem(a, from, targetIndex);
    r := a[..];
  }
}
