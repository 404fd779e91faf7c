/**
 * The stable sort that `Array.prototype.sort` performs (stable since ECMAScript 2019)
 * with a comparator of the form `(a, b) => key(b) - key(a)`: the result is ordered
 * by key, largest first, and elements with equal keys keep their input order.
 * It is written as an insertion sort; `SortUnique` shows that any result with
 * those three properties is this one, so the choice of algorithm does not matter.
 */
module StableSort {
  import SeqFacts

  /** Put `x` in front of the first element whose key is not larger than its own. */
  function Insert<T>(x: T, s: seq<T>, key: T -> int): (r: seq<T>)
    ensures |r| == |s| + 1
    ensures multiset(r) == multiset(s) + multiset{x}
  {
    if s == [] || key(x) >= key(s[0]) then [x] + s
    else
      assert s == [s[0]] + s[1..];
      [s[0]] + Insert(x, s[1..], key)
  }

  function Sort<T>(s: seq<T>, key: T -> int): (r: seq<T>)
    ensures |r| == |s|
    ensures multiset(r) == multiset(s)
  {
    if s == [] then []
    else
      assert s == [s[0]] + s[1..];
      Insert(s[0], Sort(s[1..], key), key)
  }

  predicate NonIncreasing<T>(s: seq<T>, key: T -> int) {
    forall i, j :: 0 <= i < j < |s| ==> key(s[i]) >= key(s[j])
  }

  /** The elements of `s` whose key is `k`, in their order in `s`. */
  function WithKey<T>(s: seq<T>, key: T -> int, k: int): (r: seq<T>)
    ensures |r| <= |s|
  {
    if s == [] then []
    else if key(s[0]) == k then [s[0]] + WithKey(s[1..], key, k)
    else WithKey(s[1..], key, k)
  }

  /** Stability: among elements with one key, the output order is the input order. */
  ghost predicate SameTies<T>(s: seq<T>, t: seq<T>, key: T -> int) {
    forall k :: WithKey(s, key, k) == WithKey(t, key, k)
  }

  /** An element in front of an ordered list whose keys are all at most its own keeps it ordered. */
  lemma ConsNonIncreasing<T>(y: T, t: seq<T>, key: T -> int)
    requires NonIncreasing(t, key)
    requires forall i :: 0 <= i < |t| ==> key(t[i]) <= key(y)
    ensures NonIncreasing([y] + t, key)
  {
    var r := [y] + t;
    forall i, j | 0 <= i < j < |r| ensures key(r[i]) >= key(r[j]) {
      assert r[j] == t[j - 1];
      if i > 0 {
        assert r[i] == t[i - 1];
      }
    }
  }

  lemma {:induction false} InsertOrdered<T>(x: T, s: seq<T>, key: T -> int)
    requires NonIncreasing(s, key)
    ensures NonIncreasing(Insert(x, s, key), key)
  {
    if s == [] || key(x) >= key(s[0]) {
      ConsNonIncreasing(x, s, key);
    } else {
      var t := Insert(x, s[1..], key);
      TailNonIncreasing(s, key);
      InsertOrdered(x, s[1..], key);
      forall i | 0 <= i < |t| ensures key(t[i]) <= key(s[0]) {
        assert t[i] in multiset(t);
        if t[i] != x {
          assert t[i] in multiset(s[1..]);
          var m :| 0 <= m < |s[1..]| && s[1..][m] == t[i];
          assert s[m + 1] == t[i];
        }
      }
      ConsNonIncreasing(s[0], t, key);
    }
  }

  /** Inserting `x` puts it at the front of its own key group and leaves every other group alone. */
  lemma {:induction false} InsertTies<T>(x: T, s: seq<T>, key: T -> int, k: int)
    ensures WithKey(Insert(x, s, key), key, k) ==
            if key(x) == k then [x] + WithKey(s, key, k) else WithKey(s, key, k)
  {
    if s == [] || key(x) >= key(s[0]) {
      SeqFacts.Uncons(x, s);
    } else {
      var t := Insert(x, s[1..], key);
      InsertTies(x, s[1..], key, k);
      SeqFacts.Uncons(s[0], t);
    }
  }

  lemma InsertNonIncreasing<T>(x: T, s: seq<T>, key: T -> int)
    requires NonIncreasing(s, key)
    ensures NonIncreasing(Insert(x, s, key), key)
    ensures forall k :: WithKey(Insert(x, s, key), key, k) ==
                        if key(x) == k then [x] + WithKey(s, key, k) else WithKey(s, key, k)
  {
    InsertOrdered(x, s, key);
    forall k ensures WithKey(Insert(x, s, key), key, k) ==
                     if key(x) == k then [x] + WithKey(s, key, k) else WithKey(s, key, k) {
      InsertTies(x, s, key, k);
    }
  }

  /** In a list ordered by key, no key is larger than the first one. */
  lemma {:induction false} HeadKeyIsMax<T>(s: seq<T>, key: T -> int, k: int)
    requires NonIncreasing(s, key) && s != []
    requires WithKey(s, key, k) != []
    ensures k <= key(s[0])
  {
    if key(s[0]) != k {
      TailNonIncreasing(s, key);
      HeadKeyIsMax(s[1..], key, k);
      assert key(s[1]) <= key(s[0]);
    }
  }

  /** The sort orders by key, largest first. */
  lemma {:induction false} SortNonIncreasing<T>(s: seq<T>, key: T -> int)
    ensures NonIncreasing(Sort(s, key), key)
    ensures SameTies(Sort(s, key), s, key)
  {
    if s != [] {
      SortNonIncreasing(s[1..], key);
      InsertNonIncreasing(s[0], Sort(s[1..], key), key);
    }
  }

  /** Two lists ordered by key that agree on the order of every group of equal keys are equal. */
  lemma {:induction false} SortUnique<T>(s: seq<T>, t: seq<T>, key: T -> int)
    requires NonIncreasing(s, key) && NonIncreasing(t, key)
    requires SameTies(s, t, key)
    ensures s == t
    decreases |s|
  {
    assert s != [] ==> WithKey(t, key, key(s[0])) != [];
    assert t != [] ==> WithKey(s, key, key(t[0])) != [];
    if s != [] {
      var ks, kt := key(s[0]), key(t[0]);
      HeadKeyIsMax(s, key, kt);
      HeadKeyIsMax(t, key, ks);
      assert WithKey(s, key, ks)[0] == s[0];
      assert WithKey(t, key, kt)[0] == t[0];
      assert s[0] == t[0];
      TailNonIncreasing(s, key);
      TailNonIncreasing(t, key);
      forall k ensures WithKey(s[1..], key, k) == WithKey(t[1..], key, k) {
        assert WithKey(s, key, k) == WithKey(t, key, k);
        assert WithKey(s, key, k) == (if ks == k then [s[0]] else []) + WithKey(s[1..], key, k);
        assert WithKey(t, key, k) == (if ks == k then [s[0]] else []) + WithKey(t[1..], key, k);
        if ks == k {
          assert WithKey(s[1..], key, k) == WithKey(s, key, k)[1..];
          assert WithKey(t[1..], key, k) == WithKey(t, key, k)[1..];
        }
      }
      SortUnique(s[1..], t[1..], key);
      assert s == [s[0]] + s[1..] && t == [t[0]] + t[1..];
    }
  }

  lemma TailNonIncreasing<T>(s: seq<T>, key: T -> int)
    requires NonIncreasing(s, key) && s != []
    ensures NonIncreasing(s[1..], key)
  {
    forall i, j | 0 <= i < j < |s[1..]| ensures key(s[1..][i]) >= key(s[1..][j]) {
      assert s[1..][i] == s[i + 1] && s[1..][j] == s[j + 1];
    }
  }

  /** Any stable, key-ordered rearrangement of `s` is `Sort(s)`. */
  lemma SortIsTheStableSort<T>(s: seq<T>, t: seq<T>, key: T -> int)
    requires NonIncreasing(t, key) && SameTies(t, s, key)
    ensures t == Sort(s, key)
  {
    SortNonIncreasing(s, key);
    SortUnique(t, Sort(s, key), key);
  }
}
