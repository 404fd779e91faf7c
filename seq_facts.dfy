/**
 * Small facts about sequence concatenation. They are stated over arbitrary
 * sequences so that the proofs that use them need not redo this algebra next
 * to the definitions they are about.
 */
module SeqFacts {

  /** The first element of a concatenation, and what follows it. */
  lemma SplitFront<T>(a: seq<T>, b: seq<T>)
    requires a != []
    ensures (a + b)[0] == a[0] && (a + b)[1..] == a[1..] + b
  {
  }

  /** The element in front of a sequence, and the sequence after it. */
  lemma Uncons<T>(c: T, x: seq<T>)
    ensures ([c] + x)[0] == c && ([c] + x)[1..] == x
  {
  }

  lemma AppendAssoc<T>(a: seq<T>, b: seq<T>, c: seq<T>)
    ensures (a + b) + c == a + (b + c)
  {
  }

  /** Regrouping a concatenation of four around its first part. */
  lemma RegroupFront<T>(a: seq<T>, b: seq<T>, c: seq<T>, d: seq<T>)
    ensures a + (b + c + d) == (a + b) + c + d
  {
  }

  lemma AppendEmpty<T>(a: seq<T>, b: seq<T>)
    requires a == []
    ensures a + b == b
  {
  }

  /** Dropping the first element takes one copy of it out of the multiset. */
  lemma MultisetTail<T>(a: seq<T>)
    requires a != []
    ensures multiset(a[1..]) == multiset(a) - multiset{a[0]}
  {
    assert a == [a[0]] + a[1..];
  }

  /** Taking the element at `k` out of a sequence takes one copy of it out of the multiset. */
  lemma MultisetRemoveAt<T>(b: seq<T>, k: int)
    requires 0 <= k < |b|
    ensures multiset(b[..k] + b[k + 1..]) == multiset(b) - multiset{b[k]}
  {
    assert b == (b[..k] + [b[k]]) + b[k + 1..];
  }
}
