/**
 * A `JobFilter` as the JavaScript object it is: an ordered list of properties.
 * Property order is the order in which keys were first created, a property may
 * hold `undefined`, and the spread `{...a, ...b}` and the computed update
 * `{...a, [k]: v}` overwrite existing keys in place and append new ones.
 * Order matters because the cache key is the object's JSON text.
 */
module FilterObject {
  import opened Wrappers
  import SeqFacts

  datatype Field =
    | Keyword | Location | Salary | ExperienceLevel | JobType | Remote
    | Industry | CompanySize | PostedWithin | SortBy | Page | Limit

  datatype Bound = Min | Max

  /** One property of the salary object: `min` or `max`, and its number. */
  datatype SalaryBound = SalaryBound(bound: Bound, n: int)

  /**
   * A property value. `Range` is the `salary` sub-object, which is ordered too:
   * its first key, then the second one once both `min` and `max` are set.
   */
  datatype Value = Undefined | Str(s: string) | Num(n: int) | Bool(b: bool)
                 | Range(first: SalaryBound, second: Option<SalaryBound>)

  datatype Prop = Prop(field: Field, value: Value)

  type JobFilter = seq<Prop>

  /** A JavaScript object never has the same key twice. */
  predicate DistinctFields(f: JobFilter) {
    forall i, j :: 0 <= i < j < |f| ==> f[i].field != f[j].field
  }

  /** The object has an own property `k` (possibly holding `undefined`). */
  predicate Has(f: JobFilter, k: Field) {
    exists i :: 0 <= i < |f| && f[i].field == k
  }

  /** The keys in the object's own order (`Object.keys`, including undefined-valued ones). */
  function Keys(f: JobFilter): (r: seq<Field>)
    ensures |r| == |f|
    ensures forall i :: 0 <= i < |f| ==> r[i] == f[i].field
  {
    if f == [] then [] else [f[0].field] + Keys(f[1..])
  }

  /** `f[k]`: the value of property `k`, `undefined` when there is none. */
  function Get(f: JobFilter, k: Field): (v: Value)
    ensures !Has(f, k) ==> v == Undefined
  {
    if f == [] then Undefined
    else if f[0].field == k then f[0].value
    else
      assert forall i :: 1 <= i < |f| ==> f[i] == f[1..][i - 1];
      Get(f[1..], k)
  }

  /** On an object with distinct keys, `f[k]` is the value of the one property named `k`. */
  lemma {:induction false} GetAt(f: JobFilter, k: Field, i: int)
    requires DistinctFields(f) && 0 <= i < |f| && f[i].field == k
    ensures Get(f, k) == f[i].value
  {
    if i > 0 {
      assert f[0].field != k;
      assert DistinctFields(f[1..]) && f[1..][i - 1] == f[i];
      GetAt(f[1..], k, i - 1);
    }
  }

  /** `{...f, [k]: v}`: overwrite `k` where it stands, or append it at the end. */
  function Put(f: JobFilter, k: Field, v: Value): JobFilter {
    if f == [] then [Prop(k, v)]
    else if f[0].field == k then [Prop(k, v)] + f[1..]
    else [f[0]] + Put(f[1..], k, v)
  }

  /** The update keeps the length when `k` exists, appends `k` otherwise, and keeps every key in place. */
  lemma PutShape(f: JobFilter, k: Field, v: Value)
    ensures var r := Put(f, k, v);
      && (Has(f, k) ==> |r| == |f|)
      && (!Has(f, k) ==> r == f + [Prop(k, v)])
      && |r| >= |f|
      && forall i :: 0 <= i < |f| ==> r[i].field == f[i].field
  {
    PutLength(f, k, v);
    PutFieldsInPlace(f, k, v);
  }

  /** Overwriting keeps the length; a missing key is appended at the end. */
  lemma {:induction false} PutLength(f: JobFilter, k: Field, v: Value)
    ensures Has(f, k) ==> |Put(f, k, v)| == |f|
    ensures !Has(f, k) ==> Put(f, k, v) == f + [Prop(k, v)]
  {
    if f != [] && f[0].field != k {
      PutLength(f[1..], k, v);
      assert Has(f, k) <==> Has(f[1..], k) by {
        assert forall i :: 1 <= i < |f| ==> f[i] == f[1..][i - 1];
      }
      if !Has(f, k) {
        SeqFacts.SplitFront(f, [Prop(k, v)]);
      }
    }
  }

  /** Every key of the object is still at its position after the update. */
  lemma {:induction false} PutFieldsInPlace(f: JobFilter, k: Field, v: Value)
    ensures |Put(f, k, v)| >= |f|
    ensures forall i :: 0 <= i < |f| ==> Put(f, k, v)[i].field == f[i].field
  {
    if f != [] && f[0].field != k {
      var t := Put(f[1..], k, v);
      PutFieldsInPlace(f[1..], k, v);
      SeqFacts.Uncons(f[0], t);
      assert forall i :: 1 <= i < |f| ==> Put(f, k, v)[i] == t[i - 1] && f[i] == f[1..][i - 1];
    }
  }

  /** `{...f, ...g}`: the properties of `g`, in `g`'s order, put into a copy of `f`. */
  function Spread(f: JobFilter, g: JobFilter): JobFilter
    decreases |g|
  {
    if g == [] then f else Spread(Put(f, g[0].field, g[0].value), g[1..])
  }

  /** Reading from an object with one more property in front. */
  lemma GetCons(p: Prop, f: JobFilter, j: Field)
    ensures Get([p] + f, j) == if p.field == j then p.value else Get(f, j)
  {
    SeqFacts.Uncons(p, f);
  }

  /** The update writes exactly property `k`: reading `k` gives `v`, every other key reads as before. */
  lemma {:induction false} GetPut(f: JobFilter, k: Field, v: Value, j: Field)
    ensures Get(Put(f, k, v), j) == if j == k then v else Get(f, j)
  {
    var want := if j == k then v else Get(f, j);
    if f == [] {
      GetCons(Prop(k, v), f, j);
      assert [Prop(k, v)] + f == Put(f, k, v);
      assert Get(Put(f, k, v), j) == want;
    } else if f[0].field == k {
      GetCons(Prop(k, v), f[1..], j);
      assert Get(Put(f, k, v), j) == want;
    } else {
      GetPut(f[1..], k, v, j);
      GetCons(f[0], Put(f[1..], k, v), j);
      assert Get(Put(f, k, v), j) == want;
    }
  }

  lemma HasCons(p: Prop, f: JobFilter, j: Field)
    ensures Has([p] + f, j) <==> p.field == j || Has(f, j)
  {
    var r := [p] + f;
    assert r[0] == p;
    if Has(f, j) {
      var i :| 0 <= i < |f| && f[i].field == j;
      assert r[i + 1] == f[i];
    }
    if Has(r, j) && p.field != j {
      var i :| 0 <= i < |r| && r[i].field == j;
      assert f[i - 1] == r[i];
    }
  }

  /** The update keeps keys distinct and changes the key set only by adding `k`. */
  lemma {:induction false} PutKeys(f: JobFilter, k: Field, v: Value)
    requires DistinctFields(f)
    ensures DistinctFields(Put(f, k, v))
    ensures forall j :: Has(Put(f, k, v), j) <==> Has(f, j) || j == k
  {
    if f == [] {
      forall j ensures Has(Put(f, k, v), j) <==> Has(f, j) || j == k {
        HasCons(Prop(k, v), [], j);
      }
    } else {
      forall j ensures Has(f, j) <==> f[0].field == j || Has(f[1..], j) {
        HasCons(f[0], f[1..], j);
        assert [f[0]] + f[1..] == f;
      }
      assert DistinctFields(f[1..]) by {
        assert forall i :: 1 <= i < |f| ==> f[i] == f[1..][i - 1];
      }
      if f[0].field == k {
        forall j ensures Has(Put(f, k, v), j) <==> Has(f, j) || j == k {
          HasCons(Prop(k, v), f[1..], j);
        }
      } else {
        PutKeys(f[1..], k, v);
        var t := Put(f[1..], k, v);
        forall j ensures Has(Put(f, k, v), j) <==> Has(f, j) || j == k {
          HasCons(f[0], t, j);
        }
        assert !Has(t, f[0].field);
      }
    }
  }

  /** Spreading `g` over `f`: a key of `g` reads as in `g`, any other key as in `f`. */
  lemma {:induction false} GetSpread(f: JobFilter, g: JobFilter, j: Field)
    requires DistinctFields(g)
    ensures Get(Spread(f, g), j) == if Has(g, j) then Get(g, j) else Get(f, j)
    decreases |g|
  {
    if g != [] {
      var f' := Put(f, g[0].field, g[0].value);
      DistinctUncons(g, j);
      GetSpread(f', g[1..], j);
      GetPut(f, g[0].field, g[0].value, j);
    }
  }

  /** An object with distinct keys, split into its first property and the rest. */
  lemma DistinctUncons(g: JobFilter, j: Field)
    requires DistinctFields(g) && g != []
    ensures DistinctFields(g[1..])
    ensures Has(g, j) <==> j == g[0].field || Has(g[1..], j)
    ensures Has(g[1..], j) ==> j != g[0].field
  {
    assert g == [g[0]] + g[1..];
    HasCons(g[0], g[1..], j);
    assert forall i :: 1 <= i < |g| ==> g[i] == g[1..][i - 1];
  }

  /** Spreading keeps keys distinct, and the keys of the result are those of `f` and `g`. */
  lemma {:induction false} SpreadKeys(f: JobFilter, g: JobFilter)
    requires DistinctFields(f)
    ensures DistinctFields(Spread(f, g))
    ensures forall j :: Has(Spread(f, g), j) <==> Has(f, j) || Has(g, j)
    decreases |g|
  {
    if g != [] {
      PutKeys(f, g[0].field, g[0].value);
      SpreadKeys(Put(f, g[0].field, g[0].value), g[1..]);
      assert forall j :: Has(g, j) <==> j == g[0].field || Has(g[1..], j) by {
        assert forall i :: 1 <= i < |g| ==> g[i] == g[1..][i - 1];
      }
    }
  }

  /** Spreading never reorders the keys `f` already has: they stay a prefix of the result. */
  lemma {:induction false} SpreadKeepsOrder(f: JobFilter, g: JobFilter)
    ensures |Spread(f, g)| >= |f|
    ensures Keys(Spread(f, g))[..|f|] == Keys(f)
    decreases |g|
  {
    if g != [] {
      var f' := Put(f, g[0].field, g[0].value);
      PutShape(f, g[0].field, g[0].value);
      SpreadKeepsOrder(f', g[1..]);
      assert Keys(f')[..|f|] == Keys(f);
    }
  }

  /** On an object with distinct keys the update rewrites the one property `k` and keeps every other property where it is. */
  lemma {:induction false} PutElements(f: JobFilter, k: Field, v: Value)
    requires DistinctFields(f)
    ensures |Put(f, k, v)| >= |f|
    ensures forall i :: 0 <= i < |f| ==> Put(f, k, v)[i] == if f[i].field == k then Prop(k, v) else f[i]
  {
    if f != [] {
      var r := Put(f, k, v);
      if f[0].field == k {
        assert forall i :: 1 <= i < |f| ==> f[i].field != k;
        assert forall i :: 1 <= i < |f| ==> r[i] == f[i];
      } else {
        assert DistinctFields(f[1..]);
        PutElements(f[1..], k, v);
        assert forall i :: 1 <= i < |f| ==> r[i] == Put(f[1..], k, v)[i - 1];
      }
    }
  }

  /** JavaScript truthiness of a property value. */
  predicate Truthy(v: Value) {
    match v
    case Undefined => false
    case Str(s) => s != ""
    case Num(n) => n != 0
    case Bool(b) => b
    case Range(_, _) => true
  }

  // ---------------------------------------------------------------------
  // The salary sub-object.

  /** The salary object never has the same key twice. */
  predicate DistinctBounds(v: Value) {
    v.Range? && v.second.Some? ==> v.first.bound != v.second.value.bound
  }

  /** `salary.min` or `salary.max`: the number, or `None` for `undefined` when the object lacks the key. */
  function BoundOf(v: Value, b: Bound): Option<int> {
    match v
    case Range(first, second) =>
      if first.bound == b then Some(first.n)
      else if second.Some? && second.value.bound == b then Some(second.value.n)
      else None
    case _ => None
  }

  /**
   * `{...salary, [b]: n}`: a salary object overwrites `b` where it stands or
   * adds it after its one key; `undefined` (the only other value the salary
   * property takes) spreads to no properties.
   */
  function WithBound(v: Value, b: Bound, n: int): Value {
    match v
    case Range(first, second) =>
      if first.bound == b then Range(SalaryBound(b, n), second)
      else Range(first, Some(SalaryBound(b, n)))
    case _ => Range(SalaryBound(b, n), None)
  }

  /** The other salary box. */
  function Other(b: Bound): Bound {
    if b == Min then Max else Min
  }

  /**
   * The update sets `b` to `n`, keeps the other bound as it was, keeps the
   * keys distinct, and keeps the key that was there first in front.
   */
  lemma WithBoundSpec(v: Value, b: Bound, n: int, other: Bound)
    requires DistinctBounds(v) && other != b
    ensures var r := WithBound(v, b, n);
      && r.Range? && DistinctBounds(r)
      && BoundOf(r, b) == Some(n)
      && BoundOf(r, other) == BoundOf(v, other)
      && (v.Range? ==> r.first.bound == v.first.bound)
      && (!v.Range? ==> r == Range(SalaryBound(b, n), None))
  {
  }
}
