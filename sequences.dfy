/**
 * Lists kept free of duplicates by a tracking set, the pattern both utilities
 * use: a key is appended only when the set has not seen it yet.
 */
module Sequences {

  function Elems<T>(xs: seq<T>): set<T> {
    set x | x in xs
  }

  predicate Distinct<T(==)>(xs: seq<T>) {
    forall i, j :: 0 <= i < j < |xs| ==> xs[i] != xs[j]
  }

  /** `[f(x) for x in xs]`. */
  function Project<T, U>(xs: seq<T>, f: T -> U): (r: seq<U>)
    ensures |r| == |xs|
    ensures forall i :: 0 <= i < |xs| ==> r[i] == f(xs[i])
  {
    if xs == [] then [] else Project(xs[..|xs| - 1], f) + [f(xs[|xs| - 1])]
  }

  lemma ProjectConcat<T, U>(xs: seq<T>, ys: seq<T>, f: T -> U)
    ensures Project(xs + ys, f) == Project(xs, f) + Project(ys, f)
  {
  }

  /** Index of the first occurrence of `k` in `ks`. */
  function FirstIndex<K(==)>(ks: seq<K>, k: K): (i: nat)
    requires k in ks
    ensures i < |ks| && ks[i] == k && k !in ks[..i]
  {
    if ks[0] == k then 0 else 1 + FirstIndex(ks[1..], k)
  }

  /**
   * The keys of `ks` that `seen` does not hold, each once, in the order of
   * their first occurrence: what a loop `if k not in seen: seen.add(k);
   * out.append(k)` appends.
   */
  function FreshKeys<K>(seen: set<K>, ks: seq<K>): (r: seq<K>)
    ensures Distinct(r)
    ensures Elems(r) == Elems(ks) - seen
    decreases |ks|
  {
    if ks == [] then []
    else if ks[0] in seen then FreshKeys(seen, ks[1..])
    else
      var rest := FreshKeys(seen + {ks[0]}, ks[1..]);
      assert ks == [ks[0]] + ks[1..];
      assert Elems(ks) == {ks[0]} + Elems(ks[1..]);
      assert Elems([ks[0]] + rest) == {ks[0]} + Elems(rest);
      [ks[0]] + rest
  }

  /** Fresh keys of a concatenation: the second part is filtered against what the first added. */
  lemma {:induction false} FreshKeysConcat<K>(seen: set<K>, a: seq<K>, b: seq<K>)
    ensures FreshKeys(seen, a + b) == FreshKeys(seen, a) + FreshKeys(seen + Elems(a), b)
    decreases |a|
  {
    if a == [] {
      assert a + b == b;
      assert seen + Elems(a) == seen;
    } else {
      assert (a + b)[0] == a[0];
      assert (a + b)[1..] == a[1..] + b;
      assert a == [a[0]] + a[1..];
      if a[0] in seen {
        FreshKeysConcat(seen, a[1..], b);
        assert seen + Elems(a[1..]) == seen + Elems(a);
      } else {
        FreshKeysConcat(seen + {a[0]}, a[1..], b);
        assert seen + {a[0]} + Elems(a[1..]) == seen + Elems(a);
      }
    }
  }

  /** One more key: appended exactly when neither `seen` nor the earlier keys hold it. */
  lemma FreshKeysSnoc<K>(seen: set<K>, ks: seq<K>, k: K)
    ensures FreshKeys(seen, ks + [k]) == FreshKeys(seen, ks) + (if k in seen + Elems(ks) then [] else [k])
  {
    FreshKeysConcat(seen, ks, [k]);
    assert [k][1..] == [];
  }

  /** The fresh keys come in the order in which they first occur in `ks`. */
  lemma {:induction false} FreshKeysInFirstOccurrenceOrder<K>(seen: set<K>, ks: seq<K>, i: nat, j: nat)
    requires i < j < |FreshKeys(seen, ks)|
    ensures FreshKeys(seen, ks)[i] in ks && FreshKeys(seen, ks)[j] in ks
    ensures FirstIndex(ks, FreshKeys(seen, ks)[i]) < FirstIndex(ks, FreshKeys(seen, ks)[j])
    decreases |ks|
  {
    var r := FreshKeys(seen, ks);
    FreshKeyOccurs(seen, ks, i);
    FreshKeyOccurs(seen, ks, j);
    if ks[0] in seen {
      assert r == FreshKeys(seen, ks[1..]);
      FreshKeysInFirstOccurrenceOrder(seen, ks[1..], i, j);
      FirstIndexLater(ks, r[i]);
      FirstIndexLater(ks, r[j]);
    } else {
      var rest := FreshKeys(seen + {ks[0]}, ks[1..]);
      assert r == [ks[0]] + rest;
      assert r[j] == rest[j - 1];
      FreshKeyOccurs(seen + {ks[0]}, ks[1..], j - 1);
      FirstIndexLater(ks, r[j]);
      if i == 0 {
        assert FirstIndex(ks, r[i]) == 0;
      } else {
        assert r[i] == rest[i - 1];
        FreshKeyOccurs(seen + {ks[0]}, ks[1..], i - 1);
        FirstIndexLater(ks, r[i]);
        FreshKeysInFirstOccurrenceOrder(seen + {ks[0]}, ks[1..], i - 1, j - 1);
      }
    }
  }

  /** A fresh key occurs in `ks` and is not in `seen`. */
  lemma FreshKeyOccurs<K>(seen: set<K>, ks: seq<K>, i: nat)
    requires i < |FreshKeys(seen, ks)|
    ensures FreshKeys(seen, ks)[i] in ks && FreshKeys(seen, ks)[i] !in seen
  {
    var r := FreshKeys(seen, ks);
    assert r[i] in Elems(r);
  }

  lemma FirstIndexLater<K>(ks: seq<K>, k: K)
    requires k in ks
    ensures k != ks[0] ==> k in ks[1..] && FirstIndex(ks, k) == 1 + FirstIndex(ks[1..], k)
  {
    if k != ks[0] {
      assert ks == [ks[0]] + ks[1..];
    }
  }

  /**
   * A tracked list after appending `make(k)` for every fresh key of `ks`, `seen`
   * being the tracking set that goes with `items`.
   */
  function Absorb<T, K>(items: seq<T>, seen: set<K>, ks: seq<K>, make: K -> T): seq<T>
  {
    items + Project(FreshKeys(seen, ks), make)
  }

  /** Absorbing `a + b` is absorbing `a` and then `b` against the grown tracking set. */
  lemma AbsorbConcat<T, K>(items: seq<T>, seen: set<K>, a: seq<K>, b: seq<K>, make: K -> T)
    ensures Absorb(items, seen, a + b, make) == Absorb(Absorb(items, seen, a, make), seen + Elems(a), b, make)
  {
    FreshKeysConcat(seen, a, b);
    ProjectConcat(FreshKeys(seen, a), FreshKeys(seen + Elems(a), b), make);
  }

  lemma AbsorbSnoc<T, K>(items: seq<T>, seen: set<K>, ks: seq<K>, k: K, make: K -> T)
    ensures Absorb(items, seen, ks + [k], make)
         == Absorb(items, seen, ks, make) + (if k in seen + Elems(ks) then [] else [make(k)])
  {
    FreshKeysSnoc(seen, ks, k);
    ProjectConcat(FreshKeys(seen, ks), if k in seen + Elems(ks) then [] else [k], make);
  }

  lemma ElemsConcat<T>(a: seq<T>, b: seq<T>)
    ensures Elems(a + b) == Elems(a) + Elems(b)
  {
  }

  /** A key list stays duplicate-free when a key it lacks is appended. */
  lemma DistinctSnoc<T>(xs: seq<T>, x: T)
    requires Distinct(xs) && x !in xs
    ensures Distinct(xs + [x])
  {
  }
}
