/**
 * The selection rule of the backup utility's `prune` command: which of the
 * objects listed under a bucket path are deleted, and which removal request
 * is made. The storage client, the clock and the timestamp parser are not
 * modelled: the listing is an array of objects with integer timestamps, and
 * the current time is a parameter.
 */
module Prune {
  import opened Wrappers
  import opened Sequences

  /**
   * One listed object: its name and its `updated_at` as microseconds since
   * the epoch (the resolution of the `%f` field it is parsed with).
   */
  datatype StoredObject = StoredObject(name: string, updatedAt: int)

  const MicrosPerDay: int := 86_400_000_000

  /** Newest first: no object is newer than one before it. */
  predicate NewestFirst(s: seq<StoredObject>) {
    forall i, j :: 0 <= i < j < |s| ==> s[i].updatedAt >= s[j].updatedAt
  }

  /**
   * Places `x`, which came after everything in `s`, behind every object at
   * least as new as it: the stable placement `sort(..., reverse=True)` makes.
   */
  function Insert(s: seq<StoredObject>, x: StoredObject): (r: seq<StoredObject>)
    ensures |r| == |s| + 1
  {
    if s == [] || s[|s| - 1].updatedAt >= x.updatedAt then s + [x]
    else Insert(s[..|s| - 1], x) + [s[|s| - 1]]
  }

  /**
   * `objects.sort(key=updated_at, reverse=True)`: a stable sort, newest
   * first, objects with equal timestamps keeping their listed order.
   */
  function SortNewestFirst(s: seq<StoredObject>): (r: seq<StoredObject>)
    ensures |r| == |s|
  {
    if s == [] then [] else Insert(SortNewestFirst(s[..|s| - 1]), s[|s| - 1])
  }

  lemma {:induction false} InsertPermutes(s: seq<StoredObject>, x: StoredObject)
    ensures multiset(Insert(s, x)) == multiset(s) + multiset{x}
    decreases |s|
  {
    if s != [] && s[|s| - 1].updatedAt < x.updatedAt {
      var init := s[..|s| - 1];
      InsertPermutes(init, x);
      assert s == init + [s[|s| - 1]];
    }
  }

  lemma {:induction false} InsertKeepsNewestFirst(s: seq<StoredObject>, x: StoredObject)
    requires NewestFirst(s)
    ensures NewestFirst(Insert(s, x))
    decreases |s|
  {
    if s != [] && s[|s| - 1].updatedAt < x.updatedAt {
      var init, last := s[..|s| - 1], s[|s| - 1];
      InsertKeepsNewestFirst(init, x);
      var front := Insert(init, x);
      InsertPermutes(init, x);
      forall i | 0 <= i < |front|
        ensures front[i].updatedAt >= last.updatedAt
      {
        assert front[i] in multiset(init) + multiset{x};
      }
    }
  }

  /** The sort puts the listing newest first. */
  lemma {:induction false} SortNewestFirstOrders(s: seq<StoredObject>)
    ensures NewestFirst(SortNewestFirst(s))
    decreases |s|
  {
    if s != [] {
      SortNewestFirstOrders(s[..|s| - 1]);
      InsertKeepsNewestFirst(SortNewestFirst(s[..|s| - 1]), s[|s| - 1]);
    }
  }

  /** The sort only reorders the listing. */
  lemma {:induction false} SortNewestFirstPermutes(s: seq<StoredObject>)
    ensures multiset(SortNewestFirst(s)) == multiset(s)
    decreases |s|
  {
    if s != [] {
      var init := s[..|s| - 1];
      SortNewestFirstPermutes(init);
      InsertPermutes(SortNewestFirst(init), s[|s| - 1]);
      assert s == init + [s[|s| - 1]];
    }
  }

  /** The objects of `s` whose timestamp is `t`, in their order in `s`. */
  function Tied(s: seq<StoredObject>, t: int): seq<StoredObject> {
    if s == [] then []
    else Tied(s[..|s| - 1], t) + (if s[|s| - 1].updatedAt == t then [s[|s| - 1]] else [])
  }

  /** `Tied` keeps exactly the listed objects of that timestamp. */
  lemma {:induction false} TiedMembers(s: seq<StoredObject>, t: int)
    ensures forall o :: o in Tied(s, t) <==> o in s && o.updatedAt == t
    decreases |s|
  {
    if s != [] {
      TiedMembers(s[..|s| - 1], t);
      assert s == s[..|s| - 1] + [s[|s| - 1]];
    }
  }

  lemma {:induction false} TiedConcat(a: seq<StoredObject>, b: seq<StoredObject>, t: int)
    ensures Tied(a + b, t) == Tied(a, t) + Tied(b, t)
    decreases |b|
  {
    if b == [] {
      assert a + b == a;
    } else {
      var init, last := b[..|b| - 1], b[|b| - 1];
      assert (a + b)[..|a + b| - 1] == a + init && (a + b)[|a + b| - 1] == last;
      TiedConcat(a, init, t);
    }
  }

  /** Two objects of different timestamps do not share a tie. */
  lemma TiedSwap(x: StoredObject, y: StoredObject, t: int)
    requires x.updatedAt != y.updatedAt
    ensures Tied([x], t) + Tied([y], t) == Tied([y], t) + Tied([x], t)
  {
    assert [x][..0] == [] && [y][..0] == [];
  }

  /** The step of `InsertTied` where `x` passes an older object `last`. */
  lemma InsertTiedPast(init: seq<StoredObject>, last: StoredObject, x: StoredObject, t: int)
    requires last.updatedAt < x.updatedAt
    requires Tied(Insert(init, x), t) == Tied(init, t) + Tied([x], t)
    ensures Tied(Insert(init + [last], x), t) == Tied(init + [last], t) + Tied([x], t)
  {
    var front := Insert(init, x);
    calc {
      Tied(Insert(init + [last], x), t);
    == { assert (init + [last])[..|init|] == init; }
      Tied(front + [last], t);
    == { TiedConcat(front, [last], t); }
      Tied(init, t) + Tied([x], t) + Tied([last], t);
    == { TiedSwap(x, last, t); }
      Tied(init, t) + (Tied([last], t) + Tied([x], t));
    == { TiedConcat(init, [last], t); }
      Tied(init + [last], t) + Tied([x], t);
    }
  }

  /** Inserting `x` puts it behind every object of its own timestamp. */
  lemma {:induction false} InsertTied(s: seq<StoredObject>, x: StoredObject, t: int)
    ensures Tied(Insert(s, x), t) == Tied(s, t) + Tied([x], t)
    decreases |s|
  {
    if s == [] || s[|s| - 1].updatedAt >= x.updatedAt {
      TiedConcat(s, [x], t);
    } else {
      var init, last := s[..|s| - 1], s[|s| - 1];
      InsertTied(init, x, t);
      InsertTiedPast(init, last, x, t);
      assert s == init + [last];
    }
  }

  /**
   * The sort is stable: the objects sharing any one timestamp come out in
   * the order in which they were listed.
   */
  lemma {:induction false} SortNewestFirstStable(s: seq<StoredObject>, t: int)
    ensures Tied(SortNewestFirst(s), t) == Tied(s, t)
    decreases |s|
  {
    if s != [] {
      var init, last := s[..|s| - 1], s[|s| - 1];
      SortNewestFirstStable(init, t);
      InsertTied(SortNewestFirst(init), last, t);
      assert Tied([last], t) == if last.updatedAt == t then [last] else [];
    }
  }

  /** A listing without repeated objects keeps none after sorting. */
  lemma {:induction false} SortNewestFirstKeepsDistinct(s: seq<StoredObject>)
    requires Distinct(s)
    ensures Distinct(SortNewestFirst(s))
    decreases |s|
  {
    if s != [] {
      var init, x := s[..|s| - 1], s[|s| - 1];
      SortNewestFirstKeepsDistinct(init);
      SortNewestFirstPermutes(init);
      assert x !in multiset(SortNewestFirst(init)) by {
        assert x !in init;
      }
      InsertKeepsDistinct(SortNewestFirst(init), x);
    }
  }

  lemma {:induction false} InsertKeepsDistinct(s: seq<StoredObject>, x: StoredObject)
    requires Distinct(s) && x !in s
    ensures Distinct(Insert(s, x))
    decreases |s|
  {
    if s == [] || s[|s| - 1].updatedAt >= x.updatedAt {
      DistinctSnoc(s, x);
    } else {
      var init, last := s[..|s| - 1], s[|s| - 1];
      assert s == init + [last];
      InsertKeepsDistinct(init, x);
      InsertPermutes(init, x);
      assert last !in multiset(Insert(init, x));
      DistinctSnoc(Insert(init, x), last);
    }
  }

  /** One insertion step: moving past an older object. */
  lemma InsertPassesOlder(t: seq<StoredObject>, j: int, x: StoredObject)
    requires 0 < j <= |t| && t[j - 1].updatedAt < x.updatedAt
    ensures Insert(t[..j], x) + t[j..] == Insert(t[..j - 1], x) + t[j - 1..]
  {
    assert t[..j][..j - 1] == t[..j - 1];
    assert [t[j - 1]] + t[j..] == t[j - 1..];
  }

  /** The insertion stops behind an object at least as new, or at the front. */
  lemma InsertStops(t: seq<StoredObject>, j: int, x: StoredObject)
    requires 0 <= j <= |t| && (j == 0 || t[j - 1].updatedAt >= x.updatedAt)
    ensures Insert(t[..j], x) == t[..j] + [x]
  {
  }

  /**
   * `objects.sort` in place. Python's own algorithm differs, but an insertion
   * sort gives the same result: a stable newest-first order is unique
   * (`SortNewestFirstStable`).
   */
  method SortInPlace(a: array<StoredObject>)
    modifies a
    ensures a[..] == SortNewestFirst(old(a[..]))
  {
    ghost var s := a[..];
    for i := 0 to a.Length
      invariant a[..i] == SortNewestFirst(s[..i])
      invariant a[i..] == s[i..]
    {
      SortOneMore(s, i);
      NextUnsorted(a[..], s, i);
      InsertInPlace(a, i);
    }
    assert a[..] == a[..a.Length] && s == s[..a.Length];
  }

  lemma SortOneMore(s: seq<StoredObject>, i: int)
    requires 0 <= i < |s|
    ensures SortNewestFirst(s[..i + 1]) == Insert(SortNewestFirst(s[..i]), s[i])
  {
    assert s[..i + 1][..i] == s[..i];
  }

  lemma NextUnsorted(t: seq<StoredObject>, s: seq<StoredObject>, i: int)
    requires 0 <= i < |t| == |s| && t[i..] == s[i..]
    ensures t[i] == s[i] && t[i + 1..] == s[i + 1..]
  {
    assert t[i] == t[i..][0];
    assert t[i + 1..] == t[i..][1..];
  }

  /**
   * Moves `a[i]` back into the sorted prefix `a[..i]`, swapping it with each
   * older object before it.
   */
  method InsertInPlace(a: array<StoredObject>, i: int)
    requires 0 <= i < a.Length
    modifies a
    ensures a[..i + 1] == Insert(old(a[..i]), old(a[i]))
    ensures a[i + 1..] == old(a[i + 1..])
  {
    ghost var t, rest := a[..i], a[i + 1..];
    var x := a[i];
    var j := i;
    Unplaced(a[..], i);
    while j > 0 && a[j - 1].updatedAt < x.updatedAt
      invariant 0 <= j <= i
      invariant a[..] == t[..j] + [x] + t[j..] + rest
      invariant Insert(t, x) == Insert(t[..j], x) + t[j..]
    {
      InsertPassesOlder(t, j, x);
      SwapBack(a[..], t, j, x, rest);
      a[j - 1], a[j] := x, a[j - 1];
      j := j - 1;
    }
    InsertStops(t, j, x);
    Placed(a[..], t, j, x, rest);
  }

  /** Before the first swap, `a[i]` sits right behind the prefix. */
  lemma Unplaced(s: seq<StoredObject>, i: int)
    requires 0 <= i < |s|
    ensures s == s[..i][..i] + [s[i]] + s[..i][i..] + s[i + 1..]
    ensures Insert(s[..i], s[i]) == Insert(s[..i][..i], s[i]) + s[..i][i..]
  {
    assert s[..i][..i] == s[..i] && s[..i][i..] == [];
  }

  /** Swapping `x` with the object before it moves it one place towards the front. */
  lemma SwapBack(s: seq<StoredObject>, t: seq<StoredObject>, j: int, x: StoredObject, rest: seq<StoredObject>)
    requires 0 < j <= |t| && s == t[..j] + [x] + t[j..] + rest
    ensures s[j - 1 := x][j := t[j - 1]] == t[..j - 1] + [x] + t[j - 1..] + rest
  {
  }

  /** Once placed, the first `|t| + 1` objects are the insertion's result and the rest is untouched. */
  lemma Placed(s: seq<StoredObject>, t: seq<StoredObject>, j: int, x: StoredObject, rest: seq<StoredObject>)
    requires 0 <= j <= |t| && s == t[..j] + [x] + t[j..] + rest
    ensures s[..|t| + 1] == t[..j] + [x] + t[j..]
    ensures s[|t| + 1..] == rest
  {
  }

  /** `[obj["name"] for obj in s]`. */
  function Names(s: seq<StoredObject>): seq<string> {
    seq(|s|, i requires 0 <= i < |s| => s[i].name)
  }

  lemma NamesSnoc(s: seq<StoredObject>, o: StoredObject)
    ensures Names(s + [o]) == Names(s) + [o.name]
  {
  }

  lemma NameListed(s: seq<StoredObject>, o: StoredObject)
    requires o in s
    ensures o.name in Names(s)
  {
    var i :| 0 <= i < |s| && s[i] == o;
    assert Names(s)[i] == o.name;
  }

  /** `datetime.now() - timedelta(days=days)`, in microseconds. */
  function Cutoff(now: int, days: int): int {
    now - days * MicrosPerDay
  }

  /** The objects updated before `cutoff`, in listed order. */
  function OlderThan(s: seq<StoredObject>, cutoff: int): (r: seq<StoredObject>)
    ensures forall o :: o in r <==> o in s && o.updatedAt < cutoff
  {
    if s == [] then []
    else
      var last := s[|s| - 1];
      assert s == s[..|s| - 1] + [last];
      OlderThan(s[..|s| - 1], cutoff) + (if last.updatedAt < cutoff then [last] else [])
  }

  /** Where Python's `s[keep:]` starts in a list of length `n`: a negative `keep` counts from the end. */
  function SliceStart(n: nat, keep: int): (start: nat)
    ensures start <= n
  {
    if keep >= 0 then (if keep <= n then keep else n)
    else if n + keep >= 0 then n + keep
    else 0
  }

  /**
   * What the loop and the `extend` gather, duplicates included: the objects
   * older than the cutoff when `days` is non-zero, then all but the newest
   * `keep` when `keep` is non-zero.
   */
  function Candidates(sorted: seq<StoredObject>, keep: int, days: int, now: int): seq<StoredObject> {
    (if days != 0 then OlderThan(sorted, Cutoff(now, days)) else [])
    + (if keep != 0 then sorted[SliceStart(|sorted|, keep)..] else [])
  }

  /**
   * `{obj["name"]: obj for obj in s}`: each name maps to the last object
   * carrying it.
   */
  function LastByName(s: seq<StoredObject>): (m: map<string, StoredObject>)
    ensures forall o :: o in s ==> o.name in m
    ensures forall k :: k in m ==> m[k] in s && m[k].name == k
  {
    if s == [] then map[]
    else
      var last := s[|s| - 1];
      assert s == s[..|s| - 1] + [last];
      LastByName(s[..|s| - 1])[last.name := last]
  }

  /** The dictionary's entry for a name is its last object: a later object replaces an earlier one. */
  lemma {:induction false} LastByNameLastWins(s: seq<StoredObject>, i: int)
    requires 0 <= i < |s|
    requires forall j :: i < j < |s| ==> s[j].name != s[i].name
    ensures s[i].name in LastByName(s) && LastByName(s)[s[i].name] == s[i]
  {
    if i < |s| - 1 {
      LastByNameLastWins(s[..|s| - 1], i);
    }
  }

  /** Every name the dictionary's keys list in insertion order is a key. */
  lemma FreshNamesAreKeys(s: seq<StoredObject>)
    ensures forall k :: k in FreshKeys({}, Names(s)) ==> k in LastByName(s)
  {
    forall k | k in FreshKeys({}, Names(s))
      ensures k in LastByName(s)
    {
      assert k in Elems(FreshKeys({}, Names(s)));
      var i :| 0 <= i < |s| && Names(s)[i] == k;
      assert s[i] in s;
    }
  }

  /**
   * `list({obj["name"]: obj for obj in s}.values())`: one object per name,
   * names in the order of their first occurrence, each the last object with
   * that name.
   */
  function DedupByName(s: seq<StoredObject>): (r: seq<StoredObject>)
    ensures Names(r) == FreshKeys({}, Names(s))
    ensures Distinct(Names(r))
    ensures forall o :: o in r ==> o in s
  {
    var keys, m := FreshKeys({}, Names(s)), LastByName(s);
    FreshNamesAreKeys(s);
    seq(|keys|, i requires 0 <= i < |keys| => m[keys[i]])
  }

  /** Objects of `s` that share a name are the same object. */
  predicate NamesIdentify(s: seq<StoredObject>) {
    forall a, b :: a in s && b in s && a.name == b.name ==> a == b
  }

  /** When a name identifies its object, de-duplicating drops only repeats. */
  lemma DedupByNameKeepsAll(s: seq<StoredObject>)
    requires NamesIdentify(s)
    ensures forall o :: o in DedupByName(s) <==> o in s
  {
    var r := DedupByName(s);
    forall o | o in s
      ensures o in r
    {
      NameListed(s, o);
      assert o.name in Elems(Names(s));
      assert o.name in Elems(Names(r));
      var i :| 0 <= i < |r| && Names(r)[i] == o.name;
      assert r[i] in s;
    }
  }

  /** The objects `prune` deletes: the candidates of the newest-first listing, one per name. */
  function Selection(objects: seq<StoredObject>, keep: int, days: int, now: int): seq<StoredObject> {
    DedupByName(Candidates(SortNewestFirst(objects), keep, days, now))
  }

  /** `args.path or ''`. */
  function Prefix(path: Option<string>): string {
    if path.Some? then path.value else ""
  }

  /** `f"{prefix}/{obj['name']}"` for each selected object. */
  function RemovalPaths(prefix: string, selected: seq<StoredObject>): (r: seq<string>)
    ensures |r| == |selected|
    ensures forall i :: 0 <= i < |selected| ==> r[i] == prefix + "/" + selected[i].name
  {
    if selected == [] then []
    else RemovalPaths(prefix, selected[..|selected| - 1]) + [prefix + "/" + selected[|selected| - 1].name]
  }

  /** What `prune` asks for: the names it would delete on a dry run, the paths to remove otherwise. */
  datatype PruneRequest = DryRun(names: seq<string>) | Remove(paths: seq<string>)

  function Pruning(objects: seq<StoredObject>, path: Option<string>, keep: int, days: int, now: int, dryRun: bool): PruneRequest {
    var selected := Selection(objects, keep, days, now);
    if dryRun then DryRun(Names(selected)) else Remove(RemovalPaths(Prefix(path), selected))
  }

  /** Every selected object was listed. */
  lemma SelectionListed(objects: seq<StoredObject>, keep: int, days: int, now: int)
    ensures forall o :: o in Selection(objects, keep, days, now) ==> o in objects
  {
    var sorted := SortNewestFirst(objects);
    SortNewestFirstPermutes(objects);
    forall o | o in Selection(objects, keep, days, now)
      ensures o in objects
    {
      assert o in Candidates(sorted, keep, days, now);
      assert o in sorted;
      assert o in multiset(sorted);
    }
  }

  /** With `days` non-zero, a listed object older than the cutoff has its name selected. */
  lemma OlderSelected(objects: seq<StoredObject>, keep: int, days: int, now: int, o: StoredObject)
    requires days != 0 && o in objects && o.updatedAt < Cutoff(now, days)
    ensures o.name in Names(Selection(objects, keep, days, now))
  {
    var sorted := SortNewestFirst(objects);
    SortNewestFirstPermutes(objects);
    assert o in multiset(sorted);
    CandidateSelected(Candidates(sorted, keep, days, now), o);
  }

  /** With `keep` non-zero, every object past the first `keep` of the newest-first listing has its name selected. */
  lemma BeyondKeepSelected(objects: seq<StoredObject>, keep: int, days: int, now: int, i: int)
    requires keep != 0 && SliceStart(|objects|, keep) <= i < |objects|
    ensures SortNewestFirst(objects)[i].name in Names(Selection(objects, keep, days, now))
  {
    var sorted := SortNewestFirst(objects);
    SortNewestFirstPermutes(objects);
    var tail := sorted[SliceStart(|sorted|, keep)..];
    assert sorted[i] == tail[i - SliceStart(|sorted|, keep)];
    CandidateSelected(Candidates(sorted, keep, days, now), sorted[i]);
  }

  lemma CandidateSelected(candidates: seq<StoredObject>, o: StoredObject)
    requires o in candidates
    ensures o.name in Names(DedupByName(candidates))
  {
    NameListed(candidates, o);
    assert o.name in Elems(Names(candidates));
    assert o.name in Elems(Names(DedupByName(candidates)));
  }

  /** Names that are unique in the listing identify the objects, and no object is listed twice. */
  lemma UniqueNames(objects: seq<StoredObject>)
    requires Distinct(Names(objects))
    ensures NamesIdentify(objects)
    ensures Distinct(objects)
  {
    forall a, b | a in objects && b in objects && a.name == b.name
      ensures a == b
    {
      var p :| 0 <= p < |objects| && objects[p] == a;
      var q :| 0 <= q < |objects| && objects[q] == b;
      assert Names(objects)[p] == Names(objects)[q];
    }
    forall i, j | 0 <= i < j < |objects|
      ensures objects[i] != objects[j]
    {
      assert Names(objects)[i] != Names(objects)[j];
    }
  }

  /**
   * When names are unique, an object is deleted exactly when it is listed
   * and is older than the cutoff with `days` non-zero, or lies past the
   * newest `keep` with `keep` non-zero.
   */
  lemma SelectionExactly(objects: seq<StoredObject>, keep: int, days: int, now: int)
    requires Distinct(Names(objects))
    ensures forall o :: o in Selection(objects, keep, days, now) <==>
      o in objects
      && ((days != 0 && o.updatedAt < Cutoff(now, days))
          || (keep != 0 && o in SortNewestFirst(objects)[SliceStart(|objects|, keep)..]))
  {
    var sorted := SortNewestFirst(objects);
    SortNewestFirstPermutes(objects);
    var candidates := Candidates(sorted, keep, days, now);
    UniqueNames(objects);
    forall o | o in candidates
      ensures o in objects
    {
      assert o in sorted;
      assert o in multiset(sorted);
    }
    DedupByNameKeepsAll(candidates);
    forall o | o in objects
      ensures o in sorted
    {
      assert o in multiset(sorted);
    }
  }

  /**
   * When names are unique, an object among the newest `keep` (or any object,
   * with `keep` zero) that is not older than the cutoff (or any, with `days`
   * zero) is not deleted.
   */
  lemma KeptNotSelected(objects: seq<StoredObject>, keep: int, days: int, now: int, i: int)
    requires Distinct(Names(objects))
    requires 0 <= i < |objects| && (keep == 0 || i < SliceStart(|objects|, keep))
    requires days == 0 || SortNewestFirst(objects)[i].updatedAt >= Cutoff(now, days)
    ensures SortNewestFirst(objects)[i] !in Selection(objects, keep, days, now)
  {
    var sorted := SortNewestFirst(objects);
    UniqueNames(objects);
    SortNewestFirstKeepsDistinct(objects);
    if keep != 0 {
      NotFurtherOn(sorted, i, SliceStart(|objects|, keep));
    }
    SelectionExactly(objects, keep, days, now);
  }

  /** In a list without repeats, an element is not found past its own place. */
  lemma NotFurtherOn(s: seq<StoredObject>, i: int, start: int)
    requires Distinct(s) && 0 <= i < start <= |s|
    ensures s[i] !in s[start..]
  {
    forall k | 0 <= k < |s| - start
      ensures s[start..][k] != s[i]
    {
      assert s[start..][k] == s[start + k];
    }
  }

  /** With both `keep` and `days` zero nothing is deleted. */
  lemma NothingSelectedWhenDisabled(objects: seq<StoredObject>, now: int)
    ensures Selection(objects, 0, 0, now) == []
  {
    assert Candidates(SortNewestFirst(objects), 0, 0, now) == [];
    assert FreshKeys({}, Names([])) == [];
  }

  /**
   * `prune_files` from the listing on: sorts the listing in place, gathers
   * the candidates, de-duplicates them by name and asks for the dry-run
   * listing or the removal.
   */
  method PruneFiles(objects: array<StoredObject>, path: Option<string>, keep: int, days: int, now: int, dryRun: bool)
    returns (request: PruneRequest)
    modifies objects
    ensures objects[..] == SortNewestFirst(old(objects[..]))
    ensures request == Pruning(old(objects[..]), path, keep, days, now, dryRun)
  {
    SortInPlace(objects);
    var toDelete := CollectCandidates(objects, keep, days, now);
    var selected := Deduplicate(toDelete);
    if dryRun {
      request := DryRun(Names(selected));
    } else {
      var paths := BuildRemovalPaths(path, selected);
      request := Remove(paths);
    }
  }

  /** The loop over the listing and the `extend` that fill `to_delete`. */
  method CollectCandidates(objects: array<StoredObject>, keep: int, days: int, now: int)
    returns (toDelete: seq<StoredObject>)
    ensures toDelete == Candidates(objects[..], keep, days, now)
  {
    toDelete := [];
    if days != 0 {
      var cutoff := Cutoff(now, days);
      for k := 0 to objects.Length
        invariant toDelete == OlderThan(objects[..k], cutoff)
      {
        assert objects[..k + 1][..k] == objects[..k];
        if objects[k].updatedAt < cutoff {
          toDelete := toDelete + [objects[k]];
        }
      }
      assert objects[..objects.Length] == objects[..];
    }
    if keep != 0 {
      toDelete := toDelete + objects[SliceStart(objects.Length, keep)..];
    }
  }

  /** The dictionary comprehension over `to_delete` and the list of its values. */
  method Deduplicate(toDelete: seq<StoredObject>) returns (selected: seq<StoredObject>)
    ensures selected == DedupByName(toDelete)
  {
    var order: seq<string> := [];
    var byName: map<string, StoredObject> := map[];
    for k := 0 to |toDelete|
      invariant order == FreshKeys({}, Names(toDelete[..k]))
      invariant byName == LastByName(toDelete[..k])
    {
      var obj := toDelete[k];
      DedupStep(toDelete, k);
      if obj.name !in byName {
        order := order + [obj.name];
      }
      byName := byName[obj.name := obj];
    }
    assert toDelete[..|toDelete|] == toDelete;
    FreshNamesAreKeys(toDelete);
    selected := seq(|order|, i requires 0 <= i < |order| => byName[order[i]]);
  }

  /**
   * One more object: its name joins the key order if the dictionary lacks
   * it, and it becomes the name's entry.
   */
  lemma DedupStep(s: seq<StoredObject>, k: int)
    requires 0 <= k < |s|
    ensures FreshKeys({}, Names(s[..k + 1]))
      == FreshKeys({}, Names(s[..k])) + (if s[k].name in LastByName(s[..k]) then [] else [s[k].name])
    ensures LastByName(s[..k + 1]) == LastByName(s[..k])[s[k].name := s[k]]
  {
    var prefix := s[..k];
    assert s[..k + 1] == prefix + [s[k]];
    NamesSnoc(prefix, s[k]);
    FreshKeysSnoc({}, Names(prefix), s[k].name);
    if s[k].name in LastByName(prefix) {
      NameListed(prefix, LastByName(prefix)[s[k].name]);
    }
  }

  /** The comprehension building `path_to_delete`. */
  method BuildRemovalPaths(path: Option<string>, selected: seq<StoredObject>) returns (paths: seq<string>)
    ensures paths == RemovalPaths(Prefix(path), selected)
  {
    var prefix := if path.Some? then path.value else "";
    paths := [];
    for k := 0 to |selected|
      invariant paths == RemovalPaths(prefix, selected[..k])
    {
      assert selected[..k + 1][..k] == selected[..k];
      paths := paths + [prefix + "/" + selected[k].name];
    }
    assert selected[..|selected|] == selected;
  }
}
