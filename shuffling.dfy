/** The shuffle `[...arr].sort(() => Math.random() - 0.5)` is a copy of `arr` put in
    some order the random comparator decides. It is modelled as a selection shuffle
    driven by a sequence of random picks: `picks[k]` chooses, among the elements not
    yet placed, the one that goes to position `k`. Every permutation is reachable
    (`ShuffleReachesEvery`), so the model allows exactly the outcomes "some
    permutation of the input". The input is a value and is never changed. */
module Shuffling {
  import opened Strings

  function Pick(picks: seq<nat>): nat { if picks == [] then 0 else picks[0] }

  function Rest(picks: seq<nat>): seq<nat> { if picks == [] then [] else picks[1..] }

  function Shuffle<T>(s: seq<T>, picks: seq<nat>): (r: seq<T>)
    ensures |r| == |s|
    decreases |s|
  {
    if s == [] then []
    else
      var j := Pick(picks) % |s|;
      [s[j]] + Shuffle(RemoveAt(s, j), Rest(picks))
  }

  /** A shuffle is a permutation of its input. */
  lemma {:induction false} ShufflePermutes<T>(s: seq<T>, picks: seq<nat>)
    ensures multiset(Shuffle(s, picks)) == multiset(s)
    decreases |s|
  {
    if s != [] {
      var j := Pick(picks) % |s|;
      var rest := Shuffle(RemoveAt(s, j), Rest(picks));
      ShufflePermutes(RemoveAt(s, j), Rest(picks));
      assert Shuffle(s, picks) == [s[j]] + rest;
      assert multiset([s[j]] + rest) == multiset{s[j]} + multiset(rest);
    }
  }

  /** `s` without its element at `j`. */
  function RemoveAt<T>(s: seq<T>, j: nat): (r: seq<T>)
    requires j < |s|
    ensures |r| == |s| - 1 && multiset(r) == multiset(s) - multiset{s[j]}
  {
    assert s == s[..j] + [s[j]] + s[j + 1..];
    s[..j] + s[j + 1..]
  }

  lemma TailMultiset<T>(t: seq<T>)
    requires t != []
    ensures multiset(t[1..]) == multiset(t) - multiset{t[0]}
  {
    assert t == [t[0]] + t[1..];
  }

  function IndexOf<T(==)>(s: seq<T>, x: T): (i: nat)
    requires x in s
    ensures i < |s| && s[i] == x
    ensures forall j :: 0 <= j < i ==> s[j] != x
  {
    if s[0] == x then 0 else 1 + IndexOf(s[1..], x)
  }

  lemma SmallMod(j: nat, n: nat)
    requires j < n
    ensures j % n == j
  {
  }

  /** The picks that make `Shuffle(s, ·)` produce `t`. */
  function PicksFor<T(==)>(s: seq<T>, t: seq<T>): (picks: seq<nat>)
    requires multiset(s) == multiset(t)
    decreases |s|
  {
    if s == [] then []
    else
      assert |t| == |multiset(t)| == |multiset(s)| == |s|;
      TailMultiset(t);
      assert t[0] in multiset(s);
      var j := IndexOf(s, t[0]);
      [j] + PicksFor(RemoveAt(s, j), t[1..])
  }

  lemma ShuffleStep<T>(s: seq<T>, picks: seq<nat>)
    requires picks != [] && picks[0] < |s|
    ensures Shuffle(s, picks) == [s[picks[0]]] + Shuffle(RemoveAt(s, picks[0]), picks[1..])
  {
    SmallMod(picks[0], |s|);
  }

  lemma PicksForStep<T>(s: seq<T>, t: seq<T>) returns (j: nat)
    requires s != [] && multiset(s) == multiset(t)
    ensures t != [] && j < |s| && s[j] == t[0]
    ensures multiset(RemoveAt(s, j)) == multiset(t[1..])
    ensures PicksFor(s, t) == [j] + PicksFor(RemoveAt(s, j), t[1..])
  {
    assert |t| == |multiset(t)| == |multiset(s)| == |s|;
    TailMultiset(t);
    assert t[0] in multiset(s);
    j := IndexOf(s, t[0]);
  }

  lemma {:induction false} ShuffleReachesEvery<T>(s: seq<T>, t: seq<T>)
    requires multiset(s) == multiset(t)
    ensures Shuffle(s, PicksFor(s, t)) == t
    decreases |s|
  {
    if s == [] {
      assert |t| == |multiset(t)| == 0;
    } else {
      var j := PicksForStep(s, t);
      var picks, rest := PicksFor(s, t), RemoveAt(s, j);
      ShuffleStep(s, picks);
      ShuffleReachesEvery(rest, t[1..]);
      Cons(Shuffle(s, picks), t);
    }
  }

  lemma Cons<T>(r: seq<T>, t: seq<T>)
    requires t != [] && r != [] && r[0] == t[0] && r[1..] == t[1..]
    ensures r == t
  {
    assert r == [r[0]] + r[1..];
    assert t == [t[0]] + t[1..];
  }

  /** A sequence without repetitions. */
  predicate Distinct<T(==)>(s: seq<T>) {
    forall i, j :: 0 <= i < j < |s| ==> s[i] != s[j]
  }

  lemma DistinctCons<T>(x: T, s: seq<T>)
    requires Distinct(s) && x !in s
    ensures Distinct([x] + s)
  {
    var r := [x] + s;
    forall i, j | 0 <= i < j < |r| ensures r[i] != r[j] {
      if i > 0 {
        assert r[i] == s[i - 1] && r[j] == s[j - 1];
      } else {
        assert r[j] == s[j - 1];
      }
    }
  }

  lemma DistinctPrefix<T>(s: seq<T>, k: nat)
    requires Distinct(s) && k <= |s|
    ensures Distinct(s[..k])
  {
  }

  lemma DistinctMultiplicity<T>(s: seq<T>)
    ensures Distinct(s) <==> forall x :: multiset(s)[x] <= 1
  {
    if Distinct(s) {
      forall x ensures multiset(s)[x] <= 1 {
        DistinctCount(s, x);
      }
    }
    if !Distinct(s) {
      var i, j :| 0 <= i < j < |s| && s[i] == s[j];
      Repeated(s, i, j);
    }
  }

  lemma Repeated<T>(s: seq<T>, i: nat, j: nat)
    requires i < j < |s| && s[i] == s[j]
    ensures multiset(s)[s[i]] >= 2
  {
    assert s == s[..i] + [s[i]] + s[i + 1..j] + [s[j]] + s[j + 1..];
  }

  lemma {:induction false} DistinctCount<T>(s: seq<T>, x: T)
    requires Distinct(s)
    ensures multiset(s)[x] <= 1
  {
    if s != [] {
      assert s == [s[0]] + s[1..];
      DistinctCount(s[1..], x);
      if s[0] == x {
        assert x !in s[1..];
      }
    }
  }

  /** Shuffling keeps a sequence free of repetitions. */
  lemma ShuffleKeepsDistinct<T>(s: seq<T>, picks: seq<nat>)
    ensures Distinct(Shuffle(s, picks)) <==> Distinct(s)
  {
    ShufflePermutes(s, picks);
    DistinctMultiplicity(s);
    DistinctMultiplicity(Shuffle(s, picks));
  }

  /** Shuffling keeps the members of a sequence. */
  lemma ShuffleMember<T>(s: seq<T>, picks: seq<nat>, x: T)
    ensures x in Shuffle(s, picks) <==> x in s
  {
    ShufflePermutes(s, picks);
    assert x in multiset(Shuffle(s, picks)) <==> x in multiset(s);
  }

  /** `s.map(f)`. */
  function Map<T, U>(f: T -> U, s: seq<T>): (r: seq<U>)
    ensures |r| == |s| && forall i :: 0 <= i < |s| ==> r[i] == f(s[i])
  {
    seq(|s|, i requires 0 <= i < |s| => f(s[i]))
  }

  /** `s.filter(p)`: the elements that pass, in order. */
  function Filter<T>(p: T -> bool, s: seq<T>): (r: seq<T>)
    ensures |r| <= |s|
    ensures forall i :: 0 <= i < |r| ==> r[i] in s && p(r[i])
    ensures forall i :: 0 <= i < |s| && p(s[i]) ==> s[i] in r
  {
    if s == [] then []
    else
      var init := s[..|s| - 1];
      assert s == init + [s[|s| - 1]];
      Filter(p, init) + (if p(s[|s| - 1]) then [s[|s| - 1]] else [])
  }

  /** Element `j` passes `p` and no earlier one does. */
  ghost predicate FirstWith<T>(p: T -> bool, s: seq<T>, j: int) {
    0 <= j < |s| && p(s[j]) && forall i :: 0 <= i < j ==> !p(s[i])
  }

  /** Element `j` passes `p` and no later one does. */
  ghost predicate LastWith<T>(p: T -> bool, s: seq<T>, j: int) {
    0 <= j < |s| && p(s[j]) && forall i :: j < i < |s| ==> !p(s[i])
  }

  /** The filter is empty exactly when no element passes, and otherwise starts with
      the first element that passes. */
  lemma {:induction false} FilterFirst<T>(p: T -> bool, s: seq<T>)
    ensures Filter(p, s) != [] <==> exists j :: FirstWith(p, s, j)
    ensures forall j :: FirstWith(p, s, j) ==> Filter(p, s)[0] == s[j]
  {
    if s != [] {
      var n := |s| - 1;
      var init := s[..n];
      assert s == init + [s[n]];
      FilterFirst(p, init);
      FilterSnoc(p, init, s[n]);
      if Filter(p, init) != [] {
        var j :| FirstWith(p, init, j);
        FirstWithSnoc(p, init, s[n], j);
        forall k | FirstWith(p, s, k) ensures Filter(p, s)[0] == s[k] {
          FirstWithUnique(p, s, j, k);
        }
      } else {
        NoneBefore(p, init);
        if p(s[n]) {
          assert FirstWith(p, s, n);
        }
      }
    }
  }

  lemma FilterSnoc<T>(p: T -> bool, init: seq<T>, x: T)
    ensures Filter(p, init + [x]) == Filter(p, init) + (if p(x) then [x] else [])
  {
    assert (init + [x])[..|init|] == init;
  }

  lemma FirstWithSnoc<T>(p: T -> bool, init: seq<T>, x: T, j: int)
    requires FirstWith(p, init, j)
    ensures FirstWith(p, init + [x], j)
  {
  }

  lemma FirstWithUnique<T>(p: T -> bool, s: seq<T>, j: int, k: int)
    requires FirstWith(p, s, j) && FirstWith(p, s, k)
    ensures j == k
  {
  }

  /** An empty filter means no element passes. */
  lemma NoneBefore<T>(p: T -> bool, s: seq<T>)
    requires Filter(p, s) == []
    ensures forall i :: 0 <= i < |s| ==> !p(s[i])
  {
  }

  /** A last element that passes is the last one that passes. */
  lemma LastWithEnd<T>(p: T -> bool, s: seq<T>)
    requires s != [] && p(s[|s| - 1])
    ensures LastWith(p, s, |s| - 1)
  {
  }

  /** A last element that fails keeps the last one that passes. */
  lemma LastWithSnoc<T>(p: T -> bool, init: seq<T>, x: T, j: int)
    requires LastWith(p, init, j) && !p(x)
    ensures LastWith(p, init + [x], j)
  {
    var s := init + [x];
    forall i | j < i < |s| ensures !p(s[i]) {
      if i < |init| {
        assert s[i] == init[i];
      }
    }
  }

  /** Shuffling and then mapping is mapping and then shuffling with the same picks. */
  lemma {:induction false} ShuffleMap<T, U>(f: T -> U, s: seq<T>, picks: seq<nat>)
    ensures Map(f, Shuffle(s, picks)) == Shuffle(Map(f, s), picks)
    decreases |s|
  {
    if s != [] {
      var j := Pick(picks) % |s|;
      var rest := Shuffle(RemoveAt(s, j), Rest(picks));
      ShuffleMap(f, RemoveAt(s, j), Rest(picks));
      MapRemoveAt(f, s, j);
      MapCons(f, s[j], rest);
    }
  }

  lemma MapRemoveAt<T, U>(f: T -> U, s: seq<T>, j: nat)
    requires j < |s|
    ensures Map(f, RemoveAt(s, j)) == RemoveAt(Map(f, s), j)
  {
  }

  lemma MapTake<T, U>(f: T -> U, s: seq<T>, k: nat)
    ensures Map(f, Take(s, k)) == Take(Map(f, s), k)
  {
  }

  lemma MapCons<T, U>(f: T -> U, x: T, s: seq<T>)
    ensures Map(f, [x] + s) == [f(x)] + Map(f, s)
  {
  }

  /** The multiple-choice deal used by every quiz: `first` together with the first
      three of a shuffled `pool`, all shuffled again. */
  function Deal<T>(first: T, pool: seq<T>, picks1: seq<nat>, picks2: seq<nat>): (r: seq<T>)
    ensures |r| == 1 + (if |pool| < 3 then |pool| else 3)
  {
    Shuffle([first] + Take(Shuffle(pool, picks1), 3), picks2)
  }

  /** A deal holds `first` and `min(3, |pool|)` members of the pool: as a multiset it
      is `first` plus the first three of the shuffled pool, so no member of the pool
      appears in it more often than in the pool (not counting `first` once). */
  lemma DealShape<T>(first: T, pool: seq<T>, picks1: seq<nat>, picks2: seq<nat>)
    ensures var r := Deal(first, pool, picks1, picks2);
      && |r| == 1 + (if |pool| < 3 then |pool| else 3)
      && first in r
      && (forall x :: x in r && x != first ==> x in pool)
      && multiset(r) == multiset{first} + multiset(Take(Shuffle(pool, picks1), 3))
      && multiset(Take(Shuffle(pool, picks1), 3)) <= multiset(pool)
      && multiset(r) - multiset{first} <= multiset(pool)
  {
    var sh := Shuffle(pool, picks1);
    var all := [first] + Take(sh, 3);
    var r := Shuffle(all, picks2);
    ShufflePermutes(all, picks2);
    ShufflePermutes(pool, picks1);
    TakeSub(sh, 3);
    assert multiset(all) == multiset{first} + multiset(Take(sh, 3));
    assert multiset(r) - multiset{first} == multiset(Take(sh, 3));
    ShuffleMember(all, picks2, first);
    forall x | x in r && x != first ensures x in pool {
      ShuffleMember(all, picks2, x);
      TakeMember(sh, x);
      ShuffleMember(pool, picks1, x);
    }
  }

  lemma TakeSub<T>(s: seq<T>, n: nat)
    ensures multiset(Take(s, n)) <= multiset(s)
  {
    if n < |s| {
      assert s == s[..n] + s[n..];
    }
  }

  lemma TakeMember<T>(s: seq<T>, x: T)
    requires x in Take(s, 3)
    ensures x in s
  {
  }

  /** Dealt from a pool that lacks `first`, the deal holds `first` exactly once. */
  lemma DealOnce<T>(first: T, pool: seq<T>, picks1: seq<nat>, picks2: seq<nat>)
    requires first !in pool
    ensures multiset(Deal(first, pool, picks1, picks2))[first] == 1
  {
    var sh := Shuffle(pool, picks1);
    var top := Take(sh, 3);
    ShuffleMember(pool, picks1, first);
    assert first !in top;
    assert multiset([first] + top)[first] == 1;
    ShufflePermutes([first] + top, picks2);
  }

  /** Dealt from a pool without repetitions that lacks `first`, the deal has no
      repetitions and holds `first` exactly once. */
  lemma DealDistinct<T>(first: T, pool: seq<T>, picks1: seq<nat>, picks2: seq<nat>)
    requires Distinct(pool) && first !in pool
    ensures Distinct(Deal(first, pool, picks1, picks2))
  {
    var sh := Shuffle(pool, picks1);
    var top := Take(sh, 3);
    ShuffleKeepsDistinct(pool, picks1);
    DistinctPrefix(sh, |top|);
    ShuffleMember(pool, picks1, first);
    assert first !in top;
    DistinctCons(first, top);
    var all := [first] + top;
    ShuffleKeepsDistinct(all, picks2);
  }

  /** Mapping a deal is dealing the mapped values. */
  lemma DealMap<T, U>(f: T -> U, first: T, pool: seq<T>, picks1: seq<nat>, picks2: seq<nat>)
    ensures Map(f, Deal(first, pool, picks1, picks2)) == Deal(f(first), Map(f, pool), picks1, picks2)
  {
    var top := Take(Shuffle(pool, picks1), 3);
    ShuffleMap(f, [first] + top, picks2);
    MapCons(f, first, top);
    MapTake(f, Shuffle(pool, picks1), 3);
    ShuffleMap(f, pool, picks1);
  }
}
