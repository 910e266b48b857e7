/** A stable sort by a caller-given order, standing for Python's `sorted`/`list.sort`
    and JavaScript's `Array.prototype.sort`. `le(a, b)` means "a may come before b". */
module Sorting {
  import opened Strings

  /** Every two elements are comparable one way or the other. */
  ghost predicate Total<T(!new)>(le: (T, T) -> bool) {
    forall a, b :: le(a, b) || le(b, a)
  }

  predicate Sorted<T>(le: (T, T) -> bool, s: seq<T>) {
    forall i :: 0 < i < |s| ==> le(s[i - 1], s[i])
  }

  /** Inserts `x` before the first element it may precede, so that `x` stays ahead
      of the elements it ties with. */
  function Insert<T(!new)>(le: (T, T) -> bool, x: T, s: seq<T>): (r: seq<T>)
    ensures |r| == |s| + 1 && multiset(r) == multiset(s) + multiset{x}
    ensures r[0] == x || (s != [] && r[0] == s[0])
  {
    if s == [] || le(x, s[0]) then [x] + s
    else
      var rest := Insert(le, x, s[1..]);
      assert s == [s[0]] + s[1..];
      [s[0]] + rest
  }

  function Sort<T(!new)>(le: (T, T) -> bool, s: seq<T>): (r: seq<T>)
    ensures |r| == |s| && multiset(r) == multiset(s)
  {
    if s == [] then []
    else
      assert s == [s[0]] + s[1..];
      Insert(le, s[0], Sort(le, s[1..]))
  }

  /** Inserting into a sorted sequence keeps it sorted. */
  lemma {:induction false} InsertSorted<T(!new)>(le: (T, T) -> bool, x: T, s: seq<T>)
    requires Total(le) && Sorted(le, s)
    ensures Sorted(le, Insert(le, x, s))
  {
    if s != [] && !le(x, s[0]) {
      assert le(s[0], x);
      InsertSorted(le, x, s[1..]);
      var rest := Insert(le, x, s[1..]);
      assert Insert(le, x, s) == [s[0]] + rest;
      assert le(s[0], rest[0]) by {
        if rest[0] != x {
          assert rest[0] == s[1];
        }
      }
    }
  }

  /** The result of `Sort` is sorted whenever the order is total. */
  lemma {:induction false} SortSorted<T(!new)>(le: (T, T) -> bool, s: seq<T>)
    requires Total(le)
    ensures Sorted(le, Sort(le, s))
  {
    if s != [] {
      SortSorted(le, s[1..]);
      InsertSorted(le, s[0], Sort(le, s[1..]));
    }
  }

  ghost predicate Transitive<T(!new)>(le: (T, T) -> bool) {
    forall a, b, c :: le(a, b) && le(b, c) ==> le(a, c)
  }

  /** `x` and `y` are equal in the order: neither may go after the other. */
  predicate Tie<T>(le: (T, T) -> bool, x: T, y: T) { le(x, y) && le(y, x) }

  /** The elements of `s` that tie with `x`, in their order in `s`. */
  function Ties<T>(le: (T, T) -> bool, x: T, s: seq<T>): seq<T> {
    if s == [] then []
    else (if Tie(le, x, s[0]) then [s[0]] else []) + Ties(le, x, s[1..])
  }

  lemma TiesCons<T>(le: (T, T) -> bool, x: T, a: T, t: seq<T>)
    ensures Tie(le, x, a) ==> Ties(le, x, [a] + t) == [a] + Ties(le, x, t)
    ensures !Tie(le, x, a) ==> Ties(le, x, [a] + t) == Ties(le, x, t)
  {
    assert ([a] + t)[1..] == t;
    assert [] + Ties(le, x, t) == Ties(le, x, t);
  }

  /** `Insert` puts `y` in front when it may precede the first element... */
  lemma InsertFront<T(!new)>(le: (T, T) -> bool, y: T, t: seq<T>)
    requires t == [] || le(y, t[0])
    ensures Insert(le, y, t) == [y] + t
  {
  }

  /** ... and otherwise passes the first element. */
  lemma InsertPast<T(!new)>(le: (T, T) -> bool, y: T, t: seq<T>)
    requires t != [] && !le(y, t[0])
    ensures Insert(le, y, t) == [t[0]] + Insert(le, y, t[1..])
  {
  }

  /** Inserting `y` puts it ahead of every element it ties with, so among the
      elements tying with `x` it comes first. It needs only that an element tying
      with `x` may go before every other one that does. */
  lemma {:induction false} InsertTies<T(!new)>(le: (T, T) -> bool, x: T, y: T, t: seq<T>)
    requires Tie(le, x, y) ==> forall z :: Tie(le, x, z) ==> le(y, z)
    ensures Tie(le, x, y) ==> Ties(le, x, Insert(le, y, t)) == [y] + Ties(le, x, t)
    ensures !Tie(le, x, y) ==> Ties(le, x, Insert(le, y, t)) == Ties(le, x, t)
  {
    if t == [] || le(y, t[0]) {
      InsertFront(le, y, t);
      TiesCons(le, x, y, t);
    } else {
      var a, u := t[0], t[1..];
      assert t == [a] + u;
      InsertPast(le, y, t);
      InsertTies(le, x, y, u);
      TiesCons(le, x, a, Insert(le, y, u));
      TiesCons(le, x, a, u);
      if Tie(le, x, y) {
        assert !Tie(le, x, a);
        calc {
          Ties(le, x, Insert(le, y, t));
          Ties(le, x, [a] + Insert(le, y, u));
          Ties(le, x, Insert(le, y, u));
          [y] + Ties(le, x, u);
          [y] + Ties(le, x, t);
        }
      } else if Tie(le, x, a) {
        calc {
          Ties(le, x, Insert(le, y, t));
          Ties(le, x, [a] + Insert(le, y, u));
          [a] + Ties(le, x, Insert(le, y, u));
          [a] + Ties(le, x, u);
          Ties(le, x, t);
        }
      } else {
        calc {
          Ties(le, x, Insert(le, y, t));
          Ties(le, x, [a] + Insert(le, y, u));
          Ties(le, x, Insert(le, y, u));
          Ties(le, x, u);
          Ties(le, x, t);
        }
      }
    }
  }

  /** The elements tying with `x` may go either way round. */
  ghost predicate TiesAgree<T(!new)>(le: (T, T) -> bool, x: T) {
    forall y, z :: Tie(le, x, y) && Tie(le, x, z) ==> le(y, z)
  }

  lemma TransitiveTiesAgree<T(!new)>(le: (T, T) -> bool, x: T)
    requires Transitive(le)
    ensures TiesAgree(le, x)
  {
  }

  lemma SortCons<T(!new)>(le: (T, T) -> bool, s: seq<T>)
    requires s != []
    ensures Sort(le, s) == Insert(le, s[0], Sort(le, s[1..]))
  {
  }

  lemma {:induction false} SortKeepsTies<T(!new)>(le: (T, T) -> bool, x: T, s: seq<T>)
    requires TiesAgree(le, x)
    ensures Ties(le, x, Sort(le, s)) == Ties(le, x, s)
  {
    if s != [] {
      var y, t := s[0], s[1..];
      assert s == [y] + t;
      SortCons(le, s);
      SortKeepsTies(le, x, t);
      InsertTies(le, x, y, Sort(le, t));
      TiesCons(le, x, y, t);
      if Tie(le, x, y) {
        calc {
          Ties(le, x, Sort(le, s));
          Ties(le, x, Insert(le, y, Sort(le, t)));
          [y] + Ties(le, x, Sort(le, t));
          [y] + Ties(le, x, t);
          Ties(le, x, s);
        }
      } else {
        calc {
          Ties(le, x, Sort(le, s));
          Ties(le, x, Insert(le, y, Sort(le, t)));
          Ties(le, x, Sort(le, t));
          Ties(le, x, t);
          Ties(le, x, s);
        }
      }
    }
  }

  /** The sort is stable: under a transitive order the elements that tie with any
      `x` keep their input order. */
  lemma SortStable<T(!new)>(le: (T, T) -> bool, x: T, s: seq<T>)
    requires Transitive(le)
    ensures Ties(le, x, Sort(le, s)) == Ties(le, x, s)
  {
    TransitiveTiesAgree(le, x);
    SortKeepsTies(le, x, s);
  }

  lemma SortedMembers<T(!new)>(le: (T, T) -> bool, s: seq<T>, x: T)
    ensures x in Sort(le, s) <==> x in s
  {
    assert x in multiset(Sort(le, s)) <==> x in multiset(s);
  }

  /** Strings in code-point order: Python's `sorted` of strings and JavaScript's
      `sort()` without a comparator. */
  predicate StrLe(a: string, b: string) { LexLe(a, b) }

  lemma StrLeTotal()
    ensures Total(StrLe)
  {
    forall a: string, b: string ensures StrLe(a, b) || StrLe(b, a) {
      LexLeTotal(a, b);
    }
  }
}
