/** The competition leaderboard (app/leaderboard.py): a JSON file holding a list of
    entries, kept sorted best first. Adding a score checks and normalises it, stores
    it among the others, and reports the top twenty and whether it is among them. */
module Leaderboard {
  import opened Wrappers
  import opened Strings
  import opened Sorting
  import opened Shuffling

  /** A stored entry. Entries read back from the file may lack a key. */
  datatype Entry = Entry(name: Option<string>, score: Option<real>, date: Option<string>)

  /** The file: a decodable list of entries, or text that is not valid JSON. */
  datatype Stored = Decoded(entries: seq<Entry>) | Undecodable

  /** The `name` argument: a Python `str`, or a value of any other type. */
  datatype NameArg = Str(text: string) | NotStr

  datatype Top = Top(top20: seq<Entry>, madeTop: bool)

  const MaxNameLength := 32
  const TopCount := 20

  /** `_read_all`: an undecodable file reads as the empty list. */
  function ReadAll(file: Stored): (r: seq<Entry>)
    ensures file.Undecodable? ==> r == []
    ensures file.Decoded? ==> r == file.entries
  {
    match file
    case Decoded(entries) => entries
    case Undecodable => []
  }

  /** `e.get("score", 0.0)` and `e.get("date", "")`. */
  function ScoreKey(e: Entry): real { e.score.GetOr(0.0) }

  function DateKey(e: Entry): string { e.date.GetOr("") }

  /** `a` may come before `b` in the descending order on (score, date): Python
      compares the key tuples, scores first and dates as strings. */
  predicate KeyGe(a: Entry, b: Entry) {
    ScoreKey(a) > ScoreKey(b) || (ScoreKey(a) == ScoreKey(b) && LexLe(DateKey(b), DateKey(a)))
  }

  lemma KeyGeTotal()
    ensures Total(KeyGe)
  {
    forall a: Entry, b: Entry ensures KeyGe(a, b) || KeyGe(b, a) {
      LexLeTotal(DateKey(a), DateKey(b));
    }
  }

  /** Python's `s[:n]`: a negative `n` counts from the end. */
  function SliceTo<T>(s: seq<T>, n: int): (r: seq<T>)
    ensures n >= 0 ==> |r| == (if n < |s| then n else |s|)
    ensures n < 0 ==> |r| == (if |s| + n > 0 then |s| + n else 0)
    ensures r == s[..|r|]
  {
    if n >= 0 then (if n < |s| then s[..n] else s)
    else if |s| + n > 0 then s[..|s| + n] else []
  }

  /** The entry `add_score` stores for valid arguments. */
  function NewEntry(name: string, score: real, now: string): (e: Entry)
    ensures e.name.Some? && |e.name.value| <= MaxNameLength
    ensures e.name.value == Take(Trim(name), MaxNameLength)
    ensures e.score == Some(score) && e.date == Some(now + "Z")
  {
    Entry(Some(Take(Trim(name), MaxNameLength)), Some(score), Some(now + "Z"))
  }

  /** The list written back: the old entries and the new one, sorted best first,
      then cut to `maxKeep` unless it is zero; a negative `maxKeep` drops that many
      entries from the end, as Python's `data[:max_keep]` does. */
  function Added(entries: seq<Entry>, entry: Entry, maxKeep: int): (r: seq<Entry>)
    ensures Sorted(KeyGe, r) && |r| <= |entries| + 1
    ensures var all := Sort(KeyGe, entries + [entry]); r == all[..|r|]
    ensures maxKeep == 0 ==> multiset(r) == multiset(entries) + multiset{entry}
    ensures maxKeep > 0 ==> |r| == (if maxKeep < |entries| + 1 then maxKeep else |entries| + 1)
    ensures maxKeep < 0 ==> |r| == (if |entries| + 1 + maxKeep > 0 then |entries| + 1 + maxKeep else 0)
    ensures multiset(r) <= multiset(entries) + multiset{entry}
  {
    var all := Sort(KeyGe, entries + [entry]);
    KeyGeTotal();
    SortSorted(KeyGe, entries + [entry]);
    var r := if maxKeep != 0 then SliceTo(all, maxKeep) else all;
    PrefixMultiset(all, |r|);
    r
  }

  lemma PrefixMultiset<T>(s: seq<T>, k: nat)
    requires k <= |s|
    ensures multiset(s[..k]) <= multiset(s)
  {
    assert s == s[..k] + s[k..];
  }

  /** The reply of `add_score`: the first twenty stored entries and whether an entry
      equal to the new one is among them. */
  function TopOf(data: seq<Entry>, entry: Entry): (t: Top)
    ensures |t.top20| == (if |data| < TopCount then |data| else TopCount)
    ensures t.top20 == data[..|t.top20|]
    ensures t.madeTop <==> exists i :: 0 <= i < |t.top20| && data[i] == entry
  {
    var top20 := SliceTo(data, TopCount);
    Top(top20, entry in top20)
  }

  /** The argument checks of `add_score`, in order: the name, then the score. */
  function Check(name: NameArg, score: Option<real>): (err: Option<string>)
    ensures err.None? <==> name.Str? && !Blank(name.text) && score.Some?
    ensures (name.NotStr? || Blank(name.text)) ==> err == Some("name required")
    ensures name.Str? && !Blank(name.text) && score.None? ==> err == Some("score must be a number")
  {
    if name.NotStr? || Trim(name.text) == "" then Some("name required")
    else if score.None? then Some("score must be a number")
    else None
  }

  class Board {
    var file: Stored

    constructor (initial: Stored)
      ensures file == initial
    {
      file := initial;
    }

    /** `add_score`: `score` is the result of `float(score)`, `None` when that raises;
        `now` is the UTC clock reading in ISO form. */
    method AddScore(name: NameArg, score: Option<real>, now: string, maxKeep: int) returns (r: Result<Top>)
      modifies this
      ensures Check(name, score).Some? ==> r == Failure(Check(name, score).value) && file == old(file)
      ensures Check(name, score).None? ==>
        var entry := NewEntry(name.text, score.value, now);
        var data := Added(ReadAll(old(file)), entry, maxKeep);
        file == Decoded(data) && r == Ok(TopOf(data, entry))
    {
      var err := Check(name, score);
      if err.Some? {
        return Failure(err.value);
      }
      var entry := NewEntry(name.text, score.value, now);
      var data := ReadAll(file);
      data := Added(data, entry, maxKeep);
      file := Decoded(data);
      r := Ok(TopOf(data, entry));
    }

    /** `get_top`: the first `max(0, limit)` stored entries. */
    function GetTop(limit: int): (r: seq<Entry>)
      reads this
      ensures |r| == (if limit <= 0 then 0 else if limit < |ReadAll(file)| then limit else |ReadAll(file)|)
      ensures r == ReadAll(file)[..|r|]
    {
      SliceTo(ReadAll(file), if limit > 0 then limit else 0)
    }
  }

  lemma KeyGeTransitive(a: Entry, b: Entry, c: Entry)
    ensures KeyGe(a, b) && KeyGe(b, c) ==> KeyGe(a, c)
  {
    LexLeTransitive(DateKey(c), DateKey(b), DateKey(a));
  }

  /** In a list sorted best first, every entry ranks at least as high as every later one. */
  lemma {:induction false} SortedPairs(s: seq<Entry>)
    requires Sorted(KeyGe, s)
    ensures forall i, j :: 0 <= i < j < |s| ==> KeyGe(s[i], s[j])
  {
    if |s| > 1 {
      var init := s[..|s| - 1];
      assert Sorted(KeyGe, init);
      SortedPairs(init);
      forall i | 0 <= i < |s| - 1 ensures KeyGe(s[i], s[|s| - 1]) {
        if i < |s| - 2 {
          assert KeyGe(s[i], s[|s| - 2]) by { assert init[i] == s[i] && init[|s| - 2] == s[|s| - 2]; }
          KeyGeTransitive(s[i], s[|s| - 2], s[|s| - 1]);
        }
      }
      forall i, j | 0 <= i < j < |s| ensures KeyGe(s[i], s[j]) {
        if j < |s| - 1 {
          assert init[i] == s[i] && init[j] == s[j];
        }
      }
    }
  }

  /** Of a list sorted best first, each entry of a prefix ranks at least as high as
      each entry after it. */
  lemma PrefixRanks(all: seq<Entry>, k: nat, x: Entry, y: Entry)
    requires Sorted(KeyGe, all) && k <= |all|
    requires x in all[..k] && y in multiset(all[k..])
    ensures KeyGe(x, y)
  {
    SortedPairs(all);
    var j :| 0 <= j < |all| - k && all[k..][j] == y;
    var i :| 0 <= i < k && all[..k][i] == x;
    assert all[i] == x && all[k + j] == y;
  }

  /** Cutting to `maxKeep` keeps the best entries: every entry written back ranks at
      least as high as every old entry, or the new one, that was dropped. */
  lemma AddedKeepsBest(entries: seq<Entry>, entry: Entry, maxKeep: int)
    ensures var r := Added(entries, entry, maxKeep);
      forall x, y :: x in r && y in multiset(entries) + multiset{entry} - multiset(r) ==> KeyGe(x, y)
  {
    var r := Added(entries, entry, maxKeep);
    var all := Sort(KeyGe, entries + [entry]);
    var k := |r|;
    KeyGeTotal();
    SortSorted(KeyGe, entries + [entry]);
    assert all == all[..k] + all[k..];
    assert multiset(entries + [entry]) == multiset(entries) + multiset{entry};
    assert multiset(all[k..]) == multiset(entries) + multiset{entry} - multiset(r);
    forall x, y | x in r && y in multiset(entries) + multiset{entry} - multiset(r) ensures KeyGe(x, y) {
      PrefixRanks(all, k, x, y);
    }
  }

  /** A new entry with a higher score than every stored one sorts first. */
  lemma BestEntryFirst(entries: seq<Entry>, entry: Entry)
    requires forall e :: e in entries ==> ScoreKey(entry) > ScoreKey(e)
    ensures Sort(KeyGe, entries + [entry])[0] == entry
  {
    var all := Sort(KeyGe, entries + [entry]);
    KeyGeTotal();
    SortSorted(KeyGe, entries + [entry]);
    assert entry in multiset(entries + [entry]);
    var k := IndexOf(all, entry);
    if k > 0 {
      Outranked(entries, entry, all, k);
      assert false;
    }
  }

  /** The entry just before the first copy of `entry` in the sorted list is an old
      one that does not rank below it. */
  lemma Outranked(entries: seq<Entry>, entry: Entry, all: seq<Entry>, k: nat)
    requires Sorted(KeyGe, all) && multiset(all) == multiset(entries + [entry])
    requires 0 < k < |all| && all[k] == entry && all[k - 1] != entry
    ensures all[k - 1] in entries && ScoreKey(all[k - 1]) >= ScoreKey(entry)
  {
    assert all[k - 1] in multiset(entries + [entry]);
  }

  /** Such an entry makes the top whenever anything is kept. */
  lemma BestEntryMakesTop(entries: seq<Entry>, entry: Entry, maxKeep: int)
    requires forall e :: e in entries ==> ScoreKey(entry) > ScoreKey(e)
    requires maxKeep >= 0 || |entries| + 1 + maxKeep > 0
    ensures TopOf(Added(entries, entry, maxKeep), entry).madeTop
  {
    BestEntryFirst(entries, entry);
    var data := Added(entries, entry, maxKeep);
    assert |data| > 0;
    assert data[0] == entry;
  }
}
