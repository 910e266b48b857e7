/** The directory-tree printer (scripts/generate_tree.py): the lines of a
    `tree`-style drawing of a directory, over an abstract file system. Each
    directory level lists its entries without the excluded names, sorted
    case-insensitively; a directory's lines follow its own line, indented. */
module DirectoryTree {
  import opened Strings
  import opened Sorting

  /** What `os.listdir` gives for a directory: its entries, or the error raised. */
  datatype Listing = Listed(entries: seq<Node>) | Unreadable(error: string)

  /** An entry: a directory (with its listing) or anything else. */
  datatype Node = Node(name: string, kind: Kind)

  datatype Kind = File | Dir(listing: Listing)

  /** `EXCLUDED_DIRS`. The two entries holding a `/` never equal a bare entry name. */
  const ExcludedDirs: set<string> := {
    "venv", "__pycache__", ".git", ".mypy_cache", ".pytest_cache", "node_modules",
    "media", "dist", "app/components/node_modules", "app/components/dist"
  }

  /** `[e for e in entries if e not in EXCLUDED_DIRS]`. */
  function Included(entries: seq<Node>): (r: seq<Node>)
    ensures |r| <= |entries|
    ensures forall e :: e in r <==> e in entries && e.name !in ExcludedDirs
  {
    if entries == [] then []
    else
      var init := entries[..|entries| - 1];
      var last := entries[|entries| - 1];
      assert entries == init + [last];
      Included(init) + (if last.name !in ExcludedDirs then [last] else [])
  }

  /** Every entry with a name outside `EXCLUDED_DIRS` is included as often as
      listed, and an excluded one never. */
  lemma {:induction false} IncludedCount(entries: seq<Node>, e: Node)
    ensures multiset(Included(entries))[e] ==
      if e.name !in ExcludedDirs then multiset(entries)[e] else 0
  {
    if entries != [] {
      var init := entries[..|entries| - 1];
      var last := entries[|entries| - 1];
      assert entries == init + [last];
      IncludedCount(init, e);
      assert multiset(entries) == multiset(init) + multiset{last};
    }
  }

  /** One more listed entry adds itself at the end when its name is not excluded. */
  lemma IncludedSnoc(s: seq<Node>, x: Node)
    ensures Included(s + [x]) == Included(s) + (if x.name !in ExcludedDirs then [x] else [])
  {
    assert (s + [x])[..|s + [x]| - 1] == s;
  }

  /** The filter keeps order: the entries included from two listings one after the
      other are those of the first followed by those of the second. */
  lemma {:induction false} IncludedAppend(a: seq<Node>, b: seq<Node>)
    ensures Included(a + b) == Included(a) + Included(b)
    decreases |b|
  {
    if b == [] {
      assert a + b == a;
    } else {
      var bi := b[..|b| - 1];
      var last := b[|b| - 1];
      var tail := if last.name !in ExcludedDirs then [last] else [];
      assert b == bi + [last];
      assert a + b == (a + bi) + [last];
      calc {
        Included(a + b);
        { IncludedSnoc(a + bi, last); }
        Included(a + bi) + tail;
        { IncludedAppend(a, bi); }
        (Included(a) + Included(bi)) + tail;
        Included(a) + (Included(bi) + tail);
        { IncludedSnoc(bi, last); }
        Included(a) + Included(b);
      }
    }
  }

  /** The sort key `s.lower()`, compared as strings. */
  predicate NameLe(a: Node, b: Node) {
    LexLe(Lower(a.name), Lower(b.name))
  }

  lemma NameLeTotal()
    ensures Total(NameLe)
  {
    forall a: Node, b: Node ensures NameLe(a, b) || NameLe(b, a) {
      LexLeTotal(Lower(a.name), Lower(b.name));
    }
  }

  /** The entries drawn at one level. */
  function Shown(entries: seq<Node>): seq<Node> {
    Sort(NameLe, Included(entries))
  }

  /** The entries drawn are the listed ones without the excluded names, each as often
      as listed, in case-insensitive order. */
  lemma ShownSpec(entries: seq<Node>)
    ensures multiset(Shown(entries)) == multiset(Included(entries))
    ensures forall e ::
      multiset(Shown(entries))[e] == if e.name !in ExcludedDirs then multiset(entries)[e] else 0
    ensures forall e :: e in Shown(entries) <==> e in entries && e.name !in ExcludedDirs
    ensures forall i :: 0 < i < |Shown(entries)| ==>
      LexLe(Lower(Shown(entries)[i - 1].name), Lower(Shown(entries)[i].name))
  {
    forall e ensures e in Shown(entries) <==> e in Included(entries) {
      SortedMembers(NameLe, Included(entries), e);
    }
    forall e ensures multiset(Shown(entries))[e] ==
      (if e.name !in ExcludedDirs then multiset(entries)[e] else 0)
    {
      IncludedCount(entries, e);
    }
    NameLeTotal();
    SortSorted(NameLe, Included(entries));
  }

  const Tee := "├── "
  const Elbow := "└── "
  const Bar := "│   "
  const Blanks := "    "

  /** The connector of entry `i` of `n`: the last entry gets the elbow. */
  function Connector(i: nat, n: nat): (c: string)
    ensures |c| == 4
    ensures c == Elbow <==> i == n - 1
    ensures c != Elbow ==> c == Tee
  {
    if i == n - 1 then Elbow else Tee
  }

  /** What the prefix of a directory's lines grows by: blanks under the last entry,
      a bar otherwise. */
  function Extension(i: nat, n: nat): (x: string)
    ensures |x| == 4
    ensures x == Blanks <==> i == n - 1
    ensures x != Blanks ==> x == Bar
  {
    if i == n - 1 then Blanks else Bar
  }

  /** `os.path.join(path, entry)` for a bare entry name. */
  function Join(path: string, name: string): (r: string)
    ensures EndsWith(r, name)
  {
    if path == [] then name
    else if path[|path| - 1] == '/' then path + name
    else path + "/" + name
  }

  /** The line of a failed listing. */
  function ErrorLine(prefix: string, path: string, error: string): (line: string)
    ensures StartsWith(line, prefix)
  {
    prefix + "\U{26A0}\U{FE0F} [Error reading " + path + "]: " + error
  }

  /** How many more levels may still be drawn. */
  function Room(depth: int, maxDepth: int): nat {
    if depth <= maxDepth then maxDepth - depth + 1 else 0
  }

  /** `generate_tree(path, prefix, depth, max_depth)` over the listing of `path`. */
  function Tree(l: Listing, path: string, prefix: string, depth: int, maxDepth: int): (lines: seq<string>)
    ensures depth > maxDepth ==> lines == []
    ensures depth <= maxDepth && l.Listed? ==> |lines| >= |Shown(l.entries)|
    decreases Room(depth, maxDepth), 2, 0
  {
    if depth > maxDepth then []
    else
      match l
      case Unreadable(error) => [ErrorLine(prefix, path, error)]
      case Listed(entries) =>
        var shown := Shown(entries);
        LinesUpTo(shown, |shown|, path, prefix, depth, maxDepth)
  }

  /** The lines of the first `k` entries drawn. */
  function LinesUpTo(shown: seq<Node>, k: nat, path: string, prefix: string, depth: int, maxDepth: int): (r: seq<string>)
    requires k <= |shown| && depth <= maxDepth
    ensures |r| >= k
    decreases Room(depth, maxDepth), 1, k
  {
    if k == 0 then []
    else LinesUpTo(shown, k - 1, path, prefix, depth, maxDepth) + EntryLines(shown, k - 1, path, prefix, depth, maxDepth)
  }

  /** The lines of entry `i`: its own line, then, for a directory, the drawing of
      that directory one level deeper with the prefix extended. */
  function EntryLines(shown: seq<Node>, i: nat, path: string, prefix: string, depth: int, maxDepth: int): seq<string>
    requires i < |shown| && depth <= maxDepth
    decreases Room(depth, maxDepth), 0, 0
  {
    var e := shown[i];
    var n := |shown|;
    [prefix + Connector(i, n) + e.name]
    + (if e.kind.Dir? then Tree(e.kind.listing, Join(path, e.name), prefix + Extension(i, n), depth + 1, maxDepth) else [])
  }

  /** Past the deepest level nothing is drawn, and the directory is not even listed. */
  lemma TooDeep(l: Listing, path: string, prefix: string, depth: int, maxDepth: int)
    requires depth > maxDepth
    ensures Tree(l, path, prefix, depth, maxDepth) == []
    ensures forall l2: Listing :: Tree(l2, path, prefix, depth, maxDepth) == Tree(l, path, prefix, depth, maxDepth)
  {
  }

  /** A listing that fails gives one warning line. */
  lemma UnreadableLine(error: string, path: string, prefix: string, depth: int, maxDepth: int)
    requires depth <= maxDepth
    ensures Tree(Unreadable(error), path, prefix, depth, maxDepth) == [ErrorLine(prefix, path, error)]
  {
  }

  /** The first line of every entry's block is the entry's own, with the elbow for
      the last entry and the tee for the others; a file's block is that line only. */
  lemma EntryBlock(shown: seq<Node>, i: nat, path: string, prefix: string, depth: int, maxDepth: int)
    requires i < |shown| && depth <= maxDepth
    ensures |EntryLines(shown, i, path, prefix, depth, maxDepth)| >= 1
    ensures EntryLines(shown, i, path, prefix, depth, maxDepth)[0] ==
      prefix + (if i == |shown| - 1 then Elbow else Tee) + shown[i].name
    ensures shown[i].kind.File? ==> |EntryLines(shown, i, path, prefix, depth, maxDepth)| == 1
  {
  }

  /** Each of the first `k` entries gives at least one line, so a level is never
      shorter than its list of entries. */
  lemma {:induction false} AtLeastOneLineEach(shown: seq<Node>, k: nat, path: string, prefix: string, depth: int, maxDepth: int)
    requires k <= |shown| && depth <= maxDepth
    ensures |LinesUpTo(shown, k, path, prefix, depth, maxDepth)| >= k
  {
    if k > 0 {
      AtLeastOneLineEach(shown, k - 1, path, prefix, depth, maxDepth);
      EntryBlock(shown, k - 1, path, prefix, depth, maxDepth);
    }
  }

  /** The lines of fewer entries are a prefix of the lines of more. */
  lemma {:induction false} LinesPrefix(shown: seq<Node>, i: nat, k: nat, path: string, prefix: string, depth: int, maxDepth: int)
    requires i <= k <= |shown| && depth <= maxDepth
    ensures |LinesUpTo(shown, i, path, prefix, depth, maxDepth)| <= |LinesUpTo(shown, k, path, prefix, depth, maxDepth)|
    ensures LinesUpTo(shown, i, path, prefix, depth, maxDepth) ==
      LinesUpTo(shown, k, path, prefix, depth, maxDepth)[..|LinesUpTo(shown, i, path, prefix, depth, maxDepth)|]
  {
    if i < k {
      LinesPrefix(shown, i, k - 1, path, prefix, depth, maxDepth);
      var a := LinesUpTo(shown, i, path, prefix, depth, maxDepth);
      var b := LinesUpTo(shown, k - 1, path, prefix, depth, maxDepth);
      var c := LinesUpTo(shown, k, path, prefix, depth, maxDepth);
      assert c == b + EntryLines(shown, k - 1, path, prefix, depth, maxDepth);
      assert c[..|b|] == b;
      assert c[..|a|] == b[..|a|];
    }
  }

  /** In the lines of a level, entry `i`'s line comes right after the blocks of the
      entries before it, followed straight away by the rest of its block. */
  lemma EntryPosition(shown: seq<Node>, i: nat, k: nat, path: string, prefix: string, depth: int, maxDepth: int)
    requires i < k <= |shown| && depth <= maxDepth
    ensures var start := |LinesUpTo(shown, i, path, prefix, depth, maxDepth)|;
      var block := EntryLines(shown, i, path, prefix, depth, maxDepth);
      && start + |block| <= |LinesUpTo(shown, k, path, prefix, depth, maxDepth)|
      && LinesUpTo(shown, k, path, prefix, depth, maxDepth)[start..start + |block|] == block
      && LinesUpTo(shown, k, path, prefix, depth, maxDepth)[start] == prefix + Connector(i, |shown|) + shown[i].name
  {
    var a := LinesUpTo(shown, i, path, prefix, depth, maxDepth);
    var block := EntryLines(shown, i, path, prefix, depth, maxDepth);
    assert LinesUpTo(shown, i + 1, path, prefix, depth, maxDepth) == a + block;
    LinesPrefix(shown, i + 1, k, path, prefix, depth, maxDepth);
    EntryBlock(shown, i, path, prefix, depth, maxDepth);
    PrefixSlice(a, block, LinesUpTo(shown, k, path, prefix, depth, maxDepth));
  }

  /** A prefix `a + b` of `c` holds `b` right after `a`. */
  lemma PrefixSlice<T>(a: seq<T>, b: seq<T>, c: seq<T>)
    requires |a| + |b| <= |c| && c[..|a| + |b|] == a + b
    ensures c[|a|..|a| + |b|] == b
    ensures |b| > 0 ==> c[|a|] == b[0]
  {
    assert c[|a|..|a| + |b|] == c[..|a| + |b|][|a|..];
    assert (a + b)[|a|..] == b;
  }

  /** Every line of a drawing starts with the prefix it was drawn with: a nested
      directory's lines sit under their parent's. */
  lemma {:induction false} TreeIndented(l: Listing, path: string, prefix: string, depth: int, maxDepth: int)
    ensures forall line :: line in Tree(l, path, prefix, depth, maxDepth) ==> StartsWith(line, prefix)
    decreases Room(depth, maxDepth), 2, 0
  {
    if depth <= maxDepth && l.Listed? {
      var shown := Shown(l.entries);
      LinesIndented(shown, |shown|, path, prefix, depth, maxDepth);
    }
  }

  lemma {:induction false} LinesIndented(shown: seq<Node>, k: nat, path: string, prefix: string, depth: int, maxDepth: int)
    requires k <= |shown| && depth <= maxDepth
    ensures forall line :: line in LinesUpTo(shown, k, path, prefix, depth, maxDepth) ==> StartsWith(line, prefix)
    decreases Room(depth, maxDepth), 1, k
  {
    if k > 0 {
      LinesIndented(shown, k - 1, path, prefix, depth, maxDepth);
      EntryIndented(shown, k - 1, path, prefix, depth, maxDepth);
    }
  }

  lemma {:induction false} EntryIndented(shown: seq<Node>, i: nat, path: string, prefix: string, depth: int, maxDepth: int)
    requires i < |shown| && depth <= maxDepth
    ensures forall line :: line in EntryLines(shown, i, path, prefix, depth, maxDepth) ==> StartsWith(line, prefix)
    decreases Room(depth, maxDepth), 0, 0
  {
    var e := shown[i];
    var ext := prefix + Extension(i, |shown|);
    if e.kind.Dir? {
      var sub := Tree(e.kind.listing, Join(path, e.name), ext, depth + 1, maxDepth);
      TreeIndented(e.kind.listing, Join(path, e.name), ext, depth + 1, maxDepth);
      forall line | line in sub ensures StartsWith(line, prefix) {
        assert line[..|ext|] == ext;
        assert ext[..|prefix|] == prefix;
      }
    }
  }

  /** `generate_tree`: the `for` loop over the entries drawn, appending each entry's
      line and extending by the drawing of each directory. */
  method GenerateTree(l: Listing, path: string, prefix: string, depth: int, maxDepth: int) returns (tree: seq<string>)
    ensures tree == Tree(l, path, prefix, depth, maxDepth)
    decreases Room(depth, maxDepth), 2, 0
  {
    if depth > maxDepth {
      return [];
    }
    if l.Unreadable? {
      return [ErrorLine(prefix, path, l.error)];
    }
    var entries := Shown(l.entries);
    tree := [];
    var i := 0;
    while i < |entries|
      invariant 0 <= i <= |entries|
      invariant tree == LinesUpTo(entries, i, path, prefix, depth, maxDepth)
    {
      var block := DrawEntry(entries, i, path, prefix, depth, maxDepth);
      tree := tree + block;
      i := i + 1;
    }
  }

  /** The body of the `for` loop for entry `i`: its line, then the drawing of a
      directory one level deeper under the extended prefix. */
  method DrawEntry(entries: seq<Node>, i: nat, path: string, prefix: string, depth: int, maxDepth: int) returns (block: seq<string>)
    requires i < |entries| && depth <= maxDepth
    ensures block == EntryLines(entries, i, path, prefix, depth, maxDepth)
    decreases Room(depth, maxDepth), 0, 0
  {
    var entry := entries[i];
    var connector := Connector(i, |entries|);
    block := [prefix + connector + entry.name];
    if entry.kind.Dir? {
      var extension := Extension(i, |entries|);
      var sub := GenerateTree(entry.kind.listing, Join(path, entry.name), prefix + extension, depth + 1, maxDepth);
      block := block + sub;
    }
  }
}
