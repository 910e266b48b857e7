/** The catalog builder (video_processing/manifest_builder.py): it walks the folders
    of processed clips in name order, turns each folder holding a video into a sign
    entry, asks on the console for the sign's level, and writes a manifest listing
    the levels in order with their signs sorted. The console answers are a
    parameter and the folder tree is data; copying the files is left out. */
module ManifestBuilder {
  import opened Wrappers
  import opened Strings
  import opened Sorting
  import opened Shuffling

  const PublicBase := "/media/signs"
  const ManifestVersion := 2
  const MaxLevel := 5

  /** Python's `str.capitalize`: the first character upper-cased, the rest lower-cased. */
  function Capitalize(s: string): (r: string)
    ensures |r| == |s|
    ensures s != [] ==> r[0] == UpperChar(s[0])
    ensures forall i :: 0 < i < |s| ==> r[i] == LowerChar(s[i])
  {
    if s == [] then [] else [UpperChar(s[0])] + Lower(s[1..])
  }

  /** `title_from_name`: underscores become spaces, then the text is capitalised. */
  function TitleFromName(name: string): (r: string)
    ensures |r| == |name|
    ensures '_' !in r
    ensures forall i :: 0 <= i < |name| ==> (r[i] == ' ' <==> name[i] == '_' || name[i] == ' ')
    ensures r != [] ==> !IsLower(r[0])
    ensures forall i :: 0 < i < |r| ==> !IsUpper(r[i])
  {
    Capitalize(ReplaceChar(name, '_', ' '))
  }

  /** The sign key of a folder: its name lower-cased, spaces turned into underscores. */
  function SignKey(name: string): (key: string)
    ensures |key| == |name|
    ensures ' ' !in key
    ensures forall i :: 0 <= i < |key| ==> !IsUpper(key[i])
    ensures forall i :: 0 <= i < |name| ==> (key[i] == '_' <==> name[i] == '_' || name[i] == ' ')
  {
    ReplaceChar(Lower(name), ' ', '_')
  }

  /** The label of a sign is its key with every underscore shown as a space. */
  lemma LabelOfKey(name: string)
    ensures var key := SignKey(name);
      forall i :: 0 <= i < |key| ==> (TitleFromName(key)[i] == ' ' <==> key[i] == '_')
  {
  }

  /** The acceptance rule of `prompt_level` for one stripped answer: empty or "0"
      skip the sign (level 0), a digit string worth 1 to 5 is that level, anything
      else is refused. */
  function AcceptLevel(val: string): (r: Option<nat>)
    ensures r.Some? ==> r.value <= MaxLevel
    ensures r == Some(0) <==> val == "" || val == "0"
    ensures forall k :: 1 <= k <= MaxLevel ==> (r == Some(k) <==> val != "" && AllDigits(val) && DigitsValue(val) == k)
    ensures r.None? <==> val != "" && val != "0" && !(val != "" && AllDigits(val) && 1 <= DigitsValue(val) <= MaxLevel)
  {
    if val == "" || val == "0" then Some(0)
    else if AllDigits(val) && 1 <= DigitsValue(val) <= MaxLevel then Some(DigitsValue(val))
    else None
  }

  /** Every level, written in decimal, is accepted as itself. */
  lemma AcceptsDecimal(k: nat)
    requires k <= MaxLevel
    ensures AcceptLevel(Decimal(k)) == Some(k)
  {
    DecimalRoundTrip(k);
  }

  /** A level and the number of console lines read to get it. */
  datatype Prompt = Prompt(level: nat, used: nat)

  /** The retry loop of `prompt_level` over the remaining console lines: the first
      acceptable answer, or `None` when the input ends before one (the `EOFError`
      of `input`). */
  function Prompted(inputs: seq<string>): (r: Option<Prompt>)
    ensures r.Some? ==> 1 <= r.value.used <= |inputs| && r.value.level <= MaxLevel
  {
    if inputs == [] then None
    else
      match AcceptLevel(Trim(inputs[0]))
      case Some(l) => Some(Prompt(l, 1))
      case None => Later(Prompted(inputs[1..]), 1)
  }

  /** A prompt result after `n` more lines were read. */
  function Later(p: Option<Prompt>, n: nat): Option<Prompt> {
    if p.None? then None else Some(Prompt(p.value.level, p.value.used + n))
  }

  lemma LaterLater(p: Option<Prompt>, m: nat, n: nat)
    ensures Later(Later(p, m), n) == Later(p, m + n)
  {
  }

  /** A console line `prompt_level` turns down. */
  predicate Rejected(line: string) {
    AcceptLevel(Trim(line)).None?
  }

  /** `prompt_level` returns the first acceptable line, as a level from 0 to 5, and
      fails only when no line is acceptable. */
  lemma {:induction false} PromptedSpec(inputs: seq<string>)
    ensures var r := Prompted(inputs);
      && (r.None? <==> forall j :: 0 <= j < |inputs| ==> Rejected(inputs[j]))
      && (r.Some? ==>
            && 1 <= r.value.used <= |inputs| && r.value.level <= MaxLevel
            && AcceptLevel(Trim(inputs[r.value.used - 1])) == Some(r.value.level)
            && forall j :: 0 <= j < r.value.used - 1 ==> Rejected(inputs[j]))
  {
    if inputs == [] {
    } else if !Rejected(inputs[0]) {
      assert Prompted(inputs) == Some(Prompt(AcceptLevel(Trim(inputs[0])).value, 1));
    } else {
      var rest := inputs[1..];
      PromptedSpec(rest);
      PromptedSkip(inputs);
      var r := Prompted(rest);
      if r.Some? {
        var k := r.value.used;
        RejectedShift(inputs, k - 1);
        assert inputs[k] == rest[k - 1];
        assert !Rejected(inputs[k]);
      } else {
        RejectedShift(inputs, |rest|);
      }
    }
  }

  /** A turned-down first line only adds one line read. */
  lemma PromptedSkip(inputs: seq<string>)
    requires inputs != [] && Rejected(inputs[0])
    ensures Prompted(inputs) == Later(Prompted(inputs[1..]), 1)
  {
  }

  /** Lines turned down after the first one, and the first one too, make a longer
      run of turned-down lines. */
  lemma RejectedShift(inputs: seq<string>, n: nat)
    requires inputs != [] && Rejected(inputs[0]) && n < |inputs|
    requires forall j :: 0 <= j < n ==> Rejected(inputs[1..][j])
    ensures forall j :: 0 <= j < n + 1 ==> Rejected(inputs[j])
  {
    forall j | 0 < j < n + 1 ensures Rejected(inputs[j]) {
      assert inputs[j] == inputs[1..][j - 1];
    }
  }

  /** `prompt_level`: reads lines until one is acceptable. */
  method PromptLevel(inputs: seq<string>) returns (r: Option<Prompt>)
    ensures r == Prompted(inputs)
  {
    var i := 0;
    while i < |inputs|
      invariant 0 <= i <= |inputs|
      invariant Prompted(inputs) == Later(Prompted(inputs[i..]), i)
    {
      assert inputs[i..][0] == inputs[i] && inputs[i..][1..] == inputs[i + 1..];
      var val := Trim(inputs[i]);
      var a := AcceptLevel(val);
      if a.Some? {
        return Some(Prompt(a.value, i + 1));
      }
      var rest := Prompted(inputs[i + 1..]);
      assert Prompted(inputs[i..]) == Later(rest, 1);
      LaterLater(rest, 1, i);
      i := i + 1;
    }
    return None;
  }

  /** `Path.suffix`: the name from its last dot on, unless that dot is the first
      or the last character (then the suffix is empty). */
  function Suffix(name: string): string {
    SuffixFrom(name, |name| - 1)
  }

  /** The search for the last dot, at or before position `k`. */
  function SuffixFrom(name: string, k: int): (r: string)
    requires -1 <= k < |name|
    ensures r == [] || (2 <= |r| < |name| && r[0] == '.' && r == name[|name| - |r|..])
    decreases k + 1
  {
    if k <= 0 then []
    else if name[k] == '.' then (if k < |name| - 1 then name[k..] else [])
    else SuffixFrom(name, k - 1)
  }

  /** An entry of a sign folder: its name and whether it is a regular file. */
  datatype Item = Item(name: string, isFile: bool)

  /** An entry of the processed-clips folder. */
  datatype Folder = Folder(name: string, isDir: bool, items: seq<Item>)

  predicate IsVideo(it: Item) { Lower(Suffix(it.name)) == ".mp4" }

  predicate IsPicture(it: Item) {
    var x := Lower(Suffix(it.name));
    x == ".jpg" || x == ".jpeg" || x == ".png" || x == ".webp"
  }

  /** An entry the inner loop collects as a pictogram: the `elif` after the video test. */
  predicate IsPictogram(it: Item) { !IsVideo(it) && IsPicture(it) }

  /** The public URL of a file of a sign. */
  function Url(key: string, file: string): (u: string)
    ensures StartsWith(u, PublicBase + "/" + key + "/")
  {
    var p := PublicBase + "/" + key + "/";
    assert (p + file)[..|p|] == p;
    p + file
  }

  /** The video of a sign folder: the URL of the last `.mp4` entry, in either case. */
  function LastVideo(key: string, items: seq<Item>): Option<string> {
    if items == [] then None
    else if IsVideo(items[|items| - 1]) then Some(Url(key, items[|items| - 1].name))
    else LastVideo(key, items[..|items| - 1])
  }

  /** The pictogram URLs of a sign folder, in listing order. */
  function Pictures(key: string, items: seq<Item>): seq<string> {
    if items == [] then []
    else
      var last := items[|items| - 1];
      Pictures(key, items[..|items| - 1]) + (if IsPictogram(last) then [Url(key, last.name)] else [])
  }

  /** A folder has a video exactly when one of its entries ends in `.mp4` (in any
      case), and the video is the URL of the last such entry. */
  lemma LastVideoSpec(key: string, items: seq<Item>)
    ensures var v := LastVideo(key, items);
      && (v.None? <==> forall j :: 0 <= j < |items| ==> !IsVideo(items[j]))
      && (v.Some? ==> exists j :: LastVideoAt(items, j) && v.value == Url(key, items[j].name))
  {
    NoVideo(key, items);
    SomeVideo(key, items);
  }

  lemma {:induction false} NoVideo(key: string, items: seq<Item>)
    ensures LastVideo(key, items).None? <==> forall j :: 0 <= j < |items| ==> !IsVideo(items[j])
  {
    if items != [] && !IsVideo(items[|items| - 1]) {
      var init := items[..|items| - 1];
      NoVideo(key, init);
      assert forall j :: 0 <= j < |init| ==> items[j] == init[j];
    }
  }

  /** Entry `j` is a video and no later entry is. */
  ghost predicate LastVideoAt(items: seq<Item>, j: int) {
    LastWith(IsVideo, items, j)
  }

  lemma {:induction false} SomeVideo(key: string, items: seq<Item>)
    ensures LastVideo(key, items).Some? ==>
      exists j :: LastVideoAt(items, j) && LastVideo(key, items).value == Url(key, items[j].name)
  {
    if items != [] {
      var last := |items| - 1;
      if IsVideo(items[last]) {
        LastWithEnd(IsVideo, items);
        assert LastVideoAt(items, last);
      } else {
        var init := items[..last];
        assert LastVideo(key, items) == LastVideo(key, init);
        SomeVideo(key, init);
        if LastVideo(key, init).Some? {
          var j :| LastVideoAt(init, j) && LastVideo(key, init).value == Url(key, init[j].name);
          assert items == init + [items[last]];
          VideoSkipped(init, items[last], j);
          assert LastVideoAt(items, j) && items[j] == init[j];
        }
      }
    }
  }

  /** An entry that is not a video, appended after the last video, leaves it last. */
  lemma VideoSkipped(init: seq<Item>, x: Item, j: int)
    requires LastVideoAt(init, j) && !IsVideo(x)
    ensures LastVideoAt(init + [x], j) && (init + [x])[j] == init[j]
  {
    LastWithSnoc(IsVideo, init, x, j);
  }

  /** The pictograms of a listing split in two are those of the first part followed
      by those of the second, and one entry gives its URL exactly when it is an image
      that is not a video: the pictograms keep the listing order. */
  lemma {:induction false} PicturesAppend(key: string, a: seq<Item>, b: seq<Item>)
    ensures Pictures(key, a + b) == Pictures(key, a) + Pictures(key, b)
    decreases |b|
  {
    if b != [] {
      var b' := b[..|b| - 1];
      assert (a + b)[..|a + b| - 1] == a + b';
      assert (a + b)[|a + b| - 1] == b[|b| - 1];
      PicturesAppend(key, a, b');
    } else {
      assert a + b == a;
    }
  }

  lemma PicturesOne(key: string, it: Item)
    ensures Pictures(key, [it]) == if IsPictogram(it) then [Url(key, it.name)] else []
  {
    assert [it][..0] == [];
  }

  /** The URLs of some sign files, in order. */
  function Urls(key: string, files: seq<Item>): (r: seq<string>)
    ensures |r| == |files| && forall i :: 0 <= i < |files| ==> r[i] == Url(key, files[i].name)
  {
    seq(|files|, i requires 0 <= i < |files| => Url(key, files[i].name))
  }

  /** The URLs of two runs of files are those of the first followed by those of the second. */
  lemma UrlsAppend(key: string, a: seq<Item>, b: seq<Item>)
    ensures Urls(key, a + b) == Urls(key, a) + Urls(key, b)
  {
  }

  /** The pictograms are the URLs of the image entries, filtered in listing order. */
  lemma {:induction false} PicturesFilter(key: string, items: seq<Item>)
    ensures Pictures(key, items) == Urls(key, Filter(IsPictogram, items))
  {
    if items != [] {
      var init := items[..|items| - 1];
      var last := items[|items| - 1];
      PicturesFilter(key, init);
      assert items == init + [last];
      var tail: seq<Item> := if IsPictogram(last) then [last] else [];
      FilterSnoc(IsPictogram, init, last);
      UrlsAppend(key, Filter(IsPictogram, init), tail);
      assert Urls(key, tail) == if IsPictogram(last) then [Url(key, last.name)] else [];
    }
  }

  /** Every pictogram is the URL of an image entry, under the sign's public folder,
      and every image entry gives one; there are pictograms exactly when some entry
      is an image, and the first pictogram is that of the first image entry. */
  lemma PicturesSpec(key: string, items: seq<Item>)
    ensures |Pictures(key, items)| <= |items|
    ensures forall x :: x in Pictures(key, items) <==> exists it :: it in items && IsPictogram(it) && x == Url(key, it.name)
    ensures forall x :: x in Pictures(key, items) ==> StartsWith(x, PublicBase + "/" + key + "/")
    ensures Pictures(key, items) != [] <==> exists j :: FirstWith(IsPictogram, items, j)
    ensures forall j :: FirstWith(IsPictogram, items, j) ==> Pictures(key, items)[0] == Url(key, items[j].name)
  {
    PicturesFilter(key, items);
    FilterFirst(IsPictogram, items);
    var f := Filter(IsPictogram, items);
    forall x ensures x in Pictures(key, items) <==> exists it :: it in items && IsPictogram(it) && x == Url(key, it.name) {
      if x in Pictures(key, items) {
        var i :| 0 <= i < |f| && Urls(key, f)[i] == x;
        assert f[i] in f;
      }
      if exists it :: it in items && IsPictogram(it) && x == Url(key, it.name) {
        var it :| it in items && IsPictogram(it) && x == Url(key, it.name);
        var k :| 0 <= k < |items| && items[k] == it;
        assert it in f;
        var i :| 0 <= i < |f| && f[i] == it;
        assert Urls(key, f)[i] == x;
      }
    }
  }

  /** The inner loop over a sign folder: the video URL and the pictograms. */
  method ScanItems(key: string, items: seq<Item>) returns (video: Option<string>, pictos: seq<string>)
    ensures video == LastVideo(key, items) && pictos == Pictures(key, items)
  {
    video, pictos := None, [];
    var i := 0;
    while i < |items|
      invariant 0 <= i <= |items|
      invariant video == LastVideo(key, items[..i]) && pictos == Pictures(key, items[..i])
    {
      var f := items[i];
      assert items[..i + 1][..i] == items[..i];
      if Lower(Suffix(f.name)) == ".mp4" {
        video := Some(Url(key, f.name));
      } else if IsPicture(f) {
        pictos := pictos + [Url(key, f.name)];
      }
      i := i + 1;
    }
    assert items[..i] == items;
  }

  /** The manifest entry of a sign; `title` is its `label` key. */
  datatype SignEntry = SignEntry(title: string, symbol: Option<string>, video: string)

  /** What the folder loop has built so far, and the console lines not yet read. */
  datatype Acc = Acc(signs: map<string, SignEntry>, levels: map<nat, seq<string>>, inputs: seq<string>)

  /** `levels.setdefault(level, []).append(key)` when the level is not 0. */
  function FileUnder(levels: map<nat, seq<string>>, level: nat, key: string): map<nat, seq<string>> {
    if level == 0 then levels
    else levels[level := (if level in levels then levels[level] else []) + [key]]
  }

  /** One pass of the folder loop; `None` when the console input ran out. Only a
      folder holding a video reads console lines, from the front, and it adds its
      key; no pass forgets a recorded sign. */
  function Step(acc: Acc, f: Folder): (r: Option<Acc>)
    ensures r.None? <==> f.isDir && LastVideo(SignKey(f.name), f.items).Some? && Prompted(acc.inputs).None?
    ensures r.Some? ==>
      && |r.value.inputs| <= |acc.inputs| && r.value.inputs == acc.inputs[|acc.inputs| - |r.value.inputs|..]
      && acc.signs.Keys <= r.value.signs.Keys
      && (f.isDir && LastVideo(SignKey(f.name), f.items).Some? ==>
            |r.value.inputs| < |acc.inputs| && SignKey(f.name) in r.value.signs)
  {
    if !f.isDir then Some(acc)
    else
      var key := SignKey(f.name);
      var video := LastVideo(key, f.items);
      if video.None? then Some(acc)
      else
        match Prompted(acc.inputs)
        case None => None
        case Some(p) =>
          var pictos := Pictures(key, f.items);
          var entry := SignEntry(TitleFromName(key), if pictos == [] then None else Some(pictos[0]), video.value);
          Some(Acc(acc.signs[key := entry], FileUnder(acc.levels, p.level, key), acc.inputs[p.used..]))
  }

  /** The folder loop over the remaining folders. It reads the console lines from
      the front and keeps every sign recorded before it. */
  function Collect(acc: Acc, folders: seq<Folder>): (r: Option<Acc>)
    ensures r.Some? ==>
      && |r.value.inputs| <= |acc.inputs| && r.value.inputs == acc.inputs[|acc.inputs| - |r.value.inputs|..]
      && acc.signs.Keys <= r.value.signs.Keys
    decreases |folders|
  {
    if folders == [] then Some(acc)
    else
      match Step(acc, folders[0])
      case None => None
      case Some(a) => Collect(a, folders[1..])
  }

  /** The body of the folder loop for one entry of the processed-clips folder. */
  method FolderStep(acc: Acc, f: Folder) returns (r: Option<Acc>)
    ensures r == Step(acc, f)
  {
    if !f.isDir {
      return Some(acc);
    }
    var key := SignKey(f.name);
    var title := TitleFromName(key);
    var video, pictos := ScanItems(key, f.items);
    if video.None? {
      return Some(acc);
    }
    var p := PromptLevel(acc.inputs);
    if p.None? {
      return None;
    }
    var levelId := p.value.level;
    var entry := SignEntry(title, if pictos == [] then None else Some(pictos[0]), video.value);
    var signs := acc.signs[key := entry];
    var levels := acc.levels;
    if levelId != 0 {
      var current := if levelId in levels then levels[levelId] else [];
      levels := levels[levelId := current + [key]];
    }
    return Some(Acc(signs, levels, acc.inputs[p.value.used..]));
  }

  /** A level of the manifest. */
  datatype LevelOut = LevelOut(id: nat, name: string, signs: seq<string>)

  datatype Manifest = Manifest(version: int, levels: seq<LevelOut>, signs: map<string, SignEntry>)

  /** The result of `build_manifest`: the missing processed-clips folder (`sys.exit(1)`),
      the console input ending at a prompt (the `EOFError` of `input`, which also
      ends the script with status 1), or the manifest written. */
  datatype Outcome = NoProcessedFolder | InputEnded | Built(manifest: Manifest)

  predicate FolderLe(a: Folder, b: Folder) { LexLe(a.name, b.name) }

  /** `f"Nivå {lvl}"`. */
  function LevelName(id: nat): string { "Nivå " + Decimal(id) }

  /** The level ids from `k` to 5 that received a sign, in increasing order: the
      order `sorted(levels.items())` gives, since only ids 1 to 5 are recorded. */
  function LevelIds(levels: map<nat, seq<string>>, k: nat): (ids: seq<nat>)
    ensures forall i :: 0 <= i < |ids| ==> k <= ids[i] <= MaxLevel && ids[i] in levels
    ensures forall i, j :: 0 <= i < j < |ids| ==> ids[i] < ids[j]
    ensures forall id :: k <= id <= MaxLevel && id in levels ==> id in ids
    decreases MaxLevel + 1 - k
  {
    if k > MaxLevel then []
    else if k in levels then [k] + LevelIds(levels, k + 1)
    else LevelIds(levels, k + 1)
  }

  /** The `levels` list of the manifest. */
  function LevelList(levels: map<nat, seq<string>>): (r: seq<LevelOut>)
    ensures |r| == |LevelIds(levels, 1)|
    ensures forall i :: 0 <= i < |r| ==>
      && r[i].id == LevelIds(levels, 1)[i] && r[i].id in levels
      && r[i].name == LevelName(r[i].id)
      && multiset(r[i].signs) == multiset(levels[r[i].id])
  {
    var ids := LevelIds(levels, 1);
    seq(|ids|, i requires 0 <= i < |ids| => LevelOut(ids[i], LevelName(ids[i]), Sort(StrLe, levels[ids[i]])))
  }

  /** `build_manifest`, as a function of the folder listing and the console lines. */
  function Build(rootExists: bool, entries: seq<Folder>, inputs: seq<string>): (out: Outcome)
    ensures out == NoProcessedFolder <==> !rootExists
    ensures out.Built? ==> out.manifest.version == ManifestVersion
  {
    if !rootExists then NoProcessedFolder
    else
      match Collect(Acc(map[], map[], inputs), Sort(FolderLe, entries))
      case None => InputEnded
      case Some(acc) => Built(Manifest(ManifestVersion, LevelList(acc.levels), acc.signs))
  }

  /** `build_manifest`: the folder loop over the folders in name order, then the
      manifest from the collected signs and levels. */
  method BuildManifest(rootExists: bool, entries: seq<Folder>, inputs: seq<string>) returns (out: Outcome)
    ensures out == Build(rootExists, entries, inputs)
  {
    if !rootExists {
      return NoProcessedFolder;
    }
    var folders := Sort(FolderLe, entries);
    var acc := Acc(map[], map[], inputs);
    var i := 0;
    while i < |folders|
      invariant 0 <= i <= |folders|
      invariant Collect(Acc(map[], map[], inputs), folders) == Collect(acc, folders[i..])
    {
      assert folders[i..][1..] == folders[i + 1..];
      var next := FolderStep(acc, folders[i]);
      if next.None? {
        return InputEnded;
      }
      acc := next.value;
      i := i + 1;
    }
    return Built(Manifest(ManifestVersion, LevelList(acc.levels), acc.signs));
  }

  /** A folder without an `.mp4` entry adds nothing and reads no console line. */
  lemma SkipsWithoutVideo(acc: Acc, f: Folder)
    requires forall j :: 0 <= j < |f.items| ==> !IsVideo(f.items[j])
    ensures Step(acc, f) == Some(acc)
  {
    LastVideoSpec(SignKey(f.name), f.items);
  }

  /** The folder loop keeps: only levels 1 to 5 are recorded, every sign listed in a
      level has an entry, and each entry carries the label of its key and a video
      under the key's public folder. */
  ghost predicate Good(acc: Acc) {
    GoodTables(acc.signs, acc.levels)
  }

  ghost predicate GoodTables(signs: map<string, SignEntry>, levels: map<nat, seq<string>>) {
    && (forall k :: k in levels ==> 1 <= k <= MaxLevel)
    && (forall k, s :: k in levels && s in levels[k] ==> s in signs)
    && (forall key :: key in signs ==>
          && signs[key].title == TitleFromName(key)
          && StartsWith(signs[key].video, PublicBase + "/" + key + "/")
          && (signs[key].symbol.Some? ==> StartsWith(signs[key].symbol.value, PublicBase + "/" + key + "/")))
  }

  /** Recording a sign with a matching entry, and filing it under a level from 0 to 5. */
  lemma GoodRecord(signs: map<string, SignEntry>, levels: map<nat, seq<string>>, key: string, entry: SignEntry, level: nat)
    requires GoodTables(signs, levels) && level <= MaxLevel
    requires entry.title == TitleFromName(key) && StartsWith(entry.video, PublicBase + "/" + key + "/")
    requires entry.symbol.Some? ==> StartsWith(entry.symbol.value, PublicBase + "/" + key + "/")
    ensures var levels' :=
        if level == 0 then levels
        else levels[level := (if level in levels then levels[level] else []) + [key]];
      GoodTables(signs[key := entry], levels')
  {
    var levels' :=
      if level == 0 then levels
      else levels[level := (if level in levels then levels[level] else []) + [key]];
    forall k, s | k in levels' && s in levels'[k] ensures s in signs[key := entry] {
      if s != key {
        assert k in levels && s in levels[k];
      }
    }
  }

  lemma StepGood(acc: Acc, f: Folder)
    requires Good(acc)
    ensures Step(acc, f).Some? ==> Good(Step(acc, f).value)
  {
    var key := SignKey(f.name);
    var video := LastVideo(key, f.items);
    var p := Prompted(acc.inputs);
    if f.isDir && video.Some? && p.Some? {
      LastVideoSpec(key, f.items);
      var j :| 0 <= j < |f.items| && IsVideo(f.items[j]) && video.value == Url(key, f.items[j].name);
      var pictos := Pictures(key, f.items);
      PicturesSpec(key, f.items);
      if pictos != [] {
        assert pictos[0] in pictos;
      }
      var entry := SignEntry(TitleFromName(key), if pictos == [] then None else Some(pictos[0]), video.value);
      GoodRecord(acc.signs, acc.levels, key, entry, p.value.level);
    }
  }

  lemma {:induction false} CollectGood(acc: Acc, folders: seq<Folder>)
    requires Good(acc)
    ensures Collect(acc, folders).Some? ==> Good(Collect(acc, folders).value)
    decreases |folders|
  {
    if folders != [] {
      StepGood(acc, folders[0]);
      if Step(acc, folders[0]).Some? {
        CollectGood(Step(acc, folders[0]).value, folders[1..]);
      }
    }
  }

  /** A built manifest has version 2; its levels come in increasing order of id, all
      between 1 and 5 (level 0 never appears), each named after its number, with its
      signs sorted; every sign a level lists has an entry, and every entry has the
      label of its key and its video and pictogram under the key's public folder. */
  lemma BuiltManifest(rootExists: bool, entries: seq<Folder>, inputs: seq<string>)
    ensures var out := Build(rootExists, entries, inputs);
      out.Built? ==>
        var m := out.manifest;
        && m.version == 2
        && (forall i :: 0 <= i < |m.levels| ==> 1 <= m.levels[i].id <= MaxLevel && m.levels[i].name == LevelName(m.levels[i].id))
        && (forall i, j :: 0 <= i < j < |m.levels| ==> m.levels[i].id < m.levels[j].id)
        && (forall i :: 0 <= i < |m.levels| ==> Sorted(StrLe, m.levels[i].signs))
        && (forall i, s :: 0 <= i < |m.levels| && s in m.levels[i].signs ==> s in m.signs)
        && (forall key :: key in m.signs ==> m.signs[key].title == TitleFromName(key))
        && (forall key :: key in m.signs ==> StartsWith(m.signs[key].video, PublicBase + "/" + key + "/"))
        && (forall key :: key in m.signs && m.signs[key].symbol.Some? ==>
              StartsWith(m.signs[key].symbol.value, PublicBase + "/" + key + "/"))
  {
    var out := Build(rootExists, entries, inputs);
    if out.Built? {
      var acc := Collect(Acc(map[], map[], inputs), Sort(FolderLe, entries)).value;
      CollectGood(Acc(map[], map[], inputs), Sort(FolderLe, entries));
      var m := out.manifest;
      StrLeTotal();
      forall i | 0 <= i < |m.levels| ensures Sorted(StrLe, m.levels[i].signs) {
        SortSorted(StrLe, acc.levels[m.levels[i].id]);
      }
      forall i, s | 0 <= i < |m.levels| && s in m.levels[i].signs ensures s in m.signs {
        SortedMembers(StrLe, acc.levels[m.levels[i].id], s);
      }
    }
  }

  /** The entry a folder holding a video gets: the label of its key, its last video,
      and its first pictogram, or none when it has no pictogram. */
  ghost predicate EntryOf(key: string, f: Folder, e: SignEntry) {
    && f.isDir && SignKey(f.name) == key
    && e.title == TitleFromName(key)
    && LastVideo(key, f.items) == Some(e.video)
    && e.symbol == (if Pictures(key, f.items) == [] then None else Some(Pictures(key, f.items)[0]))
  }

  /** Every recorded sign is the entry of one of the folders walked. */
  ghost predicate FromFolders(signs: map<string, SignEntry>, folders: seq<Folder>) {
    forall key :: key in signs ==> exists f :: f in folders && EntryOf(key, f, signs[key])
  }

  /** The keys filed under level `k`, none when the level is not recorded. */
  function Filed(levels: map<nat, seq<string>>, k: nat): seq<string> {
    if k in levels then levels[k] else []
  }

  /** One pass records the folder's own entry under its key, keeps every other entry,
      and records a key for each folder holding a video. */
  lemma StepRecords(acc: Acc, f: Folder)
    ensures Step(acc, f).Some? ==>
      var signs := Step(acc, f).value.signs;
      && acc.signs.Keys <= signs.Keys
      && (forall key :: key in acc.signs && key != SignKey(f.name) ==> signs[key] == acc.signs[key])
      && (f.isDir && LastVideo(SignKey(f.name), f.items).Some? ==>
            SignKey(f.name) in signs && EntryOf(SignKey(f.name), f, signs[SignKey(f.name)]))
      && (!f.isDir || LastVideo(SignKey(f.name), f.items).None? ==> signs == acc.signs)
  {
  }

  /** One pass files the folder's key under the level answered for it: a folder
      holding a video reads one answer, and level `k` gains the key exactly when
      the answer is `k`; the other levels stay. A folder without a video changes
      nothing and reads no console line. */
  lemma StepLevels(acc: Acc, f: Folder, k: nat)
    requires 1 <= k <= MaxLevel
    ensures !f.isDir || LastVideo(SignKey(f.name), f.items).None? ==> Step(acc, f) == Some(acc)
    ensures f.isDir && LastVideo(SignKey(f.name), f.items).Some? ==>
      (Step(acc, f).Some? <==> Prompted(acc.inputs).Some?)
    ensures f.isDir && LastVideo(SignKey(f.name), f.items).Some? && Step(acc, f).Some? ==>
      var p := Prompted(acc.inputs).value;
      var a := Step(acc, f).value;
      && a.inputs == acc.inputs[p.used..]
      && Filed(a.levels, k) == Filed(acc.levels, k) + (if p.level == k then [SignKey(f.name)] else [])
      && (k in a.levels <==> k in acc.levels || p.level == k)
  {
    if f.isDir && LastVideo(SignKey(f.name), f.items).Some? && Prompted(acc.inputs).Some? {
      var p := Prompted(acc.inputs).value;
      StepFiles(acc, f);
      FiledAfter(acc.levels, p.level, SignKey(f.name), k);
    }
  }

  /** The tables after a folder holding a video was answered. */
  lemma StepFiles(acc: Acc, f: Folder)
    requires f.isDir && LastVideo(SignKey(f.name), f.items).Some? && Prompted(acc.inputs).Some?
    ensures var p := Prompted(acc.inputs).value;
      && Step(acc, f).Some?
      && Step(acc, f).value.inputs == acc.inputs[p.used..]
      && Step(acc, f).value.levels == FileUnder(acc.levels, p.level, SignKey(f.name))
  {
  }

  lemma FiledAfter(levels: map<nat, seq<string>>, level: nat, key: string, k: nat)
    requires 1 <= k
    ensures Filed(FileUnder(levels, level, key), k) == Filed(levels, k) + (if level == k then [key] else [])
    ensures k in FileUnder(levels, level, key) <==> k in levels || level == k
  {
  }

  lemma StepFrom(acc: Acc, done: seq<Folder>, f: Folder)
    requires FromFolders(acc.signs, done)
    ensures Step(acc, f).Some? ==> FromFolders(Step(acc, f).value.signs, done + [f])
  {
    StepRecords(acc, f);
    if Step(acc, f).Some? {
      var signs := Step(acc, f).value.signs;
      forall key | key in signs ensures exists g :: g in done + [f] && EntryOf(key, g, signs[key]) {
        if f.isDir && LastVideo(SignKey(f.name), f.items).Some? && key == SignKey(f.name) {
          assert f in done + [f];
        } else {
          var g :| g in done && EntryOf(key, g, acc.signs[key]);
          assert g in done + [f];
        }
      }
    }
  }

  lemma {:induction false} CollectFrom(acc: Acc, done: seq<Folder>, folders: seq<Folder>)
    requires FromFolders(acc.signs, done)
    ensures Collect(acc, folders).Some? ==> FromFolders(Collect(acc, folders).value.signs, done + folders)
    decreases |folders|
  {
    if folders != [] {
      StepFrom(acc, done, folders[0]);
      if Step(acc, folders[0]).Some? {
        CollectFrom(Step(acc, folders[0]).value, done + [folders[0]], folders[1..]);
        assert done + [folders[0]] + folders[1..] == done + folders;
      }
    }
  }

  /** The folder loop records a key for every folder holding a video. */
  lemma {:induction false} CollectKeys(acc: Acc, folders: seq<Folder>)
    ensures Collect(acc, folders).Some? ==>
      && acc.signs.Keys <= Collect(acc, folders).value.signs.Keys
      && forall f :: f in folders && f.isDir && LastVideo(SignKey(f.name), f.items).Some? ==>
           SignKey(f.name) in Collect(acc, folders).value.signs
    decreases |folders|
  {
    if folders != [] {
      StepRecords(acc, folders[0]);
      if Step(acc, folders[0]).Some? {
        CollectKeys(Step(acc, folders[0]).value, folders[1..]);
        forall f | f in folders ensures f == folders[0] || f in folders[1..] {
          var i :| 0 <= i < |folders| && folders[i] == f;
          if i > 0 {
            assert folders[1..][i - 1] == f;
          }
        }
      }
    }
  }

  /** The signs of a built manifest are exactly the entries of the listed folders that
      hold a video: each folder holding a video has an entry under its key, and each
      entry carries the label of its key, the last video of some such folder and
      that folder's first pictogram, or none. */
  lemma BuiltSigns(rootExists: bool, entries: seq<Folder>, inputs: seq<string>)
    ensures var out := Build(rootExists, entries, inputs);
      out.Built? ==>
        var m := out.manifest;
        && (forall f :: f in entries && f.isDir && LastVideo(SignKey(f.name), f.items).Some? ==>
              SignKey(f.name) in m.signs)
        && (forall key :: key in m.signs ==> exists f :: f in entries && EntryOf(key, f, m.signs[key]))
  {
    var out := Build(rootExists, entries, inputs);
    if out.Built? {
      var start := Acc(map[], map[], inputs);
      var folders := Sort(FolderLe, entries);
      CollectKeys(start, folders);
      CollectFrom(start, [], folders);
      assert [] + folders == folders;
      var m := out.manifest;
      forall f | f in entries ensures f in folders {
        SortedMembers(FolderLe, entries, f);
      }
      forall key | key in m.signs ensures exists f :: f in entries && EntryOf(key, f, m.signs[key]) {
        var f :| f in folders && EntryOf(key, f, m.signs[key]);
        SortedMembers(FolderLe, entries, f);
      }
    }
  }

  /** The level entered for a sign at its prompt. */
  datatype Answer = Answer(key: string, level: nat)

  /** The console dialog of the folder loop: for each folder holding a video, in
      walk order, its key and the level entered for it; `None` when the console
      input runs out at a prompt. */
  function Answers(inputs: seq<string>, folders: seq<Folder>): Option<seq<Answer>>
    decreases |folders|
  {
    if folders == [] then Some([])
    else
      var f := folders[0];
      if !f.isDir || LastVideo(SignKey(f.name), f.items).None? then Answers(inputs, folders[1..])
      else
        match Prompted(inputs)
        case None => None
        case Some(p) =>
          match Answers(inputs[p.used..], folders[1..])
          case None => None
          case Some(rest) => Some([Answer(SignKey(f.name), p.level)] + rest)
  }

  /** The keys answered with level `k`, in the order they were asked. */
  function KeysAt(answers: seq<Answer>, k: nat): (r: seq<string>)
    ensures forall x :: x in r <==> Answer(x, k) in answers
  {
    if answers == [] then []
    else
      assert forall a :: a in answers <==> a == answers[0] || a in answers[1..];
      (if answers[0].level == k then [answers[0].key] else []) + KeysAt(answers[1..], k)
  }

  /** Every answer names a walked folder holding a video and a level from 0 to 5. */
  lemma {:induction false} AnswersFrom(inputs: seq<string>, folders: seq<Folder>)
    ensures Answers(inputs, folders).Some? ==>
      forall a :: a in Answers(inputs, folders).value ==>
        a.level <= MaxLevel &&
        exists f :: f in folders && f.isDir && SignKey(f.name) == a.key && LastVideo(a.key, f.items).Some?
    decreases |folders|
  {
    if folders != [] {
      var f := folders[0];
      AnswersFrom(inputs, folders[1..]);
      var p := Prompted(inputs);
      if f.isDir && LastVideo(SignKey(f.name), f.items).Some? && p.Some? {
        AnswersFrom(inputs[p.value.used..], folders[1..]);
      }
      if Answers(inputs, folders).Some? {
        forall a | a in Answers(inputs, folders).value
          ensures a.level <= MaxLevel &&
            exists g :: g in folders && g.isDir && SignKey(g.name) == a.key && LastVideo(a.key, g.items).Some?
        {
          if f.isDir && LastVideo(SignKey(f.name), f.items).Some? && a == Answer(SignKey(f.name), p.value.level) {
            assert f in folders;
          } else {
            var g :| g in folders[1..] && g.isDir && SignKey(g.name) == a.key && LastVideo(a.key, g.items).Some?;
            assert g in folders;
          }
        }
      }
    }
  }

  lemma KeysAtCons(a: Answer, rest: seq<Answer>, k: nat)
    ensures KeysAt([a] + rest, k) == (if a.level == k then [a.key] else []) + KeysAt(rest, k)
  {
    assert ([a] + rest)[1..] == rest;
  }

  /** The folder loop runs out of input exactly when the dialog does. */
  lemma {:induction false} CollectAnswers(acc: Acc, folders: seq<Folder>)
    ensures Collect(acc, folders).Some? <==> Answers(acc.inputs, folders).Some?
    decreases |folders|
  {
    if folders != [] {
      var f := folders[0];
      StepLevels(acc, f, 1);
      if Step(acc, f).Some? {
        CollectAnswers(Step(acc, f).value, folders[1..]);
      }
    }
  }

  /** Each level from 1 to 5 ends up with the keys it held followed by the keys
      answered with its number, in the order they were asked; it is recorded iff it
      was recorded before or some key was answered with it. */
  lemma {:induction false} CollectLevels(acc: Acc, folders: seq<Folder>, k: nat)
    requires 1 <= k <= MaxLevel
    ensures Collect(acc, folders).Some? && Answers(acc.inputs, folders).Some? ==>
      var levels := Collect(acc, folders).value.levels;
      var answers := Answers(acc.inputs, folders).value;
      && Filed(levels, k) == Filed(acc.levels, k) + KeysAt(answers, k)
      && (k in levels <==> k in acc.levels || KeysAt(answers, k) != [])
    decreases |folders|
  {
    if folders != [] && Collect(acc, folders).Some? && Answers(acc.inputs, folders).Some? {
      var f, rest := folders[0], folders[1..];
      CollectCons(acc, folders);
      var a := Step(acc, f).value;
      StepLevels(acc, f, k);
      var h: seq<string> := [];
      if f.isDir && LastVideo(SignKey(f.name), f.items).Some? {
        var p := Prompted(acc.inputs).value;
        AnswersAsk(acc.inputs, folders);
        KeysAtCons(Answer(SignKey(f.name), p.level), Answers(a.inputs, rest).value, k);
        h := if p.level == k then [SignKey(f.name)] else [];
      } else {
        AnswersSkip(acc.inputs, folders);
      }
      CollectLevels(a, rest, k);
      FiledChain(acc.levels, a.levels, Collect(acc, folders).value.levels, k, h,
        KeysAt(Answers(a.inputs, rest).value, k), KeysAt(Answers(acc.inputs, folders).value, k));
    }
  }

  /** Two steps of filing under level `k` compose: the keys of the first step come
      before those of the second. */
  lemma FiledChain(l0: map<nat, seq<string>>, l1: map<nat, seq<string>>, l2: map<nat, seq<string>>,
                   k: nat, head: seq<string>, tail: seq<string>, all: seq<string>)
    requires Filed(l1, k) == Filed(l0, k) + head && (k in l1 <==> k in l0 || head != [])
    requires Filed(l2, k) == Filed(l1, k) + tail && (k in l2 <==> k in l1 || tail != [])
    requires all == head + tail
    ensures Filed(l2, k) == Filed(l0, k) + all && (k in l2 <==> k in l0 || all != [])
  {
    assert Filed(l0, k) + head + tail == Filed(l0, k) + (head + tail);
  }

  /** The folder loop past a folder it got through. */
  lemma CollectCons(acc: Acc, folders: seq<Folder>)
    requires folders != [] && Collect(acc, folders).Some?
    ensures Step(acc, folders[0]).Some?
    ensures Collect(acc, folders) == Collect(Step(acc, folders[0]).value, folders[1..])
  {
  }

  /** A folder without a video is not asked about. */
  lemma AnswersSkip(inputs: seq<string>, folders: seq<Folder>)
    requires folders != [] && (!folders[0].isDir || LastVideo(SignKey(folders[0].name), folders[0].items).None?)
    ensures Answers(inputs, folders) == Answers(inputs, folders[1..])
  {
  }

  /** A folder holding a video gets the first answer, and the rest of the dialog
      goes on from the lines after it. */
  lemma AnswersAsk(inputs: seq<string>, folders: seq<Folder>)
    requires folders != [] && folders[0].isDir && LastVideo(SignKey(folders[0].name), folders[0].items).Some?
    requires Answers(inputs, folders).Some?
    ensures Prompted(inputs).Some?
    ensures Answers(inputs[Prompted(inputs).value.used..], folders[1..]).Some?
    ensures Answers(inputs, folders).value ==
      [Answer(SignKey(folders[0].name), Prompted(inputs).value.level)]
      + Answers(inputs[Prompted(inputs).value.used..], folders[1..]).value
  {
  }

  /** How the manifest groups the signs: when it is built, the dialog completed, a
      level appears iff some key was answered with its number, and it lists
      exactly the keys answered with its number, each as often as it was answered,
      sorted. The input runs out iff the dialog does. */
  lemma BuiltLevels(rootExists: bool, entries: seq<Folder>, inputs: seq<string>)
    ensures var out := Build(rootExists, entries, inputs);
      && (rootExists ==> (out.InputEnded? <==> Answers(inputs, Sort(FolderLe, entries)).None?))
      && (out.Built? ==>
        var m := out.manifest;
        var answers := Answers(inputs, Sort(FolderLe, entries)).value;
        && Answers(inputs, Sort(FolderLe, entries)).Some?
        && (forall k :: 1 <= k <= MaxLevel ==>
              ((exists i :: 0 <= i < |m.levels| && m.levels[i].id == k) <==> KeysAt(answers, k) != []))
        && (forall i :: 0 <= i < |m.levels| ==>
              multiset(m.levels[i].signs) == multiset(KeysAt(answers, m.levels[i].id))
              && Sorted(StrLe, m.levels[i].signs)))
  {
    var start := Acc(map[], map[], inputs);
    var folders := Sort(FolderLe, entries);
    CollectAnswers(start, folders);
    CollectGood(start, folders);
    var out := Build(rootExists, entries, inputs);
    if out.Built? {
      var acc := Collect(start, folders).value;
      var answers := Answers(inputs, folders).value;
      var m := out.manifest;
      var ids := LevelIds(acc.levels, 1);
      StrLeTotal();
      forall k | 1 <= k <= MaxLevel
        ensures (exists i :: 0 <= i < |m.levels| && m.levels[i].id == k) <==> KeysAt(answers, k) != []
      {
        CollectLevels(start, folders, k);
        if KeysAt(answers, k) != [] {
          assert k in ids;
          var i :| 0 <= i < |ids| && ids[i] == k;
          assert m.levels[i].id == k;
        }
      }
      forall i | 0 <= i < |m.levels|
        ensures multiset(m.levels[i].signs) == multiset(KeysAt(answers, m.levels[i].id))
        ensures Sorted(StrLe, m.levels[i].signs)
      {
        CollectLevels(start, folders, m.levels[i].id);
        assert Filed(acc.levels, m.levels[i].id) == acc.levels[m.levels[i].id];
        SortSorted(StrLe, acc.levels[m.levels[i].id]);
      }
    }
  }
}
