/** The catalog checker (tools/validate_catalog.py): every sign a level lists must
    exist, and each sign's pictogram and two videos must be `/media/` URLs naming
    existing files. The manifest is data and the file system is the `pathExists`
    parameter, which stands for `os.path.exists`: it holds for directories as well
    as files. */
module CatalogValidator {
  import opened Wrappers
  import opened Strings

  /** The value under a key of a sign object: a string, or a JSON value of another
      kind (`null`, a number, ...), on which `startswith` raises. */
  datatype Value = Str(text: string) | NonStr

  /** A level: `id` and `signs` may be absent. */
  datatype VLevel = VLevel(id: Option<int>, signs: Option<seq<string>>)

  /** One entry of the `signs` object, in file order. */
  datatype SignRec = SignRec(sid: string, meta: map<string, Value>)

  datatype Catalog = Catalog(levels: Option<seq<VLevel>>, signs: Option<seq<SignRec>>)

  /** How a run ends: an uncaught exception, or the report with the `ok` flag and the
      errors in the order they were found. */
  datatype Outcome = Crashed | Report(ok: bool, errs: seq<string>)

  const UrlKeys: seq<string> := ["symbol", "training_video", "quiz_video"]
  const MediaPrefix := "/media/"

  /** `str(n)` for an integer. */
  function IntText(n: int): string {
    if n < 0 then "-" + Decimal(-n) else Decimal(n)
  }

  /** `lvl.get('id')` as an f-string shows it. */
  function IdText(id: Option<int>): string {
    if id.None? then "None" else IntText(id.value)
  }

  function SidsOf(signs: seq<SignRec>): set<string> {
    set r | r in signs :: r.sid
  }

  /** `s.get(key, "")`. */
  function Lookup(meta: map<string, Value>, key: string): Value {
    if key in meta then meta[key] else Str("")
  }

  /** `url.lstrip("/")`. */
  function LStripSlash(url: string): (r: string)
    ensures r == [] || r[0] != '/'
    ensures |r| <= |url| && r == url[|url| - |r|..]
    ensures forall i :: 0 <= i < |url| - |r| ==> url[i] == '/'
  {
    if url != [] && url[0] == '/' then LStripSlash(url[1..]) else url
  }

  function RefMessage(id: Option<int>, sid: string): string {
    "Level " + IdText(id) + " references unknown sign '" + sid + "'"
  }

  /** The reference errors of the first sign ids of one level. */
  function RefErrors(id: Option<int>, known: set<string>, sids: seq<string>): (errs: seq<string>)
    ensures |errs| <= |sids|
  {
    if sids == [] then []
    else
      var last := sids[|sids| - 1];
      RefErrors(id, known, sids[..|sids| - 1]) + (if last in known then [] else [RefMessage(id, last)])
  }

  /** The reference errors of the first levels. */
  function LevelsErrors(levels: seq<VLevel>, known: set<string>): seq<string> {
    if levels == [] then []
    else
      var last := levels[|levels| - 1];
      LevelsErrors(levels[..|levels| - 1], known) + RefErrors(last.id, known, last.signs.GetOr([]))
  }

  /** The check of one URL: `None` when the value is not a string. A URL without the
      prefix gets one error and its file is not looked up; otherwise a missing file
      gets one error. */
  function UrlErrors(sid: string, key: string, v: Value, pathExists: string -> bool): (r: Option<seq<string>>)
    ensures r.None? <==> v.NonStr?
    ensures r.Some? ==> |r.value| <= 1
    ensures r.Some? && !StartsWith(v.text, MediaPrefix) ==> r.value == [sid + "." + key + " should start with /media/"]
    ensures r.Some? && StartsWith(v.text, MediaPrefix) ==> (r.value == [] <==> pathExists(LStripSlash(v.text)))
  {
    match v
    case NonStr => None
    case Str(url) =>
      if !StartsWith(url, MediaPrefix) then Some([sid + "." + key + " should start with /media/"])
      else if !pathExists(LStripSlash(url)) then Some(["Missing file: " + url])
      else Some([])
  }

  /** The errors of two checks in turn, `None` when either raises. */
  function Join(a: Option<seq<string>>, b: Option<seq<string>>): (r: Option<seq<string>>)
    ensures r.None? <==> a.None? || b.None?
    ensures r.Some? ==> r.value == a.value + b.value
    ensures r == Some([]) <==> a == Some([]) && b == Some([])
  {
    if a.None? || b.None? then None
    else
      assert |a.value + b.value| == |a.value| + |b.value|;
      Some(a.value + b.value)
  }

  /** Errors of the first keys of one sign, `None` once a check raises. */
  function KeyErrors(s: SignRec, keys: seq<string>, pathExists: string -> bool): Option<seq<string>> {
    if keys == [] then Some([])
    else
      var before := KeyErrors(s, keys[..|keys| - 1], pathExists);
      var here := UrlErrors(s.sid, keys[|keys| - 1], Lookup(s.meta, keys[|keys| - 1]), pathExists);
      Join(before, here)
  }

  /** Errors of the URL checks of the first signs, `None` once a check raises. */
  function SignsErrors(signs: seq<SignRec>, keys: seq<string>, pathExists: string -> bool): Option<seq<string>> {
    if signs == [] then Some([])
    else
      var before := SignsErrors(signs[..|signs| - 1], keys, pathExists);
      var here := KeyErrors(signs[|signs| - 1], keys, pathExists);
      Join(before, here)
  }

  /** `main`, as a function of the manifest and the file system. */
  function Check(m: Catalog, pathExists: string -> bool): (r: Outcome)
    ensures r.Crashed? <==> SignsErrors(m.signs.GetOr([]), UrlKeys, pathExists).None?
    ensures r.Report? ==> (r.ok <==> r.errs == [])
    ensures r.Report? ==>
      var refs := LevelsErrors(m.levels.GetOr([]), SidsOf(m.signs.GetOr([])));
      |refs| <= |r.errs| && r.errs[..|refs|] == refs
  {
    var signs := m.signs.GetOr([]);
    var refs := LevelsErrors(m.levels.GetOr([]), SidsOf(signs));
    match SignsErrors(signs, UrlKeys, pathExists)
    case None => Crashed
    case Some(urls) => Report(refs + urls == [], refs + urls)
  }

  /** The lines printed: "OK" or "ERRORS:", then one line per error. */
  function Output(out: Outcome): (lines: seq<string>)
    ensures out.Crashed? ==> lines == []
    ensures out.Report? ==> |lines| == 1 + |out.errs| && lines[0] == (if out.ok then "OK" else "ERRORS:")
    ensures out.Report? ==> forall i :: 0 <= i < |out.errs| ==> lines[i + 1] == " - " + out.errs[i]
  {
    match out
    case Crashed => []
    case Report(ok, errs) => [if ok then "OK" else "ERRORS:"] + seq(|errs|, i requires 0 <= i < |errs| => " - " + errs[i])
  }

  /** `sys.exit(0 if ok else 1)`; an uncaught exception also exits with status 1. */
  function ExitStatus(out: Outcome): (status: int)
    ensures status == 0 <==> out.Report? && out.ok
    ensures status == 0 || status == 1
  {
    if out.Report? && out.ok then 0 else 1
  }

  /** `main`'s loops. `ok` is cleared at each error found, so it ends up true exactly
      when no error was found. */
  method Validate(m: Catalog, pathExists: string -> bool) returns (out: Outcome)
    ensures out == Check(m, pathExists)
    ensures out.Report? ==> (out.ok <==> out.errs == [])
  {
    var signs := m.signs.GetOr([]);
    var ok, refs := CheckLevels(m.levels.GetOr([]), SidsOf(signs));
    var raised, errs;
    raised, ok, errs := CheckSigns(signs, pathExists, ok, refs);
    if raised {
      return Crashed;
    }
    return Report(ok, errs);
  }

  /** The loop over the levels. */
  method CheckLevels(levels: seq<VLevel>, known: set<string>) returns (ok: bool, errs: seq<string>)
    ensures errs == LevelsErrors(levels, known)
    ensures ok <==> errs == []
  {
    ok, errs := true, [];
    var i := 0;
    while i < |levels|
      invariant 0 <= i <= |levels|
      invariant errs == LevelsErrors(levels[..i], known)
      invariant ok <==> errs == []
    {
      assert levels[..i + 1][..i] == levels[..i];
      ok, errs := CheckLevel(levels[i], known, ok, errs);
      i := i + 1;
    }
    assert levels[..i] == levels;
  }

  /** The loop over the signs; `raised` when a check raised. */
  method CheckSigns(signs: seq<SignRec>, pathExists: string -> bool, ok0: bool, errs0: seq<string>)
    returns (raised: bool, ok: bool, errs: seq<string>)
    requires ok0 <==> errs0 == []
    ensures raised <==> SignsErrors(signs, UrlKeys, pathExists).None?
    ensures !raised ==> errs == errs0 + SignsErrors(signs, UrlKeys, pathExists).value && (ok <==> errs == [])
  {
    ok, errs := ok0, errs0;
    var k := 0;
    while k < |signs|
      invariant 0 <= k <= |signs|
      invariant SignsErrors(signs[..k], UrlKeys, pathExists).Some?
      invariant errs == errs0 + SignsErrors(signs[..k], UrlKeys, pathExists).value
      invariant ok <==> errs == []
    {
      SignsErrorsSnoc(signs, k, pathExists);
      var r;
      r, ok, errs := CheckSign(signs[k], pathExists, ok, errs);
      if r {
        SignsRaise(signs, UrlKeys, k, pathExists);
        return true, ok, errs;
      }
      k := k + 1;
    }
    assert signs[..k] == signs;
    raised := false;
  }

  /** The URL errors of one more sign follow those of the signs before it. */
  lemma SignsErrorsSnoc(signs: seq<SignRec>, k: nat, pathExists: string -> bool)
    requires k < |signs|
    ensures SignsErrors(signs[..k + 1], UrlKeys, pathExists)
      == Join(SignsErrors(signs[..k], UrlKeys, pathExists), KeyErrors(signs[k], UrlKeys, pathExists))
  {
    assert signs[..k + 1][..k] == signs[..k];
  }

  /** The inner loop over the sign ids of one level. */
  method CheckLevel(lvl: VLevel, known: set<string>, ok0: bool, errs0: seq<string>) returns (ok: bool, errs: seq<string>)
    requires ok0 <==> errs0 == []
    ensures errs == errs0 + RefErrors(lvl.id, known, lvl.signs.GetOr([]))
    ensures ok <==> errs == []
  {
    ok, errs := ok0, errs0;
    var sids := lvl.signs.GetOr([]);
    var j := 0;
    while j < |sids|
      invariant 0 <= j <= |sids|
      invariant errs == errs0 + RefErrors(lvl.id, known, sids[..j])
      invariant ok <==> errs == []
    {
      assert sids[..j + 1][..j] == sids[..j];
      var sid := sids[j];
      if sid !in known {
        ok := false;
        errs := errs + [RefMessage(lvl.id, sid)];
      }
      j := j + 1;
    }
    assert sids[..j] == sids;
  }

  /** The inner loop over the three URL keys of one sign; `raised` when a value is
      not a string. */
  method CheckSign(s: SignRec, pathExists: string -> bool, ok0: bool, errs0: seq<string>) returns (raised: bool, ok: bool, errs: seq<string>)
    requires ok0 <==> errs0 == []
    ensures raised <==> KeyErrors(s, UrlKeys, pathExists).None?
    ensures !raised ==> errs == errs0 + KeyErrors(s, UrlKeys, pathExists).value && (ok <==> errs == [])
  {
    ok, errs := ok0, errs0;
    var t := 0;
    while t < |UrlKeys|
      invariant 0 <= t <= |UrlKeys|
      invariant KeyErrors(s, UrlKeys[..t], pathExists).Some?
      invariant errs == errs0 + KeyErrors(s, UrlKeys[..t], pathExists).value
      invariant ok <==> errs == []
    {
      assert UrlKeys[..t + 1][..t] == UrlKeys[..t];
      var key := UrlKeys[t];
      var v := Lookup(s.meta, key);
      if v.NonStr? {
        KeyErrorsRaise(s, UrlKeys, pathExists);
        return true, ok, errs;
      }
      ok, errs := CheckUrl(s.sid, key, v.text, pathExists, ok, errs);
      t := t + 1;
    }
    assert UrlKeys[..t] == UrlKeys;
    raised := false;
  }

  /** The body of the loop over the URL keys, for a string value. */
  method CheckUrl(sid: string, key: string, url: string, pathExists: string -> bool, ok0: bool, errs0: seq<string>)
    returns (ok: bool, errs: seq<string>)
    requires ok0 <==> errs0 == []
    ensures errs == errs0 + UrlErrors(sid, key, Str(url), pathExists).value
    ensures ok <==> errs == []
  {
    ok, errs := ok0, errs0;
    if !StartsWith(url, MediaPrefix) {
      ok := false;
      errs := errs + [sid + "." + key + " should start with /media/"];
    } else if !pathExists(LStripSlash(url)) {
      ok := false;
      errs := errs + ["Missing file: " + url];
    }
  }

  /** The checks of a sign raise exactly when one of the keys holds a value that is
      not a string. */
  lemma {:induction false} KeyErrorsRaise(s: SignRec, keys: seq<string>, pathExists: string -> bool)
    ensures KeyErrors(s, keys, pathExists).None? <==> exists j :: 0 <= j < |keys| && Lookup(s.meta, keys[j]).NonStr?
  {
    if keys != [] {
      var init := keys[..|keys| - 1];
      KeyErrorsRaise(s, init, pathExists);
      if exists j :: 0 <= j < |init| && Lookup(s.meta, init[j]).NonStr? {
        var j :| 0 <= j < |init| && Lookup(s.meta, init[j]).NonStr?;
        assert keys[j] == init[j];
      }
      if exists j :: 0 <= j < |keys| && Lookup(s.meta, keys[j]).NonStr? {
        var j :| 0 <= j < |keys| && Lookup(s.meta, keys[j]).NonStr?;
        if j < |init| {
          assert keys[j] == init[j];
        }
      }
    }
  }

  /** One sign whose checks raise makes the whole run raise. */
  lemma {:induction false} SignsRaise(signs: seq<SignRec>, keys: seq<string>, k: nat, pathExists: string -> bool)
    requires k < |signs| && KeyErrors(signs[k], keys, pathExists).None?
    ensures SignsErrors(signs, keys, pathExists).None?
  {
    if k < |signs| - 1 {
      assert signs[..|signs| - 1][k] == signs[k];
      SignsRaise(signs[..|signs| - 1], keys, k, pathExists);
    }
  }

  /** A URL passes when it is a string with the `/media/` prefix naming an existing path. */
  predicate UrlGood(v: Value, pathExists: string -> bool) {
    v.Str? && StartsWith(v.text, MediaPrefix) && pathExists(LStripSlash(v.text))
  }

  predicate SignGood(s: SignRec, pathExists: string -> bool) {
    forall key :: key in UrlKeys ==> UrlGood(Lookup(s.meta, key), pathExists)
  }

  predicate LevelKnown(l: VLevel, known: set<string>) {
    forall sid :: sid in l.signs.GetOr([]) ==> sid in known
  }

  /** A URL without the prefix gets its error whatever the file system holds: the
      existence check is skipped. */
  lemma PrefixFailSkipsLookup(sid: string, key: string, url: string, pathExists1: string -> bool, pathExists2: string -> bool)
    requires !StartsWith(url, MediaPrefix)
    ensures UrlErrors(sid, key, Str(url), pathExists1) == UrlErrors(sid, key, Str(url), pathExists2)
    ensures UrlErrors(sid, key, Str(url), pathExists1) == Some([sid + "." + key + " should start with /media/"])
  {
  }

  /** The positions of `sids` that hold an unknown id. */
  function UnknownAt(known: set<string>, sids: seq<string>): set<int> {
    set i | 0 <= i < |sids| && sids[i] !in known
  }

  /** One level adds an error for each unknown sign id and none otherwise: one
      message per position holding an unknown id, each naming an unknown id. */
  lemma {:induction false} RefErrorsSpec(id: Option<int>, known: set<string>, sids: seq<string>)
    ensures RefErrors(id, known, sids) == [] <==> forall sid :: sid in sids ==> sid in known
    ensures forall sid :: sid in sids && sid !in known ==> RefMessage(id, sid) in RefErrors(id, known, sids)
    ensures forall e :: e in RefErrors(id, known, sids) ==>
      exists sid :: sid in sids && sid !in known && e == RefMessage(id, sid)
    ensures |RefErrors(id, known, sids)| == |UnknownAt(known, sids)|
  {
    if sids != [] {
      var init := sids[..|sids| - 1];
      var last := sids[|sids| - 1];
      RefErrorsSpec(id, known, init);
      assert sids == init + [last];
      UnknownAtSnoc(known, init, last);
      forall e | e in RefErrors(id, known, sids)
        ensures exists sid :: sid in sids && sid !in known && e == RefMessage(id, sid)
      {
        if e in RefErrors(id, known, init) {
          var sid :| sid in init && sid !in known && e == RefMessage(id, sid);
          assert sid in sids;
        } else {
          assert last in sids && last !in known && e == RefMessage(id, last);
        }
      }
    }
  }

  lemma UnknownAtSnoc(known: set<string>, init: seq<string>, last: string)
    ensures |UnknownAt(known, init + [last])| == |UnknownAt(known, init)| + (if last in known then 0 else 1)
  {
    var s := init + [last];
    var n := |init|;
    assert UnknownAt(known, init) == set i | 0 <= i < n && s[i] !in known;
    if last in known {
      assert UnknownAt(known, s) == UnknownAt(known, init);
    } else {
      assert UnknownAt(known, s) == UnknownAt(known, init) + {n};
      assert n !in UnknownAt(known, init);
    }
  }

  lemma {:induction false} LevelsErrorsEmpty(levels: seq<VLevel>, known: set<string>)
    ensures LevelsErrors(levels, known) == [] <==> forall i :: 0 <= i < |levels| ==> LevelKnown(levels[i], known)
  {
    if levels != [] {
      var init := levels[..|levels| - 1];
      var last := levels[|levels| - 1];
      LevelsErrorsEmpty(init, known);
      RefErrorsSpec(last.id, known, last.signs.GetOr([]));
      assert forall i :: 0 <= i < |init| ==> init[i] == levels[i];
    }
  }

  lemma {:induction false} KeyErrorsClean(s: SignRec, keys: seq<string>, pathExists: string -> bool)
    ensures KeyErrors(s, keys, pathExists) == Some([]) <==> forall j :: 0 <= j < |keys| ==> UrlGood(Lookup(s.meta, keys[j]), pathExists)
  {
    if keys != [] {
      var init := keys[..|keys| - 1];
      KeyErrorsClean(s, init, pathExists);
      assert forall j :: 0 <= j < |init| ==> init[j] == keys[j];
      var last := keys[|keys| - 1];
      var here := UrlErrors(s.sid, last, Lookup(s.meta, last), pathExists);
      assert KeyErrors(s, keys, pathExists) == Join(KeyErrors(s, init, pathExists), here);
      assert here == Some([]) <==> UrlGood(Lookup(s.meta, last), pathExists);
    }
  }

  lemma {:induction false} SignsErrorsClean(signs: seq<SignRec>, keys: seq<string>, pathExists: string -> bool)
    ensures SignsErrors(signs, keys, pathExists) == Some([]) <==> forall k :: 0 <= k < |signs| ==> KeyErrors(signs[k], keys, pathExists) == Some([])
  {
    if signs != [] {
      var init := signs[..|signs| - 1];
      SignsErrorsClean(init, keys, pathExists);
      var here := KeyErrors(signs[|signs| - 1], keys, pathExists);
      assert SignsErrors(signs, keys, pathExists) == Join(SignsErrors(init, keys, pathExists), here);
      if SignsErrors(signs, keys, pathExists) == Some([]) {
        assert SignsErrors(init, keys, pathExists) == Some([]) && here == Some([]);
        forall k | 0 <= k < |signs| ensures KeyErrors(signs[k], keys, pathExists) == Some([]) {
          if k < |init| {
            assert init[k] == signs[k];
          } else {
            assert signs[k] == signs[|signs| - 1];
          }
        }
      }
      if forall k :: 0 <= k < |signs| ==> KeyErrors(signs[k], keys, pathExists) == Some([]) {
        forall k | 0 <= k < |init| ensures KeyErrors(init[k], keys, pathExists) == Some([]) {
          assert init[k] == signs[k];
        }
        assert here == Some([]);
      }
    }
  }

  lemma SignClean(s: SignRec, pathExists: string -> bool)
    ensures KeyErrors(s, UrlKeys, pathExists) == Some([]) <==> SignGood(s, pathExists)
  {
    KeyErrorsClean(s, UrlKeys, pathExists);
    assert SignGood(s, pathExists) <==> forall j :: 0 <= j < |UrlKeys| ==> UrlGood(Lookup(s.meta, UrlKeys[j]), pathExists);
  }

  lemma {:induction false} SignsRaiseOnly(signs: seq<SignRec>, keys: seq<string>, pathExists: string -> bool)
    ensures SignsErrors(signs, keys, pathExists).None? ==> exists k :: 0 <= k < |signs| && KeyErrors(signs[k], keys, pathExists).None?
  {
    if signs != [] {
      var init := signs[..|signs| - 1];
      SignsRaiseOnly(init, keys, pathExists);
      if SignsErrors(init, keys, pathExists).None? {
        var k :| 0 <= k < |init| && KeyErrors(init[k], keys, pathExists).None?;
        assert init[k] == signs[k];
      }
    }
  }

  /** The run exits with status 0 exactly when every level lists only known signs and
      every sign's three URLs are `/media/` paths of existing files. */
  lemma CleanRun(m: Catalog, pathExists: string -> bool)
    ensures ExitStatus(Check(m, pathExists)) == 0 <==>
      && (forall i :: 0 <= i < |m.levels.GetOr([])| ==> LevelKnown(m.levels.GetOr([])[i], SidsOf(m.signs.GetOr([]))))
      && (forall k :: 0 <= k < |m.signs.GetOr([])| ==> SignGood(m.signs.GetOr([])[k], pathExists))
  {
    LevelsErrorsEmpty(m.levels.GetOr([]), SidsOf(m.signs.GetOr([])));
    SignsErrorsClean(m.signs.GetOr([]), UrlKeys, pathExists);
    forall k | 0 <= k < |m.signs.GetOr([])| {
      SignClean(m.signs.GetOr([])[k], pathExists);
    }
  }

  /** The run raises exactly when some sign holds a value that is not a string under
      one of the three URL keys, as a `null` pictogram does. */
  lemma CrashRun(m: Catalog, pathExists: string -> bool)
    ensures Check(m, pathExists) == Crashed <==>
      exists k, key :: 0 <= k < |m.signs.GetOr([])| && key in UrlKeys && Lookup(m.signs.GetOr([])[k].meta, key).NonStr?
  {
    var signs := m.signs.GetOr([]);
    SignsRaiseOnly(signs, UrlKeys, pathExists);
    if Check(m, pathExists) == Crashed {
      var k :| 0 <= k < |signs| && KeyErrors(signs[k], UrlKeys, pathExists).None?;
      KeyErrorsRaise(signs[k], UrlKeys, pathExists);
      var j :| 0 <= j < |UrlKeys| && Lookup(signs[k].meta, UrlKeys[j]).NonStr?;
      assert UrlKeys[j] in UrlKeys;
    }
    if exists k, key :: 0 <= k < |signs| && key in UrlKeys && Lookup(signs[k].meta, key).NonStr? {
      var k, key :| 0 <= k < |signs| && key in UrlKeys && Lookup(signs[k].meta, key).NonStr?;
      var j :| 0 <= j < |UrlKeys| && UrlKeys[j] == key;
      KeyErrorsRaise(signs[k], UrlKeys, pathExists);
      SignsRaise(signs, UrlKeys, k, pathExists);
    }
  }
}
