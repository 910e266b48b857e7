/** The competition quiz (app/components/src/Competition.jsx): the player picks a tag,
    then answers one multiple-choice question per sign, cycling through the catalog
    without end, until the first wrong answer ends the game and the score is posted
    to the leaderboard. */
module Competition {
  import opened Wrappers
  import opened Strings
  import opened Shuffling

  type Id = string

  datatype Phase = Name | Play | End

  datatype Sign = Sign(title: Option<string>, video: Option<string>)

  /** The `/api/signs` object: `ids` is `Object.keys(signs)` in its enumeration order. */
  datatype Catalog = Catalog(ids: seq<Id>, signs: map<Id, Sign>)

  predicate ValidCatalog(c: Catalog) {
    Distinct(c.ids) && (set id | id in c.ids) == c.signs.Keys
  }

  /** The `/api/distractors` object: word count, written in decimal, to labels. */
  type Distractors = map<string, seq<string>>

  datatype Entry = Entry(name: string, score: real)

  /** The body of the `POST /api/score` request. */
  datatype Submission = Submission(name: string, score: real)

  /** The decoded reply of `POST /api/score`; `scores` is absent when the reply has none. */
  datatype ScoreReply = ScoreReply(scores: Option<seq<Entry>>, madeTop: bool)

  const MaxTagLength := 10

  /** `signs[id]?.label`. */
  function LabelOf(c: Catalog, id: Id): Option<string> {
    if id in c.signs then c.signs[id].title else None
  }

  /** The sign asked about when `current` questions have been answered: the
      catalog is walked round and round. */
  function Target(c: Catalog, current: nat): (id: Id)
    requires |c.ids| > 0
    ensures id in c.ids && id == c.ids[current % |c.ids|]
  {
    c.ids[current % |c.ids|]
  }

  lemma TargetWraps(c: Catalog, current: nat)
    requires |c.ids| > 0
    ensures Target(c, current + |c.ids|) == Target(c, current)
  {
    ModShift(current, |c.ids|);
  }

  lemma MulAtLeast(n: int, k: int)
    requires n > 0 && k >= 1
    ensures n * k >= n
  {
    if k > 1 {
      MulAtLeast(n, k - 1);
      assert n * k == n * (k - 1) + n;
    }
  }

  lemma ModShift(x: nat, n: nat)
    requires n > 0
    ensures (x + n) % n == x % n
  {
    var a, b := x / n, (x + n) / n;
    var r1, r2 := x % n, (x + n) % n;
    assert x == n * a + r1;
    assert x + n == n * b + r2;
    var k := b - a - 1;
    assert n * k == r1 - r2 by {
      assert n * b == n * (a + 1) + n * k;
    }
    if k >= 1 {
      MulAtLeast(n, k);
    }
  }

  /** `signs[target]?.label || target`: the displayed label falls back to the id. */
  function TargetLabel(c: Catalog, id: Id): (l: string)
    ensures LabelOf(c, id).Some? && LabelOf(c, id).value != "" ==> l == LabelOf(c, id).value
    ensures LabelOf(c, id).None? || LabelOf(c, id) == Some("") ==> l == id
  {
    match LabelOf(c, id)
    case Some(l) => if l != "" then l else id
    case None => id
  }

  /** Number of maximal whitespace runs in `t`. */
  function SpaceRuns(t: string): nat {
    if t == [] then 0
    else SpaceRuns(t[..|t| - 1]) + if IsSpace(t[|t| - 1]) && (|t| == 1 || !IsSpace(t[|t| - 2])) then 1 else 0
  }

  /** `label.trim().split(/\s+/).length`: a trimmed label has no leading or trailing
      whitespace, so it splits into one more piece than it has whitespace runs. */
  function WordCount(text: string): (n: nat)
    ensures n >= 1
  {
    1 + SpaceRuns(Trim(text))
  }

  lemma {:induction false} NoSpaceNoRuns(t: string)
    requires forall i :: 0 <= i < |t| ==> !IsSpace(t[i])
    ensures SpaceRuns(t) == 0
  {
    if t != [] {
      NoSpaceNoRuns(t[..|t| - 1]);
    }
  }

  /** Splitting where neither side has whitespace at the seam adds the runs. */
  lemma {:induction false} RunsAppend(x: string, y: string)
    requires x == [] || y == [] || !IsSpace(x[|x| - 1]) || !IsSpace(y[0])
    ensures SpaceRuns(x + y) == SpaceRuns(x) + SpaceRuns(y)
    decreases |y|
  {
    if y != [] {
      var yi := y[..|y| - 1];
      assert (x + y)[..|x + y| - 1] == x + yi;
      RunsAppend(x, yi);
    } else {
      assert x + y == x;
    }
  }

  lemma {:induction false} BlankRuns(w: string)
    requires w != [] && Blank(w)
    ensures SpaceRuns(w) == 1
    decreases |w|
  {
    if |w| > 1 {
      BlankRuns(w[..|w| - 1]);
    }
  }

  /** A string that neither starts nor ends with whitespace is its own trim. */
  lemma TrimmedAlready(s: string)
    requires s != [] && !IsSpace(s[0]) && !IsSpace(s[|s| - 1])
    ensures Trim(s) == s
  {
  }

  /** The pool index counts whitespace-separated words: two words-or-phrases joined by
      a run of whitespace have as many words as both together. */
  lemma WordsJoin(a: string, w: string, b: string)
    requires a != [] && !IsSpace(a[0]) && !IsSpace(a[|a| - 1])
    requires b != [] && !IsSpace(b[0]) && !IsSpace(b[|b| - 1])
    requires w != [] && Blank(w)
    ensures WordCount(a + w + b) == WordCount(a) + WordCount(b)
  {
    TrimmedAlready(a);
    TrimmedAlready(b);
    TrimmedAlready(a + w + b);
    RunsAppend(a, w);
    BlankRuns(w);
    RunsAppend(a + w, b);
  }

  /** A label without whitespace is one word. */
  lemma OneWord(text: string)
    requires forall i :: 0 <= i < |text| ==> !IsSpace(text[i])
    ensures WordCount(text) == 1
  {
    var t := Trim(text);
    assert forall i :: 0 <= i < |t| ==> !IsSpace(t[i]);
    NoSpaceNoRuns(t);
  }

  function LiftAll(s: seq<string>): (r: seq<Option<string>>)
    ensures |r| == |s| && forall i :: 0 <= i < |s| ==> r[i] == Some(s[i])
  {
    if s == [] then [] else [Some(s[0])] + LiftAll(s[1..])
  }

  function LabelsOf(c: Catalog, ids: seq<Id>): (r: seq<Option<string>>)
    ensures |r| == |ids| && forall i :: 0 <= i < |ids| ==> r[i] == LabelOf(c, ids[i])
  {
    if ids == [] then [] else [LabelOf(c, ids[0])] + LabelsOf(c, ids[1..])
  }

  /** `distractors[String(wordCount)] || []`: the distractors listed for the target
      label's word count, none when that count has no entry. */
  function Listed(d: Distractors, targetLabel: string): seq<string> {
    var key := Decimal(WordCount(targetLabel));
    if key in d then d[key] else []
  }

  /** `[...(distractors[String(wordCount)] || []), ...allSignIds.map(id => signs[id]?.label)]`. */
  function Pool(c: Catalog, d: Distractors, targetLabel: string): (r: seq<Option<string>>)
    ensures var listed := Listed(d, targetLabel);
      && |r| == |listed| + |c.ids|
      && (forall i :: 0 <= i < |listed| ==> r[i] == Some(listed[i]))
      && (forall i :: |listed| <= i < |r| ==> r[i] == LabelOf(c, c.ids[i - |listed|]))
  {
    LiftAll(Listed(d, targetLabel)) + LabelsOf(c, c.ids)
  }

  /** `pool.filter(x => x && x !== targetLabel)`. */
  function Candidates(pool: seq<Option<string>>, targetLabel: string): (r: seq<string>)
    ensures forall x :: x in r <==> x != "" && x != targetLabel && Some(x) in pool
  {
    if pool == [] then []
    else
      var rest := Candidates(pool[1..], targetLabel);
      assert forall o :: o in pool <==> o == pool[0] || o in pool[1..];
      match pool[0]
      case Some(x) => if x != "" && x != targetLabel then [x] + rest else rest
      case None => rest
  }

  /** `[...new Set(s)]`: the first occurrence of every value, in order. */
  function Dedup(s: seq<string>): (r: seq<string>)
    ensures Distinct(r)
    ensures forall x :: x in r <==> x in s
  {
    if s == [] then []
    else
      var d := Dedup(s[..|s| - 1]);
      assert s == s[..|s| - 1] + [s[|s| - 1]];
      if s[|s| - 1] in d then d else d + [s[|s| - 1]]
  }

  /** The distinct distractor labels available for the current target. */
  function Uniq(c: Catalog, d: Distractors, targetLabel: string): (r: seq<string>)
    ensures Distinct(r) && targetLabel !in r
  {
    Dedup(Candidates(Pool(c, d, targetLabel), targetLabel))
  }

  /** `makeChoices`: the target's text and up to three distinct distractors, shuffled.
      `picks1` and `picks2` stand for the two random orders. */
  function MakeChoices(c: Catalog, d: Distractors, current: nat, picks1: seq<nat>, picks2: seq<nat>): (r: seq<string>)
    ensures |c.ids| == 0 ==> r == []
    ensures |c.ids| > 0 ==>
      var tl := TargetLabel(c, Target(c, current));
      var uniq := Uniq(c, d, tl);
      && |r| == 1 + (if |uniq| < 3 then |uniq| else 3)
      && tl in r && multiset(r)[tl] == 1
      && Distinct(r)
      && (forall x :: x in r && x != tl ==> x in uniq)
  {
    if |c.ids| == 0 then []
    else
      var tl := TargetLabel(c, Target(c, current));
      var uniq := Uniq(c, d, tl);
      DealShape(tl, uniq, picks1, picks2);
      DealDistinct(tl, uniq, picks1, picks2);
      DealOnce(tl, uniq, picks1, picks2);
      Deal(tl, uniq, picks1, picks2)
  }

  /** Every distractor offered is a non-empty text, different from the target's,
      taken from the pool; and every such text is in `Uniq`. */
  lemma UniqMembers(c: Catalog, d: Distractors, tl: string, x: string)
    ensures x in Uniq(c, d, tl) <==> x != "" && x != tl && Some(x) in Pool(c, d, tl)
  {
  }

  /** `handleAnswer`'s test: the choice must equal `signs[target].text`, with no
      fallback to the id. */
  predicate IsCorrect(c: Catalog, current: nat, choice: string)
    ensures IsCorrect(c, current, choice) ==> Some(choice) in LabelsOf(c, c.ids)
    ensures IsCorrect(c, current, choice) && choice != "" ==> choice == TargetLabel(c, Target(c, current))
  {
    |c.ids| > 0 && LabelOf(c, Target(c, current)) == Some(choice)
  }

  /** A sign with a non-empty text can be answered: its text is offered and accepted. */
  lemma LabelledTargetAnswerable(c: Catalog, d: Distractors, current: nat, picks1: seq<nat>, picks2: seq<nat>, l: string)
    requires |c.ids| > 0 && LabelOf(c, Target(c, current)) == Some(l) && l != ""
    ensures l in MakeChoices(c, d, current, picks1, picks2) && IsCorrect(c, current, l)
  {
  }

  /** A sign without a text (or with an empty one) is offered under its id, but no
      offered choice is ever accepted for it. */
  lemma UnlabelledTargetUnanswerable(c: Catalog, d: Distractors, current: nat, picks1: seq<nat>, picks2: seq<nat>, x: string)
    requires |c.ids| > 0 && Target(c, current) != ""
    requires LabelOf(c, Target(c, current)).None? || LabelOf(c, Target(c, current)) == Some("")
    requires x in MakeChoices(c, d, current, picks1, picks2)
    ensures !IsCorrect(c, current, x)
  {
    var tl := TargetLabel(c, Target(c, current));
    if x != tl {
      UniqMembers(c, d, tl, x);
    }
  }

  /** The points for a correct answer: a random base in [1.15, 1.17) plus a bonus of
      0.05 per answer already in the streak. */
  function Points(base: real, streak: nat): (p: real)
    requires 1.15 <= base < 1.17
    ensures 1.15 + 0.05 * streak as real <= p < 1.17 + 0.05 * streak as real
  {
    base + streak as real * 0.05
  }

  lemma PointsGrowWithStreak(base: real, streak: nat, longer: nat)
    requires 1.15 <= base < 1.17 && streak <= longer
    ensures 1.15 <= Points(base, streak) <= Points(base, longer)
  {
  }

  /** Least total after `n` correct answers (every base at its minimum). */
  function MinTotal(n: nat): real {
    if n == 0 then 0.0 else MinTotal(n - 1) + 1.15 + 0.05 * (n - 1) as real
  }

  /** Bound above the total after `n` correct answers (every base below 1.17). */
  function MaxTotal(n: nat): real {
    if n == 0 then 0.0 else MaxTotal(n - 1) + 1.17 + 0.05 * (n - 1) as real
  }

  /** A streak of `n` is worth at least `1.15 * n` points. */
  lemma {:induction false} MinTotalAtLeast(n: nat)
    ensures MinTotal(n) >= 1.15 * n as real
  {
    if n > 0 {
      MinTotalAtLeast(n - 1);
    }
  }

  /** One more correct answer keeps the score within the bounds of the longer streak. */
  lemma ScoreStep(streak: nat, score: real, base: real)
    requires 1.15 <= base < 1.17 && MinTotal(streak) <= score <= MaxTotal(streak)
    ensures MinTotal(streak + 1) <= score + Points(base, streak) <= MaxTotal(streak + 1)
  {
  }

  class Game {
    var phase: Phase
    var tag: string
    var catalog: Catalog
    var distractors: Distractors
    var current: nat
    var streak: nat
    var score: real
    var choices: seq<string>
    var showOverlay: bool
    var scores: seq<Entry>
    var madeTop: bool

    /** The tag fits in ten characters, play never starts with a blank tag, every
        question answered was answered correctly (so `current` and `streak` move
        together) and the score lies between the least and the most that streak
        can earn. */
    ghost predicate Valid()
      reads this
    {
      && |tag| <= MaxTagLength
      && (phase != Name ==> !Blank(tag))
      && current == streak
      && MinTotal(streak) <= score <= MaxTotal(streak)
    }

    constructor ()
      ensures Valid()
      ensures phase == Name && tag == "" && catalog == Catalog([], map[]) && distractors == map[]
      ensures current == 0 && streak == 0 && score == 0.0 && choices == []
      ensures !showOverlay && scores == [] && !madeTop
    {
      phase, tag, catalog, distractors := Name, "", Catalog([], map[]), map[];
      current, streak, score, choices := 0, 0, 0.0, [];
      showOverlay, scores, madeTop := false, [], false;
    }

    /** The two fetches on mount deliver the catalog and the distractor pool. */
    method Load(c: Catalog, d: Distractors)
      requires Valid() && ValidCatalog(c)
      modifies this
      ensures Valid() && catalog == c && distractors == d
      ensures phase == old(phase) && tag == old(tag) && current == old(current) && streak == old(streak)
      ensures score == old(score) && choices == old(choices) && showOverlay == old(showOverlay)
      ensures scores == old(scores) && madeTop == old(madeTop)
    {
      catalog, distractors := c, d;
    }

    /** The name input keeps at most the first ten characters typed. */
    method SetTag(value: string)
      requires Valid() && phase == Name
      modifies this`tag
      ensures Valid() && tag == Take(value, MaxTagLength)
    {
      tag := Take(value, MaxTagLength);
    }

    /** "Starta tävling": play starts only when the trimmed tag is non-empty. */
    method Start()
      requires Valid() && phase == Name
      modifies this`phase
      ensures Valid()
      ensures phase == if Blank(tag) then Name else Play
    {
      if Trim(tag) != "" {
        phase := Play;
      }
    }

    /** The effect that rebuilds the choices whenever the question changes. */
    method RefreshChoices(picks1: seq<nat>, picks2: seq<nat>)
      requires Valid()
      modifies this`choices
      ensures Valid() && choices == MakeChoices(catalog, distractors, current, picks1, picks2)
    {
      choices := MakeChoices(catalog, distractors, current, picks1, picks2);
    }

    /** `handleAnswer`: a correct answer earns `Points(base, streak)` and moves to the
        next sign; a wrong one runs the synchronous part of `endGame` and returns the
        score submission it posts. */
    method HandleAnswer(choice: string, base: real) returns (posted: Option<Submission>)
      requires Valid() && phase == Play && 1.15 <= base < 1.17
      modifies this`phase, this`showOverlay, this`score, this`streak, this`current
      ensures Valid()
      ensures IsCorrect(catalog, old(current), choice) ==>
        && phase == Play && posted == None && showOverlay == old(showOverlay)
        && score == old(score) + Points(base, old(streak))
        && streak == old(streak) + 1 && current == old(current) + 1
      ensures !IsCorrect(catalog, old(current), choice) ==>
        && phase == End && showOverlay && posted == Some(Submission(tag, score))
        && score == old(score) && streak == old(streak) && current == old(current)
    {
      if IsCorrect(catalog, current, choice) {
        var pts := Points(base, streak);
        ScoreStep(streak, score, base);
        score, streak, current, posted := score + pts, streak + 1, current + 1, None;
      } else {
        posted := EndGame();
      }
    }

    /** The synchronous part of `endGame`: show the end screen and post the score. */
    method EndGame() returns (posted: Option<Submission>)
      requires Valid() && phase != Name
      modifies this`phase, this`showOverlay
      ensures Valid() && phase == End && showOverlay
      ensures posted == Some(Submission(tag, score))
    {
      phase, showOverlay := End, true;
      posted := Some(Submission(tag, score));
    }

    /** The asynchronous part of `endGame`: `None` stands for a failed request or an
        undecodable reply, which leaves the scoreboard as it was. */
    method ReceiveScores(reply: Option<ScoreReply>)
      requires Valid() && phase == End
      modifies this`scores, this`madeTop
      ensures Valid()
      ensures reply.None? ==> scores == old(scores) && madeTop == old(madeTop)
      ensures reply.Some? ==> scores == reply.value.scores.GetOr([]) && madeTop == reply.value.madeTop
    {
      if reply.Some? {
        scores, madeTop := reply.value.scores.GetOr([]), reply.value.madeTop;
      }
    }

    method CloseOverlay()
      requires Valid()
      modifies this`showOverlay
      ensures Valid() && !showOverlay
    {
      showOverlay := false;
    }
  }

  /** The answers before `n` were all accepted. */
  predicate CorrectPrefix(c: Catalog, answers: seq<string>, n: nat)
    requires n <= |answers|
  {
    forall k :: 0 <= k < n ==> IsCorrect(c, k, answers[k])
  }

  lemma CorrectPrefixGrows(c: Catalog, answers: seq<string>, n: nat)
    requires n < |answers| && CorrectPrefix(c, answers, n) && IsCorrect(c, n, answers[n])
    ensures CorrectPrefix(c, answers, n + 1)
  {
  }

  /** A whole game: start with `name`, answer `answers` in turn (bases from `bases`).
      Only the first wrong answer ends it; there is no last question. */
  method PlayThrough(name: string, c: Catalog, d: Distractors, answers: seq<string>, bases: seq<real>)
    returns (g: Game, posted: Option<Submission>)
    requires ValidCatalog(c) && |bases| == |answers|
    requires forall i :: 0 <= i < |bases| ==> 1.15 <= bases[i] < 1.17
    ensures g.Valid()
    ensures Blank(Take(name, MaxTagLength)) ==> g.phase == Name && posted == None
    ensures g.phase == End <==> posted.Some?
    ensures g.phase == End ==> g.current < |answers| && !IsCorrect(c, g.current, answers[g.current])
    ensures g.phase == Play ==> g.current == |answers|
    ensures g.phase != Name ==> forall i :: 0 <= i < g.current ==> IsCorrect(c, i, answers[i])
  {
    g := new Game();
    g.Load(c, d);
    g.SetTag(name);
    g.Start();
    posted := None;
    if g.phase == Name {
      return;
    }
    var i := 0;
    while i < |answers| && g.phase == Play
      invariant g.Valid() && g.catalog == c && g.phase != Name
      invariant 0 <= i <= |answers| && g.current == i
      invariant g.phase == End <==> posted.Some?
      invariant g.phase == End ==> i < |answers| && !IsCorrect(c, i, answers[i])
      invariant CorrectPrefix(c, answers, i)
      decreases |answers| - i, if g.phase == Play then 1 else 0
    {
      posted := g.HandleAnswer(answers[i], bases[i]);
      if g.phase == Play {
        CorrectPrefixGrows(c, answers, i);
        i := i + 1;
      }
    }
  }
}
