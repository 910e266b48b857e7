/** The earlier quiz and training pages of app/components/src/main.jsx. The quiz
    asks the level's signs in a random order, one answer per question, counts the
    right answers and ends on the results page; the training page steps through the
    signs one by one. */
module LevelQuiz {
  import opened Wrappers
  import opened Strings
  import opened Shuffling
  import opened Signs

  /** The texts of the other signs: `signs.filter(s => s.id !== q.id).map(s => s.label || s.id)`. */
  function OtherTexts(signs: seq<QSign>, id: string): seq<string> {
    Map(Shown, Others(signs, id))
  }

  /** `options`: the asked sign's text and up to three texts of other signs, in a
      random order; none before the question exists. Texts may repeat, but no text
      is offered more often than the signs carry it. */
  function Options(signs: seq<QSign>, q: Option<QSign>, picks1: seq<nat>, picks2: seq<nat>): (r: seq<string>)
    ensures q.None? ==> r == []
    ensures q.Some? ==>
      var others := OtherTexts(signs, q.value.id);
      && |r| == 1 + (if |others| < 3 then |others| else 3)
      && Shown(q.value) in r
      && (forall x :: x in r && x != Shown(q.value) ==> x in others)
      && multiset(r) - multiset{Shown(q.value)} <= multiset(others)
  {
    if q.None? then []
    else
      var others := OtherTexts(signs, q.value.id);
      DealShape(Shown(q.value), others, picks1, picks2);
      Shuffle([Shown(q.value)] + Take(Shuffle(others, picks1), 3), picks2)
  }

  /** With distinct sign ids there is one other text per other sign, so a level of
      `n` signs offers `1 + min(3, n - 1)` options. */
  lemma {:induction false} OthersCount(signs: seq<QSign>, q: QSign)
    requires Distinct(Map(SignId, signs)) && q in signs
    ensures |Others(signs, q.id)| == |signs| - 1
  {
    var s0 := signs[0];
    var tail := signs[1..];
    assert Map(SignId, signs) == [s0.id] + Map(SignId, tail);
    DistinctTail(Map(SignId, signs));
    if s0 == q {
      OthersAll(tail, q.id);
    } else {
      assert q in tail;
      OthersCount(tail, q);
    }
  }

  /** A list without the id keeps all its signs. */
  lemma {:induction false} OthersAll(signs: seq<QSign>, id: string)
    requires id !in Map(SignId, signs)
    ensures Others(signs, id) == signs
  {
    if signs != [] {
      assert Map(SignId, signs) == [signs[0].id] + Map(SignId, signs[1..]);
      OthersAll(signs[1..], id);
      assert signs == [signs[0]] + signs[1..];
    }
  }

  lemma OptionsCount(signs: seq<QSign>, q: QSign, picks1: seq<nat>, picks2: seq<nat>)
    requires Distinct(Map(SignId, signs)) && q in signs
    ensures |Options(signs, Some(q), picks1, picks2)| == 1 + (if |signs| - 1 < 3 then |signs| - 1 else 3)
  {
    OthersCount(signs, q);
  }

  /** An answer is right exactly when it equals `q.label || q.id`. */
  predicate IsRight(q: QSign, text: string) {
    text == Shown(q)
  }

  /** The continuation `onAnswer` schedules, with the values its closure captured. */
  datatype Advance = Advance(idx: nat, score: nat, right: bool)

  /** The results page: `score` right answers out of `total` questions. */
  datatype Results = Results(score: nat, total: nat)

  class Quiz {
    var signs: seq<QSign>
    var order: seq<string>
    var idx: nat
    var score: nat
    var answered: Option<bool>
    var pending: Option<Advance>
    var results: Option<Results>

    function Q(): Option<QSign>
      reads this
    {
      Question(signs, order, idx)
    }

    /** `idx` stays inside the order; exactly one advance is pending while the
        answer is shown, carrying the index and the score from before that answer;
        the score never exceeds the questions answered; the results report that
        score out of the length of the order, and never more than the total. */
    ghost predicate Valid()
      reads this
    {
      && (idx < |order| || (order == [] && idx == 0))
      && (answered.Some? <==> pending.Some?)
      && (pending.Some? ==>
            && pending.value.idx == idx && idx < |order|
            && pending.value.right == answered.value
            && score == pending.value.score + (if pending.value.right then 1 else 0))
      && score <= idx + (if pending.Some? || results.Some? then 1 else 0)
      && (results.Some? ==>
            && pending.None? && results.value == Results(score, |order|)
            && results.value.score <= results.value.total)
    }

    constructor ()
      ensures Valid()
      ensures signs == [] && order == [] && idx == 0 && score == 0
      ensures answered == None && pending == None && results == None
    {
      signs, order, idx, score := [], [], 0, 0;
      answered, pending, results := None, None, None;
    }

    method Load(levelSigns: seq<QSign>, picks: seq<nat>)
      requires Valid() && order == [] && idx == 0 && score == 0 && pending == None && results == None
      modifies this`signs, this`order
      ensures Valid()
      ensures signs == levelSigns && order == Shuffle(Map(SignId, levelSigns), picks)
      ensures multiset(order) == multiset(Map(SignId, levelSigns))
    {
      signs := levelSigns;
      order := Shuffle(Map(SignId, levelSigns), picks);
      assert idx < |order| || order == [];
      ShufflePermutes(Map(SignId, levelSigns), picks);
    }

    /** A click on an option: ignored while an answer is shown. The quiz page is
        gone once the results are shown, so no click comes after that. */
    method Click(text: string)
      requires Valid() && results.None?
      modifies this`answered, this`score, this`pending
      ensures Valid()
      ensures old(answered).Some? || Q().None? ==>
        answered == old(answered) && score == old(score) && pending == old(pending)
      ensures old(answered).None? && Q().Some? ==>
        var right := IsRight(Q().value, text);
        && answered == Some(right)
        && score == old(score) + (if right then 1 else 0)
        && pending == Some(Advance(idx, old(score), right))
    {
      if answered.None? {
        OnAnswer(text);
      }
    }

    /** `onAnswer`: mark the answer, count it if right and schedule the advance. */
    method OnAnswer(text: string)
      requires Valid() && answered.None? && results.None?
      modifies this`answered, this`score, this`pending
      ensures Valid()
      ensures Q().None? ==> answered == None && score == old(score) && pending == None
      ensures Q().Some? ==>
        var right := IsRight(Q().value, text);
        && answered == Some(right)
        && score == old(score) + (if right then 1 else 0)
        && pending == Some(Advance(idx, old(score), right))
    {
      var q := Q();
      if q.None? {
        return;
      }
      var right := IsRight(q.value, text);
      answered := Some(right);
      pending := Some(Advance(idx, score, right));
      if right {
        score := score + 1;
      }
    }

    /** The scheduled advance: clear the answer, then show the next question or,
        after the last one, the results with the captured score. */
    method Fire()
      requires Valid() && pending.Some?
      modifies this`answered, this`idx, this`pending, this`results
      ensures Valid()
      ensures answered == None && pending == None
      ensures var a := old(pending).value;
        && (a.idx + 1 < |order| ==> idx == a.idx + 1 && results == old(results))
        && (a.idx + 1 >= |order| ==>
              idx == old(idx)
              && results == Some(Results(a.score + (if a.right then 1 else 0), |order|)))
    {
      var a := pending.value;
      answered, pending := None, None;
      if a.idx + 1 < |order| {
        idx := a.idx + 1;
      } else {
        results := Some(Results(a.score + (if a.right then 1 else 0), |order|));
      }
    }
  }

  /** `Training`: the index into the level's signs and whether the page was left. */
  class Training {
    var signs: seq<QSign>
    var i: nat
    var left: bool

    ghost predicate Valid()
      reads this
    {
      i < |signs| || i == 0
    }

    constructor (levelSigns: seq<QSign>)
      ensures Valid() && signs == levelSigns && i == 0 && !left
    {
      signs, i, left := levelSigns, 0, false;
    }

    /** `next`: the following sign, or back to the level page after the last. */
    method Next()
      requires Valid()
      modifies this`i, this`left
      ensures Valid()
      ensures old(i) + 1 < |signs| ==> i == old(i) + 1 && left == old(left)
      ensures old(i) + 1 >= |signs| ==> i == old(i) && left
    {
      if i + 1 < |signs| {
        i := i + 1;
      } else {
        left := true;
      }
    }
  }
}
