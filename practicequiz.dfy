/** The practice quiz of one level (app/components/src/practice/Quiz.jsx): the
    level's signs are asked in a random order; a wrong option is struck out and the
    question stays, a right one locks the buttons, and after a short confirmation
    the next question comes (or the results, after the last one). */
module PracticeQuiz {
  import opened Wrappers
  import opened Strings
  import opened Shuffling
  import opened Signs

  /** The `/api/levels/<n>/cumulative` reply: the level's own signs (the questions) and
      the signs of all levels up to it (the distractors). Absent lists are empty. */
  datatype Level = Level(signs: seq<QSign>, cumulative: seq<QSign>)

  /** `level?.signs || []`. */
  function LevelSigns(level: Option<Level>): seq<QSign> {
    if level.Some? then level.value.signs else []
  }

  /** An answer button: the sign id and the text shown. */
  datatype Choice = Choice(id: string, text: string)

  datatype QPhase = Playing | Finished

  /** What a right answer leaves scheduled: the move to the next question after the
      confirmation delay, or the results once the chime has ended. */
  datatype Pending = Idle | NextLater | FinishLater

  function ChoiceId(o: Choice): string { o.id }

  function ToChoice(s: QSign): (o: Choice)
    ensures o.id == s.id
  {
    Choice(s.id, Shown(s))
  }

  /** Removing the signs with one id keeps the remaining ids free of repetitions. */
  lemma {:induction false} OthersIds(cumulative: seq<QSign>, id: string)
    requires Distinct(Map(SignId, cumulative))
    ensures Distinct(Map(SignId, Others(cumulative, id)))
    ensures id !in Map(SignId, Others(cumulative, id))
  {
    if cumulative != [] {
      var c := cumulative[0];
      var tail := cumulative[1..];
      assert Map(SignId, cumulative) == [c.id] + Map(SignId, tail);
      DistinctTail(Map(SignId, cumulative));
      OthersIds(tail, id);
      var rest := Others(tail, id);
      if c.id != id {
        assert Others(cumulative, id) == [c] + rest;
        MapCons(SignId, c, rest);
        DistinctCons(c.id, Map(SignId, rest));
      } else {
        assert Others(cumulative, id) == rest;
      }
    }
  }

  /** `options`: the asked sign and up to three other cumulative signs, each shown by
      its text or id, in a random order; none before the level and the question exist. */
  function Options(level: Option<Level>, q: Option<QSign>, picks1: seq<nat>, picks2: seq<nat>): (r: seq<Choice>)
    ensures level.None? || q.None? ==> r == []
    ensures level.Some? && q.Some? ==>
      var pool := Others(level.value.cumulative, q.value.id);
      && |r| == 1 + (if |pool| < 3 then |pool| else 3) && |r| <= 4
      && ToChoice(q.value) in r
      && multiset(r)[ToChoice(q.value)] == 1
      && (forall o :: o in r && o.id == q.value.id ==> o == ToChoice(q.value))
      && (forall o :: o in r && o != ToChoice(q.value) ==> o in Map(ToChoice, pool))
      && multiset(r) - multiset{ToChoice(q.value)} <= multiset(Map(ToChoice, pool))
      && (Distinct(Map(SignId, level.value.cumulative)) ==> Distinct(Map(ChoiceId, r)))
  {
    if level.None? || q.None? then []
    else
      var pool := Others(level.value.cumulative, q.value.id);
      var others := Map(ToChoice, Take(Shuffle(pool, picks1), 3));
      var correct := ToChoice(q.value);
      var r := Shuffle([correct] + others, picks2);
      OptionsAreADeal(correct, pool, picks1, picks2);
      DealShape(correct, Map(ToChoice, pool), picks1, picks2);
      OptionsOnce(level.value.cumulative, q.value, picks1, picks2);
      OptionsIds(level.value.cumulative, q.value, picks1, picks2);
      r
  }

  /** The options are a deal of the asked sign's button from the other buttons. */
  lemma OptionsAreADeal(correct: Choice, pool: seq<QSign>, picks1: seq<nat>, picks2: seq<nat>)
    ensures Shuffle([correct] + Map(ToChoice, Take(Shuffle(pool, picks1), 3)), picks2)
      == Deal(correct, Map(ToChoice, pool), picks1, picks2)
  {
    MapTake(ToChoice, Shuffle(pool, picks1), 3);
    ShuffleMap(ToChoice, pool, picks1);
  }

  /** No other button carries the asked id. */
  lemma OtherButton(cumulative: seq<QSign>, id: string, o: Choice)
    requires o in Map(ToChoice, Others(cumulative, id))
    ensures o.id != id
  {
    var pool := Others(cumulative, id);
    var k :| 0 <= k < |pool| && Map(ToChoice, pool)[k] == o;
    assert pool[k] in pool;
  }

  lemma OptionsOnce(cumulative: seq<QSign>, q: QSign, picks1: seq<nat>, picks2: seq<nat>)
    ensures var r := Deal(ToChoice(q), Map(ToChoice, Others(cumulative, q.id)), picks1, picks2);
      && multiset(r)[ToChoice(q)] == 1
      && (forall o :: o in r && o.id == q.id ==> o == ToChoice(q))
  {
    var buttons := Map(ToChoice, Others(cumulative, q.id));
    var correct := ToChoice(q);
    DealShape(correct, buttons, picks1, picks2);
    if correct in buttons {
      OtherButton(cumulative, q.id, correct);
    }
    DealOnce(correct, buttons, picks1, picks2);
    var r := Deal(correct, buttons, picks1, picks2);
    forall o | o in r && o.id == q.id ensures o == correct {
      if o != correct {
        OtherButton(cumulative, q.id, o);
      }
    }
  }

  lemma OptionsIds(cumulative: seq<QSign>, q: QSign, picks1: seq<nat>, picks2: seq<nat>)
    ensures Distinct(Map(SignId, cumulative)) ==>
      Distinct(Map(ChoiceId, Deal(ToChoice(q), Map(ToChoice, Others(cumulative, q.id)), picks1, picks2)))
  {
    if Distinct(Map(SignId, cumulative)) {
      var pool := Others(cumulative, q.id);
      var buttons := Map(ToChoice, pool);
      OthersIds(cumulative, q.id);
      DealMap(ChoiceId, ToChoice(q), buttons, picks1, picks2);
      assert Map(ChoiceId, buttons) == Map(SignId, pool);
      DealDistinct(q.id, Map(SignId, pool), picks1, picks2);
    }
  }

  class Quiz {
    var level: Option<Level>
    var order: seq<string>
    var idx: nat
    var eliminated: set<string>
    var confirming: Option<string>
    var phase: QPhase
    var pending: Pending

    function Q(): Option<QSign>
      reads this
    {
      Question(LevelSigns(level), order, idx)
    }

    /** `idx` stays inside the order; the struck-out options never include the right
        one; a confirmed option is the asked sign, and something is scheduled exactly
        while an answer is being confirmed, matching whether this is the last question. */
    ghost predicate Valid()
      reads this
    {
      && (idx < |order| || (order == [] && idx == 0))
      && (Question(LevelSigns(level), order, idx).Some? ==> Question(LevelSigns(level), order, idx).value.id !in eliminated)
      && (confirming.Some? ==> Question(LevelSigns(level), order, idx).Some? && confirming.value == Question(LevelSigns(level), order, idx).value.id)
      && (pending != Idle ==> confirming.Some?)
      && (pending == NextLater ==> idx + 1 < |order|)
      && (pending == FinishLater ==> idx + 1 >= |order|)
    }

    constructor ()
      ensures Valid()
      ensures level == None && order == [] && idx == 0 && eliminated == {}
      ensures confirming == None && phase == Playing && pending == Idle
    {
      level, order, idx, eliminated := None, [], 0, {};
      confirming, phase, pending := None, Playing, Idle;
    }

    /** The level arrives: the question order is a shuffle of the level's sign ids.
        The effect on `qid` (the reset on a new question) then clears the struck-out
        set and the confirmation. */
    method Load(l: Level, picks: seq<nat>)
      requires Valid() && level == None && order == [] && idx == 0
      modifies this`level, this`order, this`eliminated, this`confirming
      ensures Valid()
      ensures level == Some(l) && order == Shuffle(Map(SignId, l.signs), picks)
      ensures multiset(order) == multiset(Map(SignId, l.signs))
      ensures eliminated == {} && confirming == None
    {
      level := Some(l);
      order := Shuffle(Map(SignId, l.signs), picks);
      eliminated, confirming := {}, None;
      assert idx < |order| || order == [];
      ShufflePermutes(Map(SignId, l.signs), picks);
    }

    /** `isLocked`, and the `disabled` rule of an option button. */
    predicate Locked()
      reads this
    {
      confirming.Some?
    }

    predicate Disabled(optId: string)
      reads this
    {
      var isConfirm := confirming == Some(optId);
      (optId in eliminated || Locked()) || isConfirm
    }

    /** `onAnswer`: ignored without a question or while confirming; the right id
        locks the quiz and schedules what comes next, any other id is struck out. */
    method OnAnswer(optId: string)
      requires Valid()
      modifies this`eliminated, this`confirming, this`pending
      ensures Valid()
      ensures Q().None? || old(confirming).Some? ==>
        eliminated == old(eliminated) && confirming == old(confirming) && pending == old(pending)
      ensures Q().Some? && old(confirming).None? && optId == Q().value.id ==>
        && confirming == Some(optId) && eliminated == old(eliminated)
        && pending == (if idx + 1 >= |order| then FinishLater else NextLater)
      ensures Q().Some? && old(confirming).None? && optId != Q().value.id ==>
        eliminated == old(eliminated) + {optId} && confirming == None && pending == old(pending)
    {
      var q := Q();
      if q.None? || confirming.Some? {
        return;
      }
      if optId == q.value.id {
        confirming := Some(optId);
        pending := if idx + 1 >= |order| then FinishLater else NextLater;
        return;
      }
      eliminated := eliminated + {optId};
    }

    /** `nextQuestion`: clear the struck-out set and the confirmation, then move on,
        or finish when there is no next question. */
    method NextQuestion()
      requires Valid()
      modifies this`eliminated, this`confirming, this`idx, this`phase, this`pending
      ensures Valid()
      ensures eliminated == {} && confirming == None && pending == Idle
      ensures old(idx) + 1 < |order| ==> idx == old(idx) + 1 && phase == old(phase)
      ensures old(idx) + 1 >= |order| ==> idx == old(idx) && phase == Finished
    {
      eliminated, confirming, pending := {}, None, Idle;
      if idx + 1 < |order| {
        idx := idx + 1;
      } else {
        phase := Finished;
      }
    }

    /** The scheduled continuation of a right answer runs. */
    method Fire()
      requires Valid() && pending != Idle
      modifies this`eliminated, this`confirming, this`idx, this`phase, this`pending
      ensures Valid()
      ensures old(pending) == NextLater ==> idx == old(idx) + 1 && eliminated == {} && confirming == None
      ensures old(pending) == FinishLater ==> phase == Finished && idx == old(idx)
    {
      if pending == NextLater {
        NextQuestion();
      } else {
        phase, pending := Finished, Idle;
      }
    }
  }

  /** An option is disabled exactly when it is struck out or the quiz is locked. */
  lemma DisabledRule(g: Quiz, optId: string)
    ensures g.Disabled(optId) <==> optId in g.eliminated || g.confirming.Some?
  {
  }

  /** The option being confirmed is always disabled, and in a valid state it is the
      right one, which is never struck out. */
  lemma ConfirmedDisabled(g: Quiz)
    requires g.Valid() && g.confirming.Some?
    ensures g.Disabled(g.confirming.value)
    ensures g.confirming.value !in g.eliminated
  {
  }
}
