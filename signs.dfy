/** The sign records both quizzes receive from `/api/levels/<n>`, the lookup of a
    sign by id (`signsMap`) and the question asked at a position of the order (`q`). */
module Signs {
  import opened Wrappers
  import opened Shuffling

  datatype QSign = QSign(id: string, title: Option<string>, video: Option<string>)

  function SignId(s: QSign): string { s.id }

  /** `s.label || s.id`. */
  function Shown(s: QSign): string {
    if s.title.Some? && s.title.value != "" then s.title.value else s.id
  }

  /** `signsMap`: id to sign; a later sign with the same id replaces an earlier one. */
  function SignsMap(signs: seq<QSign>): (m: map<string, QSign>)
    ensures forall i :: 0 <= i < |signs| ==> signs[i].id in m
    ensures forall k :: k in m ==> m[k].id == k && m[k] in signs
  {
    if signs == [] then map[]
    else
      var init := signs[..|signs| - 1];
      var last := signs[|signs| - 1];
      assert forall i :: 0 <= i < |init| ==> init[i] == signs[i];
      SignsMap(init)[last.id := last]
  }

  /** The sign kept for an id is its last occurrence. */
  lemma {:induction false} SignsMapLast(signs: seq<QSign>, i: nat)
    requires i < |signs|
    requires forall j :: i < j < |signs| ==> signs[j].id != signs[i].id
    ensures SignsMap(signs)[signs[i].id] == signs[i]
  {
    var init := signs[..|signs| - 1];
    if i < |signs| - 1 {
      assert init[i] == signs[i];
      SignsMapLast(init, i);
    }
  }

  /** `q`: the sign asked at position `idx` of `order`, or none when the index is
      past the order, the id there is empty or it names none of `signs` (which are
      empty before the level has loaded). */
  function Question(signs: seq<QSign>, order: seq<string>, idx: nat): (q: Option<QSign>)
    ensures q.Some? <==> idx < |order| && order[idx] != "" && order[idx] in SignsMap(signs)
    ensures q.Some? ==> q.value.id == order[idx] && q.value in signs
  {
    if idx < |order| && order[idx] != "" && order[idx] in SignsMap(signs)
    then Some(SignsMap(signs)[order[idx]])
    else None
  }

  /** An id of `order` names a sign of `signs` exactly when it is one of their ids. */
  lemma QuestionExists(signs: seq<QSign>, order: seq<string>, idx: nat)
    requires idx < |order| && order[idx] != ""
    ensures Question(signs, order, idx).Some? <==> order[idx] in Map(SignId, signs)
  {
    if order[idx] in Map(SignId, signs) {
      var k :| 0 <= k < |signs| && Map(SignId, signs)[k] == order[idx];
      assert signs[k].id in SignsMap(signs);
    }
    if Question(signs, order, idx).Some? {
      var q := Question(signs, order, idx).value;
      var k :| 0 <= k < |signs| && signs[k] == q;
      assert Map(SignId, signs)[k] == order[idx];
    }
  }

  /** `cumulative.filter((s) => s.id !== id)`: the cumulative signs other than the
      one asked, each as often as listed. */
  function Others(cumulative: seq<QSign>, id: string): (r: seq<QSign>)
    ensures forall s :: s in r <==> s in cumulative && s.id != id
    ensures forall s :: multiset(r)[s] == if s.id != id then multiset(cumulative)[s] else 0
  {
    if cumulative == [] then []
    else
      assert cumulative == [cumulative[0]] + cumulative[1..];
      (if cumulative[0].id != id then [cumulative[0]] else []) + Others(cumulative[1..], id)
  }

  /** The filter keeps order: the other signs of two lists one after the other are
      those of the first followed by those of the second. */
  lemma {:induction false} OthersAppend(a: seq<QSign>, b: seq<QSign>, id: string)
    ensures Others(a + b, id) == Others(a, id) + Others(b, id)
  {
    if a == [] {
      assert a + b == b;
    } else {
      var head := if a[0].id != id then [a[0]] else [];
      assert (a + b)[0] == a[0];
      assert (a + b)[1..] == a[1..] + b;
      calc {
        Others(a + b, id);
        head + Others(a[1..] + b, id);
        { OthersAppend(a[1..], b, id); }
        head + (Others(a[1..], id) + Others(b, id));
        (head + Others(a[1..], id)) + Others(b, id);
        Others(a, id) + Others(b, id);
      }
    }
  }

  lemma DistinctTail<T>(s: seq<T>)
    requires Distinct(s) && s != []
    ensures Distinct(s[1..])
  {
  }

}
