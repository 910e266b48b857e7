/** `requeueAhead` (app/components/src/lib/queue.js): put an id back into a question
    queue `k` places after the current index, on a copy of the queue. */
module Queue {

  /** Where `splice(start, …)` inserts in an array of length `len`: a negative start
      counts from the end, and a start past the end means the end. */
  function SpliceStart(len: nat, start: int): (p: nat)
    ensures p <= len
    ensures 0 <= start <= len ==> p == start
    ensures start > len ==> p == len
    ensures start < 0 ==> p == (if len + start > 0 then len + start else 0)
  {
    if start < 0 then (if len + start > 0 then len + start else 0)
    else if start < len then start
    else len
  }

  /** `Math.min(q.length, fromIndex + k + 1)`, as `splice` then reads it. */
  function InsertAt(len: nat, fromIndex: int, k: int): (p: nat)
    ensures p <= len
    ensures fromIndex + k + 1 >= 0 ==> p == (if fromIndex + k + 1 < len then fromIndex + k + 1 else len)
    ensures fromIndex + k + 1 < 0 ==> p == (if len + fromIndex + k + 1 > 0 then len + fromIndex + k + 1 else 0)
  {
    SpliceStart(len, if len < fromIndex + k + 1 then len else fromIndex + k + 1)
  }

  /** `s` with `x` inserted at position `p`. */
  function Inserted<T>(s: seq<T>, p: nat, x: T): (r: seq<T>)
    requires p <= |s|
    ensures |r| == |s| + 1 && r[p] == x
    ensures multiset(r) == multiset(s) + multiset{x}
  {
    assert s == s[..p] + s[p..];
    s[..p] + [x] + s[p..]
  }

  /** The inserted element sits at `p`, what came before stays, what came after
      moves one place on. */
  lemma InsertedShape<T>(s: seq<T>, p: nat, x: T)
    requires p <= |s|
    ensures |Inserted(s, p, x)| == |s| + 1 && Inserted(s, p, x)[p] == x
    ensures forall i :: 0 <= i < p ==> Inserted(s, p, x)[i] == s[i]
    ensures forall i :: p <= i < |s| ==> Inserted(s, p, x)[i + 1] == s[i]
    ensures multiset(Inserted(s, p, x)) == multiset(s) + multiset{x}
  {
    assert s == s[..p] + s[p..];
  }

  /** Counted from at or after the end, the id goes at the end. */
  lemma AppendsPastEnd<T>(s: seq<T>, fromIndex: int, k: int, x: T)
    requires fromIndex + k + 1 >= |s|
    ensures Inserted(s, InsertAt(|s|, fromIndex, k), x) == s + [x]
  {
  }

  /** `requeueAhead`: with `k <= 0` the very same queue comes back; otherwise a new
      array, the copy with `id` spliced in. The input is never changed. */
  method RequeueAhead(queue: array<string>, fromIndex: int, id: string, k: int) returns (q: array<string>)
    ensures k <= 0 ==> q == queue
    ensures k > 0 ==> fresh(q) && q[..] == Inserted(queue[..], InsertAt(queue.Length, fromIndex, k), id)
  {
    if k <= 0 {
      return queue;
    }
    var n := queue.Length;
    var p := InsertAt(n, fromIndex, k);
    q := new string[n + 1];
    var i := 0;
    while i < p
      invariant 0 <= i <= p
      invariant forall j :: 0 <= j < i ==> q[j] == queue[j]
    {
      q[i] := queue[i];
      i := i + 1;
    }
    q[p] := id;
    while i < n
      invariant p <= i <= n
      invariant forall j :: 0 <= j < p ==> q[j] == queue[j]
      invariant q[p] == id
      invariant forall j :: p <= j < i ==> q[j + 1] == queue[j]
    {
      q[i + 1] := queue[i];
      i := i + 1;
    }
    InsertedShape(queue[..], p, id);
    assert forall j :: 0 <= j < n + 1 ==> q[j] == Inserted(queue[..], p, id)[j] by {
      forall j | 0 <= j < n + 1 ensures q[j] == Inserted(queue[..], p, id)[j] {
        if j > p {
          assert q[(j - 1) + 1] == queue[j - 1];
        }
      }
    }
  }
}
