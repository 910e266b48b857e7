/** The sign dictionary (app/components/src/Dictionary.jsx): the signs listed by the
    server, a search box filtering them by label, a preselected sign, and a player
    that shows the sign's video and then its pictograms one after another. */
module Dictionary {
  import opened Wrappers
  import opened Strings
  import opened Sorting

  /** A sign object as far as the page reads it; `title` is its `label`. */
  datatype DSign = DSign(title: Option<string>, pictograms: Option<seq<string>>)

  /** `s.label || ""`. */
  function LabelText(s: DSign): string { s.title.GetOr("") }

  /** `query.trim().toLowerCase()`. */
  function Needle(query: string): (q: string)
    ensures Blank(query) ==> q == ""
  {
    Lower(Trim(query))
  }

  predicate Matches(s: DSign, q: string) {
    Contains(Lower(LabelText(s)), q)
  }

  /** The `filter` step: the signs present (not `null`) whose lower-cased label
      contains `q`, in their order. */
  function Kept(signs: seq<Option<DSign>>, q: string): (r: seq<DSign>)
    ensures |r| <= |signs|
    ensures forall x :: x in r <==> Some(x) in signs && Matches(x, q)
  {
    if signs == [] then []
    else
      var init := signs[..|signs| - 1];
      var last := signs[|signs| - 1];
      assert signs == init + [last];
      Kept(init, q) + (if last.Some? && Matches(last.value, q) then [last.value] else [])
  }

  /** Each matching sign is kept as often as the server listed it, any other never. */
  lemma {:induction false} KeptCount(signs: seq<Option<DSign>>, q: string, x: DSign)
    ensures multiset(Kept(signs, q))[x] == if Matches(x, q) then multiset(signs)[Some(x)] else 0
  {
    if signs != [] {
      var init := signs[..|signs| - 1];
      var last := signs[|signs| - 1];
      assert signs == init + [last];
      KeptCount(init, q, x);
      assert multiset(signs) == multiset(init) + multiset{last};
    }
  }

  /** Signs compared by their labels under the collation `le` (`localeCompare`,
      which this model leaves abstract). */
  predicate LabelLe(le: (string, string) -> bool, a: DSign, b: DSign) {
    le(LabelText(a), LabelText(b))
  }

  function SignOrder(le: (string, string) -> bool): (DSign, DSign) -> bool {
    (a: DSign, b: DSign) => LabelLe(le, a, b)
  }

  lemma SignOrderTotal(le: (string, string) -> bool)
    requires Total(le)
    ensures Total(SignOrder(le))
  {
    forall a: DSign, b: DSign ensures SignOrder(le)(a, b) || SignOrder(le)(b, a) {
      assert le(LabelText(a), LabelText(b)) || le(LabelText(b), LabelText(a));
    }
  }

  /** `filtered`: the kept signs sorted by label. */
  function Filtered(signs: seq<Option<DSign>>, query: string, le: (string, string) -> bool): (r: seq<DSign>)
    ensures multiset(r) == multiset(Kept(signs, Needle(query)))
  {
    Sort(SignOrder(le), Kept(signs, Needle(query)))
  }

  /** The list shown holds exactly the present signs whose lower-cased label
      contains the trimmed, lower-cased query, each as often as the server listed
      it, in label order whenever the collation is total. */
  lemma FilteredSpec(signs: seq<Option<DSign>>, query: string, le: (string, string) -> bool)
    ensures forall x :: x in Filtered(signs, query, le) <==> Some(x) in signs && Matches(x, Needle(query))
    ensures |Filtered(signs, query, le)| <= |signs|
    ensures forall x :: multiset(Filtered(signs, query, le))[x] ==
                        (if Matches(x, Needle(query)) then multiset(signs)[Some(x)] else 0)
    ensures Total(le) ==> forall i :: 0 < i < |Filtered(signs, query, le)| ==>
      le(LabelText(Filtered(signs, query, le)[i - 1]), LabelText(Filtered(signs, query, le)[i]))
  {
    var kept := Kept(signs, Needle(query));
    forall x ensures x in Filtered(signs, query, le) <==> x in kept {
      SortedMembers(SignOrder(le), kept, x);
    }
    forall x ensures multiset(Filtered(signs, query, le))[x] ==
                     (if Matches(x, Needle(query)) then multiset(signs)[Some(x)] else 0)
    {
      KeptCount(signs, Needle(query), x);
    }
    if Total(le) {
      SignOrderTotal(le);
      SortSorted(SignOrder(le), kept);
    }
  }

  /** An empty or blank query keeps every present sign. */
  lemma BlankQueryKeepsAll(signs: seq<Option<DSign>>, query: string, le: (string, string) -> bool)
    requires Blank(query)
    ensures forall x :: x in Filtered(signs, query, le) <==> Some(x) in signs
  {
    FilteredSpec(signs, query, le);
    forall x: DSign ensures Matches(x, Needle(query)) {
      assert OccursAt(Lower(LabelText(x)), "", 0);
    }
  }

  /** `s.label?.toLowerCase() === "hej"`. */
  predicate IsHej(s: DSign) {
    s.title.Some? && Lower(s.title.value) == "hej"
  }

  /** What `all.find(…)` does: the first sign greeting "hej", none, or a raise when
      a `null` element comes first (reading `label` of `null` throws). */
  datatype Found = FoundSign(sign: DSign) | NotFound | Raised

  function Find(all: seq<Option<DSign>>): (r: Found)
    ensures r.NotFound? && all != [] ==> all[0].Some?
  {
    if all == [] then NotFound
    else if all[0].None? then Raised
    else if IsHej(all[0].value) then FoundSign(all[0].value)
    else Find(all[1..])
  }

  /** Every element before position `i` is a sign and none of them says "hej". */
  predicate PassedBefore(all: seq<Option<DSign>>, i: int) {
    forall j :: 0 <= j < i && j < |all| ==> all[j].Some? && !IsHej(all[j].value)
  }

  /** `find` stops at the first element that says "hej" or is `null`. */
  lemma {:induction false} FindSpec(all: seq<Option<DSign>>)
    ensures Find(all).FoundSign? ==>
      exists i :: 0 <= i < |all| && all[i] == Some(Find(all).sign) && IsHej(Find(all).sign) && PassedBefore(all, i)
    ensures Find(all).Raised? ==> exists i :: 0 <= i < |all| && all[i].None? && PassedBefore(all, i)
    ensures Find(all).NotFound? ==> PassedBefore(all, |all|)
  {
    if all != [] && all[0].Some? && !IsHej(all[0].value) {
      var tail := all[1..];
      FindSpec(tail);
      assert forall j :: 0 <= j < |tail| ==> tail[j] == all[j + 1];
      if Find(tail).FoundSign? {
        var i :| 0 <= i < |tail| && tail[i] == Some(Find(tail).sign) && IsHej(Find(tail).sign) && PassedBefore(tail, i);
        assert all[i + 1] == tail[i];
        assert PassedBefore(all, i + 1);
      } else if Find(tail).Raised? {
        var i :| 0 <= i < |tail| && tail[i].None? && PassedBefore(tail, i);
        assert all[i + 1] == tail[i];
        assert PassedBefore(all, i + 1);
      } else {
        assert PassedBefore(all, |all|);
      }
    } else if all != [] && all[0].Some? {
      assert all[0] == Some(Find(all).sign) && PassedBefore(all, 0);
    } else if all != [] {
      assert PassedBefore(all, 0);
    }
  }

  /** The preselected sign: the first saying "hej", else the first sign, else none;
      or the raise of `find`. */
  datatype Pick = Chosen(sign: DSign) | NoChoice | PickRaised

  function Preselect(all: seq<Option<DSign>>): (r: Pick)
    ensures Find(all).Raised? <==> r.PickRaised?
    ensures Find(all).FoundSign? ==> r == Chosen(Find(all).sign)
    ensures Find(all).NotFound? && all == [] ==> r == NoChoice
    ensures Find(all).NotFound? && all != [] ==> r == Chosen(all[0].value)
  {
    match Find(all)
    case Raised => PickRaised
    case FoundSign(s) => Chosen(s)
    case NotFound => if all != [] then Chosen(all[0].value) else NoChoice
  }

  /** On a list without `null`s the rule never raises, and it picks a sign exactly
      when there is one: a "hej" sign when there is one, the first sign otherwise. */
  lemma PreselectSpec(all: seq<Option<DSign>>)
    requires forall i :: 0 <= i < |all| ==> all[i].Some?
    ensures !Preselect(all).PickRaised?
    ensures Preselect(all) == NoChoice <==> all == []
    ensures (exists i :: 0 <= i < |all| && IsHej(all[i].value)) ==>
      Preselect(all).Chosen? && IsHej(Preselect(all).sign) && Some(Preselect(all).sign) in all
    ensures (forall i :: 0 <= i < |all| ==> !IsHej(all[i].value)) && all != [] ==>
      Preselect(all) == Chosen(all[0].value)
  {
    FindSpec(all);
    if Find(all).NotFound? {
      assert PassedBefore(all, |all|);
    } else if Find(all).FoundSign? {
      var i :| 0 <= i < |all| && all[i] == Some(Find(all).sign) && IsHej(Find(all).sign) && PassedBefore(all, i);
      assert all[i] in all;
    }
  }

  /** The `signs` field of the `/api/signs` reply. */
  datatype SignsField = Absent | AList(items: seq<Option<DSign>>) | NotAList

  /** The reply of `/api/signs`: the decoded body, or the fetch or the decoding failed. */
  datatype Reply = Delivered(field: SignsField) | NoReply

  class DictionaryPage {
    var signs: seq<Option<DSign>>
    var query: string
    var selected: Option<DSign>
    var picIndex: int
    var showVideo: bool
    var fadingOut: bool
    var isPlaying: bool
    /** The sorted pictograms of the sequence being played. */
    var pics: seq<string>
    /** The video's end handler is set and has not run yet. */
    var awaitingEnd: bool
    var isSearchOpen: bool

    /** The end handler waits only while a sequence is playing with its video shown. */
    ghost predicate Valid()
      reads this
    {
      awaitingEnd ==> isPlaying && showVideo
    }

    constructor ()
      ensures Valid()
      ensures signs == [] && query == "" && selected == None && picIndex == 0
      ensures !showVideo && !fadingOut && !isPlaying && pics == [] && !awaitingEnd && !isSearchOpen
    {
      signs, query, selected, picIndex := [], "", None, 0;
      showVideo, fadingOut, isPlaying, pics, awaitingEnd := false, false, false, [], false;
      isSearchOpen := false;
    }

    /** The load effect. `data.signs || []` is the list; a failure anywhere, from the
        fetch to the `find` of the preselection, leaves the list empty and nothing
        newly selected. */
    method Load(reply: Reply)
      requires Valid()
      modifies this`signs, this`selected
      ensures Valid()
      ensures reply.NoReply? || reply.field.NotAList? ==> signs == [] && selected == old(selected)
      ensures reply == Delivered(Absent) ==> signs == [] && selected == old(selected)
      ensures reply.Delivered? && reply.field.AList? ==>
        var all := reply.field.items;
        match Preselect(all)
        case PickRaised => signs == [] && selected == old(selected)
        case NoChoice => signs == all && selected == old(selected)
        case Chosen(s) => signs == all && selected == Some(s)
    {
      if reply.NoReply? || reply.field.NotAList? {
        signs := [];
        return;
      }
      var all := if reply.field.AList? then reply.field.items else [];
      signs := all;
      var pick := Preselect(all);
      match pick
      case PickRaised =>
        signs := [];
      case NoChoice =>
      case Chosen(s) =>
        selected := Some(s);
    }

    method SetQuery(q: string)
      modifies this`query
      ensures query == q
    {
      query := q;
    }

    /** The list of signs shown for the current query. */
    function Shown(le: (string, string) -> bool): seq<DSign>
      reads this
    {
      Filtered(signs, query, le)
    }

    /** Clicking a sign of the list stops what is playing and selects the sign. */
    method Select(s: DSign)
      requires Valid()
      modifies this`selected, this`isPlaying, this`showVideo, this`fadingOut, this`picIndex, this`awaitingEnd
      ensures Valid()
      ensures selected == Some(s) && picIndex == 0
      ensures !isPlaying && !showVideo && !fadingOut && !awaitingEnd
    {
      isPlaying, showVideo, fadingOut, picIndex := false, false, false, 0;
      awaitingEnd := false;
      selected := Some(s);
    }

    /** The "Sök" button opens the search overlay and "Avbryt" closes it. */
    method SetSearchOpen(open: bool)
      modifies this`isSearchOpen
      ensures isSearchOpen == open
    {
      isSearchOpen := open;
    }

    /** Clicking a sign in the search overlay selects it, closes the overlay, hides
        the video and rewinds the pictograms, but leaves `isPlaying` and `fadingOut`
        as they were. Hiding the video unmounts the element whose end handler was
        pending, so a click while the video plays leaves the page playing with no
        handler left to stop it. */
    method SelectFromSearch(s: DSign)
      requires Valid()
      modifies this`selected, this`isSearchOpen, this`showVideo, this`picIndex, this`awaitingEnd
      ensures Valid()
      ensures selected == Some(s) && !isSearchOpen && !showVideo && picIndex == 0 && !awaitingEnd
      ensures isPlaying == old(isPlaying) && fadingOut == old(fadingOut)
      ensures old(awaitingEnd) ==> isPlaying
    {
      selected := Some(s);
      isSearchOpen := false;
      showVideo := false;
      picIndex := 0;
      awaitingEnd := false;
    }

    /** `playSequence` up to and including its check for the video element: nothing
        happens without a selected sign or while a sequence plays; otherwise the
        sorted pictograms are kept, the video shown, and the end handler set when the
        video element exists. */
    method PlaySequence(videoPresent: bool)
      requires Valid()
      modifies this`isPlaying, this`pics, this`showVideo, this`picIndex, this`awaitingEnd
      ensures Valid()
      ensures old(selected).None? || old(isPlaying) ==>
        isPlaying == old(isPlaying) && pics == old(pics) && showVideo == old(showVideo)
        && picIndex == old(picIndex) && awaitingEnd == old(awaitingEnd)
      ensures old(selected).Some? && !old(isPlaying) ==>
        && pics == Sort(StrLe, selected.value.pictograms.GetOr([]))
        && showVideo && picIndex == 0
        && isPlaying == videoPresent && awaitingEnd == videoPresent
    {
      if selected.None? || isPlaying {
        return;
      }
      isPlaying := true;
      pics := Sort(StrLe, selected.value.pictograms.GetOr([]));
      showVideo := true;
      picIndex := 0;
      if videoPresent {
        awaitingEnd := true;
      } else {
        isPlaying := false;
      }
    }

    /** The video's end handler: the video fades out, then each pictogram is shown in
        turn, the last one stays, and the player is free again. */
    method OnEnded()
      requires Valid() && awaitingEnd
      modifies this`fadingOut, this`showVideo, this`picIndex, this`isPlaying, this`awaitingEnd
      ensures Valid()
      ensures !showVideo && !fadingOut && !isPlaying && !awaitingEnd
      ensures pics == [] ==> picIndex == old(picIndex)
      ensures pics != [] ==> picIndex == |pics| - 1
    {
      fadingOut := true;
      showVideo := false;
      fadingOut := false;
      awaitingEnd := false;
      if |pics| == 0 {
        isPlaying := false;
        return;
      }
      var i := 0;
      while i < |pics|
        invariant 0 <= i <= |pics|
        invariant i > 0 ==> picIndex == i - 1
        invariant !showVideo && !fadingOut && !awaitingEnd
      {
        picIndex := i;
        i := i + 1;
      }
      picIndex := |pics| - 1;
      isPlaying := false;
    }
  }

  /** The pictograms played are those of the selected sign, in code-point order. */
  lemma PlayedPictograms(pictograms: seq<string>)
    ensures multiset(Sort(StrLe, pictograms)) == multiset(pictograms)
    ensures Sorted(StrLe, Sort(StrLe, pictograms))
  {
    StrLeTotal();
    SortSorted(StrLe, pictograms);
  }
}
