/** The logging page a QR code opens (app/components/TrackingLog.jsx): it reads the
    tracking, the initials and the place from the link, loads the tracking's
    settings, lets the person tick the activities going on and pick a value, and
    posts one log entry at most once a minute. */
module TrackingLog {
  import opened Wrappers
  import opened Strings
  import opened Shuffling

  /** A query parameter or a settings value counts as given when it is a non-empty
      string (JavaScript's truthiness of a string or `null`). */
  predicate Given(o: Option<string>) {
    o.Some? && o.value != ""
  }

  /** `o || fallback`. */
  function Or(o: Option<string>, fallback: string): (r: string)
    ensures Given(o) ==> r == o.value
    ensures !Given(o) ==> r == fallback
  {
    if Given(o) then o.value else fallback
  }

  /** `activities.filter((a) => a && a.trim() !== '')`: the activities offered, in
      their order, without the missing and the blank ones. */
  function Available(acts: seq<Option<string>>): (r: seq<string>)
    ensures |r| <= |acts|
    ensures forall i :: 0 <= i < |r| ==> !Blank(r[i])
    ensures forall x :: x in r <==> Some(x) in acts && !Blank(x)
  {
    if acts == [] then []
    else
      var init := acts[..|acts| - 1];
      var last := acts[|acts| - 1];
      assert acts == init + [last];
      Available(init) + (if last.Some? && !Blank(last.value) then [last.value] else [])
  }

  /** The filter keeps order: the activities offered from two lists one after the
      other are those of the first followed by those of the second. */
  lemma {:induction false} AvailableAppend(a: seq<Option<string>>, b: seq<Option<string>>)
    ensures Available(a + b) == Available(a) + Available(b)
    decreases |b|
  {
    if b == [] {
      assert a + b == a;
    } else {
      var bi := b[..|b| - 1];
      AvailableAppend(a, bi);
      assert (a + b)[..|a + b| - 1] == a + bi;
      assert (a + b)[|a + b| - 1] == b[|b| - 1];
    }
  }

  /** A single activity is offered exactly when it is present and not blank. */
  lemma AvailableOne(o: Option<string>)
    ensures Available([o]) == if o.Some? && !Blank(o.value) then [o.value] else []
  {
    assert [o][..0] == [];
  }

  /** Each non-blank activity is offered as often as the settings list it, and a
      blank one never. */
  lemma {:induction false} AvailableCount(acts: seq<Option<string>>, x: string)
    ensures multiset(Available(acts))[x] == if Blank(x) then 0 else multiset(acts)[Some(x)]
  {
    if acts != [] {
      var init := acts[..|acts| - 1];
      var last := acts[|acts| - 1];
      assert acts == init + [last];
      AvailableCount(init, x);
      assert multiset(acts) == multiset(init) + multiset{last};
    }
  }

  /** `prev.filter((a) => a !== activity)`: every copy of `a` goes, every other
      activity stays as often as listed. */
  function Remove(s: seq<string>, a: string): (r: seq<string>)
    ensures |r| <= |s|
    ensures forall x :: x in r <==> x in s && x != a
    ensures forall x :: multiset(r)[x] == if x != a then multiset(s)[x] else 0
  {
    if s == [] then []
    else
      var init := s[..|s| - 1];
      assert s == init + [s[|s| - 1]];
      Remove(init, a) + (if s[|s| - 1] == a then [] else [s[|s| - 1]])
  }

  /** The filter keeps order: removing from two lists one after the other gives
      the first's survivors followed by the second's. */
  lemma {:induction false} RemoveAppend(s: seq<string>, t: seq<string>, a: string)
    ensures Remove(s + t, a) == Remove(s, a) + Remove(t, a)
    decreases |t|
  {
    if t == [] {
      assert s + t == s;
    } else {
      var ti := t[..|t| - 1];
      RemoveAppend(s, ti, a);
      assert (s + t)[..|s + t| - 1] == s + ti;
      assert (s + t)[|s + t| - 1] == t[|t| - 1];
    }
  }

  lemma {:induction false} RemoveAbsent(s: seq<string>, a: string)
    requires a !in s
    ensures Remove(s, a) == s
  {
    if s != [] {
      var init := s[..|s| - 1];
      assert s == init + [s[|s| - 1]];
      RemoveAbsent(init, a);
    }
  }

  lemma DistinctSnoc<T>(s: seq<T>, x: T)
    requires Distinct(s) && x !in s
    ensures Distinct(s + [x])
  {
  }

  lemma {:induction false} RemoveKeepsDistinct(s: seq<string>, a: string)
    requires Distinct(s)
    ensures Distinct(Remove(s, a))
  {
    if s != [] {
      var init := s[..|s| - 1];
      DistinctPrefix(s, |s| - 1);
      RemoveKeepsDistinct(init, a);
      if s[|s| - 1] != a {
        assert s[|s| - 1] !in init;
        DistinctSnoc(Remove(init, a), s[|s| - 1]);
      }
    }
  }

  /** `toggleActivity`: a ticked activity is unticked (every copy of it goes), an
      unticked one is added at the end; no other activity changes. */
  function Toggle(prev: seq<string>, a: string): (r: seq<string>)
    ensures a in r <==> a !in prev
    ensures forall x :: x != a ==> (x in r <==> x in prev)
    ensures a !in prev ==> r == prev + [a]
  {
    if a in prev then Remove(prev, a) else prev + [a]
  }

  /** Ticking twice gives back the same activities, and exactly the same list when
      the activity was not ticked before. */
  lemma ToggleTwice(prev: seq<string>, a: string)
    ensures forall x :: x in Toggle(Toggle(prev, a), a) <==> x in prev
    ensures a !in prev ==> Toggle(Toggle(prev, a), a) == prev
  {
    if a !in prev {
      RemoveAbsent(prev, a);
      assert (prev + [a])[..|prev|] == prev;
    }
  }

  /** The ticked activities never hold the same activity twice. */
  lemma ToggleKeepsDistinct(prev: seq<string>, a: string)
    requires Distinct(prev)
    ensures Distinct(Toggle(prev, a))
  {
    if a in prev {
      RemoveKeepsDistinct(prev, a);
    } else {
      DistinctSnoc(prev, a);
    }
  }

  const MinInterval := 60000

  /** A submission at `now` (milliseconds) comes too soon when the last successful
      one, if any (a time of 0 counts as none), was less than a minute earlier. */
  function TooSoon(lastSubmitted: Option<int>, now: int): (r: bool)
    ensures lastSubmitted.None? || lastSubmitted.value == 0 ==> !r
    ensures lastSubmitted.Some? && lastSubmitted.value != 0 ==> (r <==> now < lastSubmitted.value + MinInterval)
  {
    lastSubmitted.Some? && lastSubmitted.value != 0 && now - lastSubmitted.value < MinInterval
  }

  /** The value logged: the slider's in scale mode, one occurrence otherwise. */
  function LoggedValue(trackingMode: string, value: int): (v: int)
    ensures trackingMode == "scale" ==> v == value
    ensures trackingMode != "scale" ==> v == 1
  {
    if trackingMode == "scale" then value else 1
  }

  /** The server's answer to the post. */
  datatype Reply = Saved | Failed

  /** The time of the last successful submission after an attempt at `now` whose
      reply came at `doneAt`: only a saved log moves it. */
  function NextLast(lastSubmitted: Option<int>, now: int, reply: Reply, doneAt: int): (r: Option<int>)
    ensures TooSoon(lastSubmitted, now) || reply.Failed? ==> r == lastSubmitted
    ensures !TooSoon(lastSubmitted, now) && reply.Saved? ==> r == Some(doneAt)
  {
    if TooSoon(lastSubmitted, now) then lastSubmitted
    else if reply.Saved? then Some(doneAt) else lastSubmitted
  }

  /** After a saved log, every attempt in the following minute is turned away,
      whatever was saved before; a failed post blocks nothing new. */
  lemma SavedBlocksAMinute(lastSubmitted: Option<int>, now: int, doneAt: int, later: int)
    requires !TooSoon(lastSubmitted, now) && doneAt != 0 && later < doneAt + MinInterval
    ensures TooSoon(NextLast(lastSubmitted, now, Saved, doneAt), later)
    ensures NextLast(lastSubmitted, now, Failed, doneAt) == lastSubmitted
  {
  }

  /** The tracking's settings as `/get-admin-settings` returns them. */
  datatype Settings = Settings(
    focus: string, minLabel: Option<string>, maxLabel: Option<string>,
    activities: seq<Option<string>>, trackingMode: Option<string>)

  /** The posted log entry. */
  datatype LogData = LogData(
    trackingId: string, initials: string, location: string, focus: string,
    activities: seq<string>, timestamp: string, value: int)

  const WaitMessage := "Vänta minst en minut mellan loggningar."
  const SavedMessage := "Loggningen sparades."
  const NoServer := "Kunde inte kontakta servern"

  class LogPage {
    const trackingId: Option<string>
    const initials: Option<string>
    const location: Option<string>
    var lastSubmitted: Option<int>
    var focus: string
    var trackingMode: string
    var minLabel: string
    var maxLabel: string
    var value: int
    var activities: seq<string>
    var available: seq<string>
    var successMessage: string
    var errorMessage: string

    /** The ticked activities never repeat. */
    ghost predicate Valid()
      reads this
    {
      Distinct(activities)
    }

    /** The page opened with the link's three query parameters. */
    constructor (trackingId: Option<string>, initials: Option<string>, location: Option<string>)
      ensures Valid()
      ensures this.trackingId == trackingId && this.initials == initials && this.location == location
      ensures lastSubmitted == None && focus == "Mood" && trackingMode == "scale"
      ensures minLabel == "Not Anxious" && maxLabel == "Extremely Anxious" && value == 5
      ensures activities == [] && available == [] && successMessage == "" && errorMessage == ""
    {
      this.trackingId, this.initials, this.location := trackingId, initials, location;
      lastSubmitted, focus, trackingMode := None, "Mood", "scale";
      minLabel, maxLabel, value := "Not Anxious", "Extremely Anxious", 5;
      activities, available, successMessage, errorMessage := [], [], "", "";
    }

    /** The page shows the invalid-link notice instead of the form. */
    predicate InvalidLink()
      reads this
      ensures !InvalidLink() ==>
        && trackingId.Some? && trackingId.value != ""
        && initials.Some? && initials.value != ""
        && location.Some? && location.value != ""
    {
      !Given(trackingId) || !Given(initials) || !Given(location)
    }

    /** The settings arrive: missing labels and mode fall back to the defaults; only
        the non-blank activities are offered. */
    method LoadSettings(data: Settings)
      requires Valid()
      modifies this`focus, this`minLabel, this`maxLabel, this`available, this`trackingMode
      ensures Valid()
      ensures focus == data.focus && trackingMode == Or(data.trackingMode, "scale")
      ensures minLabel == Or(data.minLabel, "Not Anxious") && maxLabel == Or(data.maxLabel, "Extremely Anxious")
      ensures available == Available(data.activities)
    {
      focus := data.focus;
      minLabel := Or(data.minLabel, "Not Anxious");
      maxLabel := Or(data.maxLabel, "Extremely Anxious");
      available := Available(data.activities);
      trackingMode := Or(data.trackingMode, "scale");
    }

    /** `handleValueChange`, with the slider's text already read as a number. */
    method HandleValueChange(v: int)
      modifies this`value
      ensures value == v
    {
      value := v;
    }

    method ToggleActivity(a: string)
      requires Valid()
      modifies this`activities
      ensures Valid()
      ensures activities == Toggle(old(activities), a)
    {
      ToggleKeepsDistinct(activities, a);
      activities := Toggle(activities, a);
    }

    /** `handleSubmit` at clock reading `now`, with the ISO timestamp, the server's
        reply and the clock reading when it came. Only the form submits, so the
        link is valid. */
    method HandleSubmit(now: int, timestamp: string, reply: Reply, doneAt: int) returns (sent: Option<LogData>)
      requires Valid() && !InvalidLink()
      modifies this`successMessage, this`errorMessage, this`lastSubmitted
      ensures Valid()
      ensures lastSubmitted == NextLast(old(lastSubmitted), now, reply, doneAt)
      ensures TooSoon(old(lastSubmitted), now) ==>
        sent == None && errorMessage == WaitMessage && successMessage == ""
      ensures !TooSoon(old(lastSubmitted), now) ==>
        && sent == Some(LogData(trackingId.value, initials.value, location.value, focus,
                                activities, timestamp, LoggedValue(trackingMode, value)))
        && (reply.Saved? ==> successMessage == SavedMessage && errorMessage == "")
        && (reply.Failed? ==> successMessage == "" && errorMessage == NoServer)
      ensures sent.Some? ==> sent.value.trackingId != "" && sent.value.initials != "" && sent.value.location != ""
    {
      successMessage, errorMessage := "", "";
      if lastSubmitted.Some? && lastSubmitted.value != 0 && now - lastSubmitted.value < MinInterval {
        errorMessage := WaitMessage;
        return None;
      }
      var logged := if trackingMode == "scale" then value else 1;
      var log := LogData(trackingId.value, initials.value, location.value, focus, activities, timestamp, logged);
      sent := Some(log);
      if reply.Saved? {
        successMessage := SavedMessage;
        lastSubmitted := Some(doneAt);
      } else {
        errorMessage := NoServer;
      }
    }
  }
}
