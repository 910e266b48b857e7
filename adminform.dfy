/** The administrator's page (app/components/AdminPage.jsx): a form describing a
    tracking (what is measured, the scale's end labels, six activities, the
    initials, the place, the period and the administrator's e-mail), checked field by
    field on submit and posted as multipart form data. */
module AdminForm {
  import opened Wrappers
  import opened Strings

  /** `trackingMode`: a value on a scale from 1 to 10, or whether something happened. */
  datatype Mode = Scale | Event

  /** The text posted as `tracking_mode`. */
  function ModeName(m: Mode): string {
    match m
    case Scale => "scale"
    case Event => "event"
  }

  /** The mode switch: each click selects the other mode. */
  function Toggled(m: Mode): (t: Mode)
    ensures t != m
    ensures ModeName(t) != ModeName(m)
  {
    if m == Scale then Event else Scale
  }

  /** `formData`. */
  datatype Form = Form(
    focus: string, minLabel: string, maxLabel: string, activities: seq<string>,
    initials: string, location: string, duration: string, adminEmail: string)

  const ActivityCount := 6

  /** The blank form the page starts with and returns to after a success. */
  const InitialForm := Form("", "", "", ["", "", "", "", "", ""], "", "", "", "")

  /** The named inputs `handleChange` serves. */
  datatype Field = Focus | MinLabel | MaxLabel | Initials | Location | Duration | AdminEmail

  function Get(f: Form, name: Field): string {
    match name
    case Focus => f.focus
    case MinLabel => f.minLabel
    case MaxLabel => f.maxLabel
    case Initials => f.initials
    case Location => f.location
    case Duration => f.duration
    case AdminEmail => f.adminEmail
  }

  /** `{...prev, [name]: value}`: that one field takes the value, nothing else moves. */
  function Set(f: Form, name: Field, value: string): (r: Form)
    ensures Get(r, name) == value
    ensures forall other :: other != name ==> Get(r, other) == Get(f, other)
    ensures r.activities == f.activities
  {
    match name
    case Focus => f.(focus := value)
    case MinLabel => f.(minLabel := value)
    case MaxLabel => f.(maxLabel := value)
    case Initials => f.(initials := value)
    case Location => f.(location := value)
    case Duration => f.(duration := value)
    case AdminEmail => f.(adminEmail := value)
  }

  /** `handleChange`: the initials are stored upper-cased, any other field as typed. */
  function Changed(f: Form, name: Field, value: string): (r: Form)
    ensures name != Initials ==> Get(r, name) == value
    ensures name == Initials ==> r.initials == Upper(value)
    ensures name == Initials ==> |r.initials| == |value| && forall i :: 0 <= i < |value| ==> !IsLower(r.initials[i])
    ensures forall other :: other != name ==> Get(r, other) == Get(f, other)
    ensures r.activities == f.activities
  {
    if name == Initials then Set(f, Initials, Upper(value)) else Set(f, name, value)
  }

  /** `handleActivityChange`: a copy of the activities with entry `index` replaced. */
  function WithActivity(f: Form, index: nat, value: string): (r: Form)
    requires index < |f.activities|
    ensures |r.activities| == |f.activities| && r.activities[index] == value
    ensures forall j :: 0 <= j < |f.activities| && j != index ==> r.activities[j] == f.activities[j]
    ensures forall name :: Get(r, name) == Get(f, name)
  {
    f.(activities := f.activities[index := value])
  }

  const FocusMissing := "Fältet 'Vad mäts' måste fyllas i."
  const LabelsMissing := "Min och max etikett måste fyllas i."
  const InitialsMissing := "Initialer måste anges."
  const LocationMissing := "Du måste välja en verksamhet."
  const DurationMissing := "Du måste välja en tidsperiod."
  const EmailMissing := "En e-postadress måste anges."
  const EmailForeign := "E-postadressen måste sluta med @betaniahemmet.se."
  const Domain := "@betaniahemmet.se"

  /** The checks of `handleSubmit`, tried in order; the first that fails gives the
      message shown. `!x.trim()` holds exactly for a blank `x` (see `Trim`); the
      place and the period are checked untrimmed. */
  function Validate(f: Form, mode: Mode): (r: Option<string>)
    ensures r == Some(FocusMissing) <==> Blank(f.focus)
    ensures mode == Event ==> r != Some(LabelsMissing)
    ensures r.Some? ==> r.value in [FocusMissing, LabelsMissing, InitialsMissing, LocationMissing, DurationMissing, EmailMissing, EmailForeign]
  {
    if Blank(f.focus) then Some(FocusMissing)
    else if mode == Scale && (Blank(f.minLabel) || Blank(f.maxLabel)) then Some(LabelsMissing)
    else if Blank(f.initials) then Some(InitialsMissing)
    else if f.location == "" then Some(LocationMissing)
    else if f.duration == "" then Some(DurationMissing)
    else if Blank(f.adminEmail) then Some(EmailMissing)
    else if !EndsWith(Lower(f.adminEmail), Domain) then Some(EmailForeign)
    else None
  }

  /** Every rule the form breaks, in the order the rules are listed. */
  function Failures(f: Form, mode: Mode): seq<string> {
    (if Blank(f.focus) then [FocusMissing] else [])
    + (if mode == Scale && (Blank(f.minLabel) || Blank(f.maxLabel)) then [LabelsMissing] else [])
    + (if Blank(f.initials) then [InitialsMissing] else [])
    + (if f.location == "" then [LocationMissing] else [])
    + (if f.duration == "" then [DurationMissing] else [])
    + (if Blank(f.adminEmail) then [EmailMissing] else [])
    + (if !EndsWith(Lower(f.adminEmail), Domain) then [EmailForeign] else [])
  }

  /** The message shown is the first rule broken, and none is shown exactly when the
      form breaks no rule. */
  lemma ValidateFirstFailure(f: Form, mode: Mode)
    ensures Validate(f, mode) == (if Failures(f, mode) == [] then None else Some(Failures(f, mode)[0]))
    ensures Validate(f, mode).None? <==> Failures(f, mode) == []
  {
  }

  /** A form that passes has what is measured, the scale's labels in scale mode,
      initials, a place, a period and an e-mail of the domain in any letter case. */
  lemma Accepted(f: Form, mode: Mode)
    requires Validate(f, mode).None?
    ensures !Blank(f.focus) && !Blank(f.initials) && !Blank(f.adminEmail)
    ensures mode == Scale ==> !Blank(f.minLabel) && !Blank(f.maxLabel)
    ensures f.location != "" && f.duration != ""
    ensures EndsWith(Lower(f.adminEmail), Domain)
  {
  }

  /** In event mode the scale's labels play no part. */
  lemma EventIgnoresLabels(f: Form, minLabel: string, maxLabel: string)
    ensures Validate(f.(minLabel := minLabel, maxLabel := maxLabel), Event) == Validate(f, Event)
    ensures Validate(f, Event) != Some(LabelsMissing)
  {
  }

  /** Lower-casing leaves whitespace alone, so it keeps a string blank or not. */
  lemma {:induction false} LowerKeepsBlank(s: string)
    ensures Blank(Lower(s)) <==> Blank(s)
  {
    assert forall i :: 0 <= i < |s| ==> (IsSpace(Lower(s)[i]) <==> IsSpace(s[i]));
  }

  /** The e-mail checks ignore letter case: two addresses that lower-case alike pass
      or fail alike. */
  lemma EmailCaseInsensitive(f: Form, mode: Mode, e1: string, e2: string)
    requires Lower(e1) == Lower(e2)
    ensures Validate(f.(adminEmail := e1), mode) == Validate(f.(adminEmail := e2), mode)
  {
    LowerKeepsBlank(e1);
    LowerKeepsBlank(e2);
  }

  /** A posted form field. */
  type Entry = (string, string)

  function ActivityKey(i: nat): string {
    "activity_" + Decimal(i + 1)
  }

  /** The posted fields: `formData`'s keys in their order, the activities spread
      into `activity_1`, `activity_2`, … in place of `activities`, and the mode last. */
  function Posted(f: Form, mode: Mode): (r: seq<Entry>)
    ensures |r| == |f.activities| + 8
    ensures r[0] == ("focus", f.focus) && r[|r| - 1] == ("tracking_mode", ModeName(mode))
  {
    [("focus", f.focus), ("min_label", f.minLabel), ("max_label", f.maxLabel)]
    + seq(|f.activities|, i requires 0 <= i < |f.activities| => (ActivityKey(i), f.activities[i]))
    + [("initials", f.initials), ("location", f.location), ("duration", f.duration),
       ("admin_email", f.adminEmail), ("tracking_mode", ModeName(mode))]
  }

  /** The keys posted besides the activities, in their order. */
  const FixedKeys := ["focus", "min_label", "max_label", "initials", "location", "duration", "admin_email", "tracking_mode"]

  lemma ActivityKeyShape(i: nat)
    ensures |ActivityKey(i)| >= 10 && ActivityKey(i)[..9] == "activity_" && ActivityKey(i)[9..] == Decimal(i + 1)
  {
  }

  /** Different activities are posted under different keys. */
  lemma ActivityKeysDiffer(i: nat, j: nat)
    requires i != j
    ensures ActivityKey(i) != ActivityKey(j)
  {
    ActivityKeyShape(i);
    ActivityKeyShape(j);
    DecimalInjective(i + 1, j + 1);
  }

  /** No fixed key is an activity key, and the fixed keys differ from each other. */
  lemma FixedKeysApart(a: nat, i: nat)
    requires a < |FixedKeys|
    ensures FixedKeys[a] != ActivityKey(i) && ActivityKey(i) != "activities"
    ensures forall b :: 0 <= b < |FixedKeys| && b != a ==> FixedKeys[a] != FixedKeys[b]
  {
    ActivityKeyShape(i);
    assert ActivityKey(i)[7] == 'y' && "activities"[7] == 'i';
    if |FixedKeys[a]| >= 9 {
      assert FixedKeys[a][..9] != "activity_";
    }
  }

  /** Where each key of the posted form comes from. */
  lemma PostedKey(f: Form, mode: Mode, i: nat)
    requires i < |f.activities| + 8
    ensures |Posted(f, mode)| == |f.activities| + 8
    ensures i < 3 ==> Posted(f, mode)[i].0 == FixedKeys[i]
    ensures 3 <= i < 3 + |f.activities| ==> Posted(f, mode)[i] == (ActivityKey(i - 3), f.activities[i - 3])
    ensures 3 + |f.activities| <= i ==> Posted(f, mode)[i].0 == FixedKeys[i - |f.activities|]
  {
  }

  /** No key is posted twice, none is `activities`, each activity goes under its
      number and keeps its text, and the mode comes last. */
  lemma PostedShape(f: Form, mode: Mode)
    ensures |Posted(f, mode)| == |f.activities| + 8
    ensures forall i :: 0 <= i < |f.activities| ==> Posted(f, mode)[3 + i] == (ActivityKey(i), f.activities[i])
    ensures Posted(f, mode)[|Posted(f, mode)| - 1] == ("tracking_mode", ModeName(mode))
    ensures Posted(f, mode)[|Posted(f, mode)| - 2] == ("admin_email", f.adminEmail)
    ensures forall i :: 0 <= i < |Posted(f, mode)| ==> Posted(f, mode)[i].0 != "activities"
    ensures forall i, j :: 0 <= i < j < |Posted(f, mode)| ==> Posted(f, mode)[i].0 != Posted(f, mode)[j].0
  {
    var n := |f.activities|;
    PostedKey(f, mode, 0);
    forall i | 0 <= i < n ensures Posted(f, mode)[3 + i] == (ActivityKey(i), f.activities[i]) {
      PostedKey(f, mode, 3 + i);
    }
    NoActivitiesKey(f, mode);
    KeysDistinct(f, mode);
  }

  lemma NoActivitiesKey(f: Form, mode: Mode)
    ensures forall i :: 0 <= i < |Posted(f, mode)| ==> Posted(f, mode)[i].0 != "activities"
  {
    var p := Posted(f, mode);
    var n := |f.activities|;
    forall i | 0 <= i < |p| ensures p[i].0 != "activities" {
      PostedKey(f, mode, i);
      if 3 <= i < 3 + n {
        FixedKeysApart(0, i - 3);
      } else {
        assert "activities" !in FixedKeys;
      }
    }
  }

  lemma KeysDistinct(f: Form, mode: Mode)
    ensures forall i, j :: 0 <= i < j < |Posted(f, mode)| ==> Posted(f, mode)[i].0 != Posted(f, mode)[j].0
  {
    var p := Posted(f, mode);
    var n := |f.activities|;
    forall i, j | 0 <= i < j < |p| ensures p[i].0 != p[j].0 {
      PostedKey(f, mode, i);
      PostedKey(f, mode, j);
      KeyPairApart(n, i, j);
    }
  }

  /** Two positions of a posted form hold different keys, whichever parts they lie in. */
  lemma KeyPairApart(n: nat, i: nat, j: nat)
    requires i < j < n + 8
    ensures var ki := if 3 <= i < 3 + n then ActivityKey(i - 3) else FixedKeys[if i < 3 then i else i - n];
      var kj := if 3 <= j < 3 + n then ActivityKey(j - 3) else FixedKeys[if j < 3 then j else j - n];
      ki != kj
  {
    if 3 <= i < 3 + n && 3 <= j < 3 + n {
      ActivityKeysDiffer(i - 3, j - 3);
    } else if 3 <= i < 3 + n {
      FixedKeysApart(if j < 3 then j else j - n, i - 3);
    } else if 3 <= j < 3 + n {
      FixedKeysApart(if i < 3 then i else i - n, j - 3);
    } else {
      FixedKeysApart(if i < 3 then i else i - n, 0);
    }
  }

  /** The `forEach` over `formData` that fills the `FormData` object. */
  method BuildForm(f: Form, mode: Mode) returns (form: seq<Entry>)
    ensures form == Posted(f, mode)
  {
    form := [("focus", f.focus), ("min_label", f.minLabel), ("max_label", f.maxLabel)];
    var i := 0;
    while i < |f.activities|
      invariant 0 <= i <= |f.activities|
      invariant |form| == 3 + i
      invariant form[..3] == [("focus", f.focus), ("min_label", f.minLabel), ("max_label", f.maxLabel)]
      invariant forall j :: 0 <= j < i ==> form[3 + j] == (ActivityKey(j), f.activities[j])
    {
      form := form + [(ActivityKey(i), f.activities[i])];
      i := i + 1;
    }
    form := form + [("initials", f.initials), ("location", f.location), ("duration", f.duration)];
    form := form + [("admin_email", f.adminEmail)];
    form := form + [("tracking_mode", ModeName(mode))];
  }

  /** The server's answer to the post: the created PDF, a refusal with its text, or
      no answer at all (the request or the download raised). */
  datatype Response = Created | Refused(text: string) | Unreachable

  const Duplicate := "En kartläggning för dessa initialer och platsen finns redan."
  const ServerFailed := "Serverfel – kunde inte skapa QR-kod."
  const Unexpected := "Något gick fel. Kontrollera fälten och försök igen."
  const Generated := "QR-koden har skapats och laddats ner."

  /** The message of a failed post. */
  function FailureMessage(r: Response): (msg: string)
    requires !r.Created?
    ensures r.Refused? ==> (msg == Duplicate <==> Contains(r.text, "finns redan"))
    ensures r.Refused? && !Contains(r.text, "finns redan") ==> msg == ServerFailed
    ensures r.Unreachable? ==> msg == Unexpected
  {
    match r
    case Refused(text) => if Contains(text, "finns redan") then Duplicate else ServerFailed
    case Unreachable => Unexpected
  }

  /** The name of the downloaded PDF. */
  function DownloadName(f: Form): string {
    f.initials + "_" + f.location + "_QR.pdf"
  }

  class AdminPage {
    var trackingMode: Mode
    var successMessage: string
    var errorMessage: string
    var formData: Form

    /** The form always has its six activities. */
    ghost predicate Valid()
      reads this
    {
      |formData.activities| == ActivityCount
    }

    constructor ()
      ensures Valid()
      ensures trackingMode == Scale && successMessage == "" && errorMessage == "" && formData == InitialForm
    {
      trackingMode, successMessage, errorMessage, formData := Scale, "", "", InitialForm;
    }

    method HandleChange(name: Field, value: string)
      requires Valid()
      modifies this`formData
      ensures Valid()
      ensures formData == Changed(old(formData), name, value)
    {
      formData := Changed(formData, name, value);
    }

    /** The inputs are the rendered activities, so `index` is one of theirs. */
    method HandleActivityChange(index: nat, value: string)
      requires Valid() && index < ActivityCount
      modifies this`formData
      ensures Valid()
      ensures formData == WithActivity(old(formData), index, value)
    {
      var updated := formData.activities;
      updated := updated[index := value];
      formData := formData.(activities := updated);
    }

    method ToggleMode()
      modifies this`trackingMode
      ensures trackingMode == Toggled(old(trackingMode))
    {
      trackingMode := if trackingMode == Scale then Event else Scale;
    }

    /** `handleSubmit`, with the server's answer as a parameter. A form that fails a
        check is not posted and stays as it is. A form that passes gets its e-mail
        lower-cased, and what is posted is the form as it was before (the state
        update is not seen by the handler that made it). A success resets the form;
        a failure keeps it, with the lower-cased e-mail. */
    method HandleSubmit(response: Response) returns (posted: Option<seq<Entry>>, download: Option<string>)
      requires Valid()
      modifies this`formData, this`successMessage, this`errorMessage
      ensures Valid()
      ensures Validate(old(formData), trackingMode).Some? ==>
        && posted == None && download == None
        && errorMessage == Validate(old(formData), trackingMode).value && successMessage == ""
        && formData == old(formData)
      ensures Validate(old(formData), trackingMode).None? ==>
        && posted == Some(Posted(old(formData), trackingMode))
        && (response.Created? ==>
              && download == Some(DownloadName(old(formData)))
              && successMessage == Generated && errorMessage == "" && formData == InitialForm)
        && (!response.Created? ==>
              && download == None
              && errorMessage == FailureMessage(response) && successMessage == ""
              && formData == old(formData).(adminEmail := Lower(old(formData).adminEmail)))
    {
      successMessage, errorMessage := "", "";
      var submitted := formData;
      var err := Validate(submitted, trackingMode);
      if err.Some? {
        errorMessage := err.value;
        return None, None;
      }
      formData := formData.(adminEmail := Lower(submitted.adminEmail));
      var form := BuildForm(submitted, trackingMode);
      posted := Some(form);
      if !response.Created? {
        errorMessage := FailureMessage(response);
        return posted, None;
      }
      download := Some(DownloadName(submitted));
      successMessage := Generated;
      formData := InitialForm;
    }
  }
}
