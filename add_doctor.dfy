/** The "add doctor" form of the hospital-management app
    (src/pages/hms/AddDoctor.tsx): its validation rules, the working-day
    checkboxes, and the call its submit makes to `createDoctor`. */
module AddDoctor {
  import opened Common
  import Hms

  // ---------------------------------------------------------------------------
  // Times

  function Digit(c: char): nat
    requires IsDigit(c)
  {
    c as int - '0' as int
  }

  /** `[0-1]?[0-9]|2[0-3]`. */
  predicate HourOk(h: string) {
    || (|h| == 1 && IsDigit(h[0]))
    || (|h| == 2 && (h[0] == '0' || h[0] == '1') && IsDigit(h[1]))
    || (|h| == 2 && h[0] == '2' && '0' <= h[1] <= '3')
  }

  /** `/^([0-1]?[0-9]|2[0-3]):[0-5][0-9]$/`. */
  predicate TimeOk(s: string) {
    && |s| >= 4
    && s[|s| - 3] == ':' && '0' <= s[|s| - 2] <= '5' && IsDigit(s[|s| - 1])
    && HourOk(s[..|s| - 3])
  }

  /** The two digits of a number below 100, padded. */
  lemma Pad2Digits(a: char, b: char)
    requires IsDigit(a) && IsDigit(b)
    ensures Pad2(10 * Digit(a) + Digit(b)) == [a, b]
  {
    var n := 10 * Digit(a) + Digit(b);
    assert DigitChar(Digit(b)) == b;
    if Digit(a) == 0 {
      assert NatToString(n) == [b];
    } else {
      assert n / 10 == Digit(a) && n % 10 == Digit(b);
      assert DigitChar(Digit(a)) == a;
      assert NatToString(n / 10) == [a];
    }
  }

  /** An accepted time is `HH:MM`, or `H:MM` for a one-digit hour, with the
      hour in 0..23 and the minute in 0..59. */
  lemma TimeOkSound(s: string)
    requires TimeOk(s)
    ensures exists h: nat, m: nat ::
      (h <= 23 && m <= 59 && (s == Pad2(h) + ":" + Pad2(m) || (h <= 9 && s == NatToString(h) + ":" + Pad2(m))))
  {
    var n := |s|;
    var hs, mm := s[..n - 3], s[n - 2..];
    assert s == hs + ":" + mm;
    var m := 10 * Digit(mm[0]) + Digit(mm[1]);
    Pad2Digits(mm[0], mm[1]);
    assert mm == [mm[0], mm[1]];
    if |hs| == 1 {
      var h := Digit(hs[0]);
      assert DigitChar(h) == hs[0];
      assert NatToString(h) == hs;
      assert h <= 9 && s == NatToString(h) + ":" + Pad2(m);
    } else {
      var h := 10 * Digit(hs[0]) + Digit(hs[1]);
      Pad2Digits(hs[0], hs[1]);
      assert hs == [hs[0], hs[1]];
      assert h <= 23 && s == Pad2(h) + ":" + Pad2(m);
    }
  }

  /** Every hour 0..23 and minute 0..59 written `HH:MM` is accepted, and so is
      `H:MM` for a one-digit hour. */
  lemma TimeOkComplete(h: nat, m: nat)
    requires h <= 23 && m <= 59
    ensures TimeOk(Pad2(h) + ":" + Pad2(m))
    ensures h <= 9 ==> TimeOk(NatToString(h) + ":" + Pad2(m))
  {
    PadShape(h);
    PadShape(m);
    var s := Pad2(h) + ":" + Pad2(m);
    assert s[..|s| - 3] == Pad2(h);
    if h <= 9 {
      var t := NatToString(h) + ":" + Pad2(m);
      assert t[..|t| - 3] == NatToString(h);
    }
  }

  /** `Pad2` of a number below 60 is two digits, the first at most '5'; below
      24 it is an accepted hour. */
  lemma PadShape(n: nat)
    requires n <= 59
    ensures |Pad2(n)| == 2 && IsDigit(Pad2(n)[0]) && IsDigit(Pad2(n)[1]) && Pad2(n)[0] <= '5'
    ensures n <= 23 ==> HourOk(Pad2(n))
    ensures n <= 9 ==> NatToString(n) == [DigitChar(n)] && HourOk(NatToString(n))
  {
    if n >= 10 {
      assert NatToString(n / 10) == [DigitChar(n / 10)];
      assert Pad2(n) == [DigitChar(n / 10), DigitChar(n % 10)];
    }
  }

  // ---------------------------------------------------------------------------
  // The form

  /** The fee field: a number (its initial value) or the text typed in. */
  datatype FeeInput = FeeNumber(n: int) | FeeText(s: string)

  /** `z.coerce.number()`: `Number(value)`; `None` is `NaN`. */
  function CoerceFee(f: FeeInput): Option<int> {
    match f
    case FeeNumber(n) => Some(n)
    case FeeText(s) => JsNumber(s)
  }

  datatype DoctorForm = DoctorForm(
    name: string,
    specialization: string,
    qualification: Option<string>,
    fee: FeeInput,
    slotStartTime: string,
    slotEndTime: string,
    workingDays: seq<int>)

  const Defaults := DoctorForm("", "", Some(""), FeeNumber(500), "09:00", "17:00", [1, 2, 3, 4, 5])

  /** `doctorSchema`. */
  predicate FormValid(v: DoctorForm) {
    && |v.name| >= 2
    && |v.specialization| >= 2
    && CoerceFee(v.fee).Some? && CoerceFee(v.fee).value >= 0
    && TimeOk(v.slotStartTime) && TimeOk(v.slotEndTime)
    && |v.workingDays| >= 1
  }

  /** The initial values pass every rule except the empty name and
      specialization: fee 500, 09:00 to 17:00, Monday to Friday. */
  lemma DefaultsSpec()
    ensures CoerceFee(Defaults.fee) == Some(500)
    ensures TimeOk(Defaults.slotStartTime) && TimeOk(Defaults.slotEndTime)
    ensures |Defaults.workingDays| >= 1
    ensures FormValid(Defaults.(name := "Dr A", specialization := "ENT"))
    ensures !FormValid(Defaults)
  {
    TimeOkComplete(9, 0);
    TimeOkComplete(17, 0);
    assert Pad2(9) + ":" + Pad2(0) == "09:00";
    assert NatToString(17) == "17";
    assert Pad2(17) + ":" + Pad2(0) == "17:00";
  }

  /** A checkbox change: checking appends the day's id, unchecking removes
      every occurrence of it. */
  function ToggleDay(days: seq<int>, id: int, checked: bool): seq<int> {
    if checked then days + [id] else Filter(days, v => v != id)
  }

  /** Unchecking removes the id and keeps every other day. */
  lemma {:induction false} UncheckSpec(days: seq<int>, id: int, d: int)
    ensures id !in ToggleDay(days, id, false)
    ensures d != id ==> (d in ToggleDay(days, id, false) <==> d in days)
  {
    if d != id && d in days {
      FilterKeeps(days, v => v != id, d);
    }
  }

  /** Checking a day that was not selected and unchecking it again restores
      the selection exactly. */
  lemma UncheckAfterCheck(days: seq<int>, id: int)
    requires id !in days
    ensures ToggleDay(ToggleDay(days, id, true), id, false) == days
  {
    var p := (v: int) => v != id;
    assert (days + [id])[..|days|] == days;
    FilterAll(days, p);
  }

  lemma {:induction false} FilterAll(xs: seq<int>, p: int -> bool)
    requires forall i :: 0 <= i < |xs| ==> p(xs[i])
    ensures Filter(xs, p) == xs
  {
    if |xs| > 0 {
      FilterAll(xs[..|xs| - 1], p);
      assert xs[..|xs| - 1] + [xs[|xs| - 1]] == xs;
    }
  }

  // ---------------------------------------------------------------------------
  // Submit

  /** The object the submit builds, with the keys it uses. */
  datatype SentPayload = SentPayload(
    name: string,
    specialization: string,
    qualifications: Option<string>,
    experienceYears: int,
    consultationFee: int,
    workingDays: seq<int>,
    workingHoursStart: string,
    workingHoursEnd: string,
    slotDuration: int)

  /** ":00" is appended to both times; experience is 0 and the slot length
      30 minutes. */
  function Payload(v: DoctorForm): (p: SentPayload)
    requires FormValid(v)
    ensures p.workingHoursStart == v.slotStartTime + ":00" && p.workingHoursEnd == v.slotEndTime + ":00"
    ensures p.experienceYears == 0 && p.slotDuration == 30
    ensures p.consultationFee == CoerceFee(v.fee).value && p.workingDays == v.workingDays
  {
    SentPayload(v.name, v.specialization, v.qualification, 0, CoerceFee(v.fee).value, v.workingDays,
                v.slotStartTime + ":00", v.slotEndTime + ":00", 30)
  }

  /** An argument of a JavaScript call, as far as `createDoctor` cares. */
  datatype JsArg = Undefined | Text(s: string) | PayloadArg(p: SentPayload) | DataArg(d: Hms.CreateDoctorData)

  /** `data` read through `CreateDoctorData`'s keys: the payload's
      `qualifications`, `working_hours_start`, `working_hours_end` and
      `slot_duration` are not among them and stay unread. */
  function ReadPayload(p: SentPayload): Hms.CreateDoctorData {
    Hms.CreateDoctorData(p.name, p.specialization, None, Some(p.experienceYears), Some(p.consultationFee),
                         None, None, None, None, None, None, None, Some(p.workingDays))
  }

  /** How `createDoctor(hospitalId, data)` binds its arguments: missing ones
      are `undefined`, and destructuring an `undefined` data throws before
      anything is written. A hospital id that is not text is refused. */
  function BindCreateDoctor(args: seq<JsArg>): (r: Result<(string, Hms.CreateDoctorData)>)
    ensures |args| < 2 ==> r.Err?
  {
    var hospitalId := if |args| > 0 then args[0] else Undefined;
    var data := if |args| > 1 then args[1] else Undefined;
    match data
    case DataArg(d) => if hospitalId.Text? then Ok((hospitalId.s, d)) else Err("invalid hospital id")
    case PayloadArg(p) => if hospitalId.Text? then Ok((hospitalId.s, ReadPayload(p))) else Err("invalid hospital id")
    case _ => Err("TypeError: cannot destructure data")
  }

  /** The call as the page makes it: the payload is the only argument. */
  function CallAsWritten(v: DoctorForm): seq<JsArg>
    requires FormValid(v)
  {
    [PayloadArg(Payload(v))]
  }

  /** As written, the call throws for every valid form, so no doctor is ever
      created from this page. */
  lemma AsWrittenAlwaysFails(v: DoctorForm)
    requires FormValid(v)
    ensures BindCreateDoctor(CallAsWritten(v)).Err?
  {
  }

  /** Even with a hospital id in front, the payload's keys lose the chosen
      hours and slot length: the doctor gets the 09:00-17:00 default. */
  lemma PayloadKeysLost(hospitalId: string, newId: string, v: DoctorForm)
    requires FormValid(v)
    ensures var r := BindCreateDoctor([Text(hospitalId), PayloadArg(Payload(v))]);
      && r.Ok?
      && Hms.DoctorInsert(newId, hospitalId, r.value.1).workingHoursStart == "09:00"
      && Hms.DoctorInsert(newId, hospitalId, r.value.1).workingHoursEnd == "17:00"
      && Hms.DoctorInsert(newId, hospitalId, r.value.1).qualifications.None?
  {
  }

  /** The data the submit evidently means to send, under
      `CreateDoctorData`'s own keys. */
  function SubmitData(v: DoctorForm): (d: Hms.CreateDoctorData)
    requires FormValid(v)
    ensures d.slotStartTime == Some(v.slotStartTime + ":00") && d.slotEndTime == Some(v.slotEndTime + ":00")
    ensures d.slotDurationMinutes == Some(30) && d.experienceYears == Some(0)
    ensures d.qualification == v.qualification && d.workingDays == Some(v.workingDays)
  {
    var p := Payload(v);
    Hms.CreateDoctorData(p.name, p.specialization, p.qualifications, Some(p.experienceYears),
                         Some(p.consultationFee), None, None, None, None, Some(p.workingHoursStart),
                         Some(p.workingHoursEnd), Some(p.slotDuration), Some(p.workingDays))
  }

  /** The corrected call passes the hospital id and the data; the doctor row
      then carries the form's fee, days and hours, 30-minute slots and no
      experience. */
  lemma CorrectedCallSpec(hospitalId: string, newId: string, v: DoctorForm)
    requires FormValid(v)
    ensures var r := BindCreateDoctor([Text(hospitalId), DataArg(SubmitData(v))]);
      && r == Ok((hospitalId, SubmitData(v)))
      && var row := Hms.DoctorInsert(newId, hospitalId, r.value.1);
      && row.workingHoursStart == v.slotStartTime + ":00" && row.workingHoursEnd == v.slotEndTime + ":00"
      && row.slotDuration == 30 && row.experienceYears == Some(0)
      && row.consultationFee == CoerceFee(v.fee).value && row.workingDays == v.workingDays
      && row.isActive
  {
  }

  datatype Notice = Notice(title: string, description: string, destructive: bool)

  const FailureNotice := Notice("Error", "Failed to add doctor. Please try again.", true)

  function AddedNotice(name: string): Notice {
    Notice("Doctor added", name + " has been added successfully.", false)
  }

  /** The page: its loading flag, the notices it shows and where it goes. */
  class AddDoctorPage {
    var isLoading: bool
    var notices: seq<Notice>
    var location: Option<string>

    constructor ()
      ensures !isLoading && notices == [] && location == None
    {
      isLoading := false;
      notices := [];
      location := None;
    }

    /** The body of `onSubmit` around the call `createDoctor(...args)`:
        `createOk` is whether the database work succeeds once the arguments
        are bound. The loading flag is cleared on both paths. */
    method Submit(v: DoctorForm, args: seq<JsArg>, createOk: bool)
      modifies this
      ensures !isLoading
      ensures BindCreateDoctor(args).Ok? && createOk
        ==> notices == old(notices) + [AddedNotice(v.name)] && location == Some("/hms/doctors")
      ensures !(BindCreateDoctor(args).Ok? && createOk)
        ==> notices == old(notices) + [FailureNotice] && location == old(location)
    {
      isLoading := true;
      var bound := BindCreateDoctor(args);
      if bound.Ok? && createOk {
        notices := notices + [AddedNotice(v.name)];
        location := Some("/hms/doctors");
      } else {
        notices := notices + [FailureNotice];
      }
      isLoading := false;
    }

    /** `onSubmit` as written, for a form that passed `doctorSchema`: every
        submit ends in the failure notice. */
    method OnSubmit(v: DoctorForm, createOk: bool)
      requires FormValid(v)
      modifies this
      ensures !isLoading
      ensures notices == old(notices) + [FailureNotice] && location == old(location)
    {
      Submit(v, CallAsWritten(v), createOk);
    }

    /** `onSubmit` with the corrected call: success exactly when
        `createDoctor` succeeds. */
    method OnSubmitCorrected(v: DoctorForm, hospitalId: string, createOk: bool)
      requires FormValid(v)
      modifies this
      ensures !isLoading
      ensures createOk ==> notices == old(notices) + [AddedNotice(v.name)] && location == Some("/hms/doctors")
      ensures !createOk ==> notices == old(notices) + [FailureNotice] && location == old(location)
    {
      Submit(v, [Text(hospitalId), DataArg(SubmitData(v))], createOk);
    }
  }
}
