/** The hospital-management data layer of the web app: embedded relations
    from the query builder, creating a doctor together with thirty days of
    appointment slots, the partial doctor update, the appointment list, the
    analytics rows and the per-doctor performance table. The tables written
    are class state; the rows a query reads are inputs, and whether a
    statement fails is a parameter. */
module Hms {
  import opened Common
  import opened Domain
  import SearchService

  // ---------------------------------------------------------------------------
  // Embedded relations

  /** A relation embedded in a query result: it can come back as an object,
      as an array of objects or as null. */
  datatype Joined<T> = Null | Object(value: T) | Array(items: seq<T>)

  /** `Array.isArray(raw) ? (raw[0] ?? null) : raw` */
  function Normalise<T>(raw: Joined<T>): (r: Option<T>)
    ensures r.None? <==> raw.Null? || raw == Array([])
    ensures raw.Object? ==> r == Some(raw.value)
    ensures raw.Array? && |raw.items| > 0 ==> r == Some(raw.items[0])
  {
    match raw
    case Null => None
    case Object(x) => Some(x)
    case Array(items) => if |items| == 0 then None else Some(items[0])
  }

  /** What a normalised relation gives back is the object itself or the
      first element of the array, so normalising it again as an object
      changes nothing. */
  lemma NormaliseIdempotent<T>(raw: Joined<T>)
    ensures var r := Normalise(raw);
      Normalise(if r.Some? then Object(r.value) else Null) == r
  {
  }

  // ---------------------------------------------------------------------------
  // createDoctor

  /** `CreateDoctorData`; a field left undefined is `None`. */
  datatype CreateDoctorData = CreateDoctorData(
    name: string,
    specialization: string,
    qualification: Option<string>,
    experienceYears: Option<int>,
    consultationFee: Option<int>,
    phone: Option<string>,
    email: Option<string>,
    bio: Option<string>,
    languages: Option<seq<string>>,
    slotStartTime: Option<string>,
    slotEndTime: Option<string>,
    slotDurationMinutes: Option<int>,
    workingDays: Option<seq<int>>)

  /** A row of the `doctors` table as this layer writes it. */
  datatype DoctorRow = DoctorRow(
    id: string,
    hospitalId: string,
    name: string,
    specialization: string,
    qualifications: Option<string>,
    experienceYears: Option<int>,
    consultationFee: int,
    languages: seq<string>,
    workingDays: seq<int>,
    workingHoursStart: string,
    workingHoursEnd: string,
    slotDuration: int,
    isActive: bool,
    bio: Option<string>)

  /** A row of `appointment_slots` as `createDoctor` inserts it. */
  datatype SlotInsert = SlotInsert(doctorId: string, date: string, time: string, isAvailable: bool)

  const DefaultStart := "09:00"
  const DefaultEnd := "17:00"
  const DefaultDuration := 30
  const DefaultWorkingDays := [1, 2, 3, 4, 5]

  /** Slots are generated for the day of creation and the 29 days after. */
  const SlotDays := 30

  /** The destructuring defaults of `createDoctor`. */
  function StartOf(data: CreateDoctorData): string { data.slotStartTime.GetOr(DefaultStart) }
  function EndOf(data: CreateDoctorData): string { data.slotEndTime.GetOr(DefaultEnd) }
  function DurationOf(data: CreateDoctorData): int { data.slotDurationMinutes.GetOr(DefaultDuration) }
  function DaysOf(data: CreateDoctorData): seq<int> { data.workingDays.GetOr(DefaultWorkingDays) }

  /** The row `createDoctor` inserts, with the id the database assigns. */
  function DoctorInsert(id: string, hospitalId: string, data: CreateDoctorData): DoctorRow {
    DoctorRow(id, hospitalId, data.name, data.specialization, data.qualification, data.experienceYears,
              data.consultationFee.GetOr(0), data.languages.GetOr([]), DaysOf(data), StartOf(data), EndOf(data),
              DurationOf(data), true, data.bio)
  }

  /** A doctor created with only a name and a specialization works Monday to
      Friday from 09:00 to 17:00 in 30-minute slots, costs nothing, is active,
      and has no qualifications, experience, bio or languages on record. Its
      phone and email are never stored, whatever was given. */
  lemma DoctorInsertDefaults(id: string, hospitalId: string, data: CreateDoctorData)
    requires data.qualification.None? && data.experienceYears.None? && data.consultationFee.None?
    requires data.bio.None? && data.languages.None? && data.slotStartTime.None? && data.slotEndTime.None?
    requires data.slotDurationMinutes.None? && data.workingDays.None?
    ensures DoctorInsert(id, hospitalId, data)
      == DoctorRow(id, hospitalId, data.name, data.specialization, None, None, 0, [], [1, 2, 3, 4, 5],
                   "09:00", "17:00", 30, true, None)
    ensures DoctorInsert(id, hospitalId, data) == DoctorInsert(id, hospitalId, data.(phone := None, email := None))
  {
  }

  /** One available slot per minute of the day in `times`, each minute
      written by `timeText` (`HH:MM` for `createDoctor`). */
  function DateSlots(doctorId: string, date: string, times: seq<int>, timeText: int -> string): (r: seq<SlotInsert>)
    ensures |r| == |times|
    ensures forall i :: 0 <= i < |r| ==> r[i] == SlotInsert(doctorId, date, timeText(times[i]), true)
  {
    seq(|times|, i requires 0 <= i < |times| => SlotInsert(doctorId, date, timeText(times[i]), true))
  }

  /** The slots of one day: none unless its weekday is a working day and both
      times parse as numbers (otherwise the loop bound is `NaN`). */
  function DoctorDay(doctorId: string, workingDays: seq<int>, window: Option<(int, int)>, duration: int,
                     day: int, iso: int -> string, timeText: int -> string): seq<SlotInsert>
    requires duration > 0
  {
    if Weekday(day) !in workingDays || window.None? then []
    else DateSlots(doctorId, iso(day), SearchService.DayTimes(window.value.0, window.value.1, duration), timeText)
  }

  /** The slots of the days `today`, …, `today + days − 1`, in order. */
  function DoctorSlots(doctorId: string, workingDays: seq<int>, window: Option<(int, int)>, duration: int,
                       today: int, iso: int -> string, timeText: int -> string, days: nat): seq<SlotInsert>
    requires duration > 0
  {
    if days == 0 then []
    else DoctorSlots(doctorId, workingDays, window, duration, today, iso, timeText, days - 1)
         + DoctorDay(doctorId, workingDays, window, duration, today + days - 1, iso, timeText)
  }

  /** A slot of `createDoctor` and one of `generateSlots` in the search
      service for the same doctor, date and minute: the only difference is
      the time text, `HH:MM` here and `HH:MM:00` there. */
  predicate SameSlot(a: SlotInsert, b: SearchService.NewSlot) {
    a.doctorId == b.doctorId && a.date == b.date && a.time + ":00" == b.time && a.isAvailable
  }

  predicate AllSame(xs: seq<SlotInsert>, ys: seq<SearchService.NewSlot>) {
    |xs| == |ys| && forall i :: 0 <= i < |xs| ==> SameSlot(xs[i], ys[i])
  }

  lemma AllSameAppend(a: seq<SlotInsert>, b: seq<SearchService.NewSlot>, c: seq<SlotInsert>, d: seq<SearchService.NewSlot>)
    requires AllSame(a, b) && AllSame(c, d)
    ensures AllSame(a + c, b + d)
  {
    forall i | 0 <= i < |a + c|
      ensures SameSlot((a + c)[i], (b + d)[i])
    {
      if i < |a| {
        assert (a + c)[i] == a[i] && (b + d)[i] == b[i];
      } else {
        assert (a + c)[i] == c[i - |a|] && (b + d)[i] == d[i - |a|];
      }
    }
  }

  lemma SameDay(doctorId: string, workingDays: seq<int>, window: Option<(int, int)>, duration: int,
                day: int, iso: int -> string)
    requires duration > 0
    ensures AllSame(DoctorDay(doctorId, workingDays, window, duration, day, iso, SearchService.HourMinute),
                    SearchService.DayPlan(doctorId, workingDays, window, duration, day, iso, SearchService.SlotClock))
  {
    if Weekday(day) in workingDays && window.Some? {
      var times := SearchService.DayTimes(window.value.0, window.value.1, duration);
      var mine := DateSlots(doctorId, iso(day), times, SearchService.HourMinute);
      var theirs := SearchService.DaySlots(doctorId, iso(day), times, SearchService.SlotClock);
      assert AllSame(mine, theirs);
    }
  }

  /** `createDoctor` generates the same slots as `generateSlots` does for
      thirty days ahead: same days, same minutes, both stopping strictly
      before the end of the working hours; only the time text differs. */
  lemma {:induction false} SameSlotsAsGenerateSlots(doctorId: string, workingDays: seq<int>, window: Option<(int, int)>,
                                                    duration: int, today: int, iso: int -> string, days: nat)
    requires duration > 0
    ensures AllSame(DoctorSlots(doctorId, workingDays, window, duration, today, iso, SearchService.HourMinute, days),
                    SearchService.PlannedSlots(doctorId, workingDays, window, duration, today, iso,
                                               SearchService.SlotClock, days))
  {
    if days > 0 {
      var day := today + days - 1;
      SameSlotsAsGenerateSlots(doctorId, workingDays, window, duration, today, iso, days - 1);
      var mine := DoctorDay(doctorId, workingDays, window, duration, day, iso, SearchService.HourMinute);
      var theirs := SearchService.DayPlan(doctorId, workingDays, window, duration, day, iso, SearchService.SlotClock);
      SameDay(doctorId, workingDays, window, duration, day, iso);
      AllSameAppend(DoctorSlots(doctorId, workingDays, window, duration, today, iso, SearchService.HourMinute, days - 1),
                    SearchService.PlannedSlots(doctorId, workingDays, window, duration, today, iso,
                                               SearchService.SlotClock, days - 1),
                    mine, theirs);
    }
  }

  lemma DateSlotsStep(doctorId: string, date: string, m: int, end: int, d: int, timeText: int -> string)
    requires d > 0 && m < end
    ensures DateSlots(doctorId, date, SearchService.DayTimes(m, end, d), timeText)
      == [SlotInsert(doctorId, date, timeText(m), true)]
         + DateSlots(doctorId, date, SearchService.DayTimes(m + d, end, d), timeText)
  {
  }

  /** The inner `for (let minutes = startMinutes; minutes < endMinutes; …)`. */
  method PushDaySlots(slots0: seq<SlotInsert>, doctorId: string, dateStr: string, start: int, end: int, d: int,
                      timeText: int -> string)
    returns (slots: seq<SlotInsert>)
    requires d > 0
    ensures slots == slots0 + DateSlots(doctorId, dateStr, SearchService.DayTimes(start, end, d), timeText)
  {
    slots := slots0;
    var minutes := start;
    while minutes < end
      invariant slots + DateSlots(doctorId, dateStr, SearchService.DayTimes(minutes, end, d), timeText)
        == slots0 + DateSlots(doctorId, dateStr, SearchService.DayTimes(start, end, d), timeText)
      decreases end - minutes
    {
      var slot := SlotInsert(doctorId, dateStr, timeText(minutes), true);
      DateSlotsStep(doctorId, dateStr, minutes, end, d, timeText);
      SearchService.AppendAssoc(slots, [slot],
                                DateSlots(doctorId, dateStr, SearchService.DayTimes(minutes + d, end, d), timeText));
      slots := slots + [slot];
      minutes := minutes + d;
    }
    assert DateSlots(doctorId, dateStr, SearchService.DayTimes(minutes, end, d), timeText) == [];
    assert slots == slots + [];
  }

  lemma DoctorSlotsStep(slots: seq<SlotInsert>, next: seq<SlotInsert>, doctorId: string, workingDays: seq<int>,
                        window: Option<(int, int)>, duration: int, today: int, iso: int -> string,
                        timeText: int -> string, days: nat)
    requires duration > 0
    requires slots == DoctorSlots(doctorId, workingDays, window, duration, today, iso, timeText, days)
    requires next == slots + DoctorDay(doctorId, workingDays, window, duration, today + days, iso, timeText)
    ensures next == DoctorSlots(doctorId, workingDays, window, duration, today, iso, timeText, days + 1)
  {
  }

  /** One pass of the outer loop, for the day `today + dayOffset`: the day
      is skipped unless its weekday is one of the working days and the hours
      are numbers. */
  method PushDoctorDay(slots0: seq<SlotInsert>, doctorId: string, workingDays: seq<int>, window: Option<(int, int)>,
                       duration: int, today: int, iso: int -> string, timeText: int -> string, dayOffset: nat)
    returns (slots: seq<SlotInsert>)
    requires duration > 0
    requires slots0 == DoctorSlots(doctorId, workingDays, window, duration, today, iso, timeText, dayOffset)
    ensures slots == DoctorSlots(doctorId, workingDays, window, duration, today, iso, timeText, dayOffset + 1)
  {
    var day := today + dayOffset;
    if Weekday(day) in workingDays && window.Some? {
      slots := PushDaySlots(slots0, doctorId, iso(day), window.value.0, window.value.1, duration, timeText);
    } else {
      slots := slots0;
      assert slots == slots0 + [];
    }
    DoctorSlotsStep(slots0, slots, doctorId, workingDays, window, duration, today, iso, timeText, dayOffset);
  }

  /** The outer `for (let dayOffset = 0; dayOffset < 30; dayOffset++)`,
      with the working hours already parsed and the 30 as `days`. */
  method PushDoctorDays(doctorId: string, workingDays: seq<int>, window: Option<(int, int)>,
                        duration: int, today: int, iso: int -> string, timeText: int -> string, days: nat)
    returns (slots: seq<SlotInsert>)
    requires duration > 0
    ensures slots == DoctorSlots(doctorId, workingDays, window, duration, today, iso, timeText, days)
  {
    slots := [];
    var dayOffset: nat := 0;
    while dayOffset < days
      invariant dayOffset <= days
      invariant slots == DoctorSlots(doctorId, workingDays, window, duration, today, iso, timeText, dayOffset)
    {
      slots := PushDoctorDay(slots, doctorId, workingDays, window, duration, today, iso, timeText, dayOffset);
      dayOffset := dayOffset + 1;
    }
  }

  /** The slot rows of `createDoctor`. The working hours are parsed once: the
      code parses them again for every working day, always to the same value. */
  method GenerateDoctorSlots(doctorId: string, workingDays: seq<int>, startTime: string, endTime: string,
                             duration: int, today: int, iso: int -> string)
    returns (slots: seq<SlotInsert>)
    requires duration > 0
    ensures slots == DoctorSlots(doctorId, workingDays, SearchService.Window(startTime, endTime), duration,
                                 today, iso, SearchService.HourMinute, SlotDays)
  {
    var window := SearchService.Window(startTime, endTime);
    slots := PushDoctorDays(doctorId, workingDays, window, duration, today, iso, SearchService.HourMinute, SlotDays);
  }

  /** The slots of one working day are exactly the minutes `start`,
      `start + d`, … strictly before `end`, each written as `HH:MM` and
      available. */
  lemma DoctorDayTimes(doctorId: string, workingDays: seq<int>, start: int, end: int, duration: int,
                       day: int, iso: int -> string)
    requires duration > 0 && Weekday(day) in workingDays
    ensures var r := DoctorDay(doctorId, workingDays, Some((start, end)), duration, day, iso, SearchService.HourMinute);
      && (forall t :: start <= t < end && OnGrid(t, start, duration) ==>
            SlotInsert(doctorId, iso(day), SearchService.HourMinute(t), true) in r)
      && (forall k :: 0 <= k < |r| ==>
            (exists t :: start <= t < end && OnGrid(t, start, duration)
                         && r[k] == SlotInsert(doctorId, iso(day), SearchService.HourMinute(t), true)))
  {
    var times := SearchService.DayTimes(start, end, duration);
    var r := DoctorDay(doctorId, workingDays, Some((start, end)), duration, day, iso, SearchService.HourMinute);
    assert r == DateSlots(doctorId, iso(day), times, SearchService.HourMinute);
    forall t | start <= t < end && OnGrid(t, start, duration)
      ensures SlotInsert(doctorId, iso(day), SearchService.HourMinute(t), true) in r
    {
      SearchService.DayTimesMembers(start, end, duration, t);
      var i :| 0 <= i < |times| && times[i] == t;
      assert r[i] == SlotInsert(doctorId, iso(day), SearchService.HourMinute(t), true);
    }
    forall k | 0 <= k < |r|
      ensures exists t :: (start <= t < end && OnGrid(t, start, duration)
                           && r[k] == SlotInsert(doctorId, iso(day), SearchService.HourMinute(t), true))
    {
      var t := times[k];
      assert t in times;
      SearchService.DayTimesMembers(start, end, duration, t);
    }
  }

  /** A day that is not a working day gets no slots. */
  lemma DoctorDayOff(doctorId: string, workingDays: seq<int>, window: Option<(int, int)>, duration: int,
                     day: int, iso: int -> string)
    requires duration > 0 && Weekday(day) !in workingDays
    ensures DoctorDay(doctorId, workingDays, window, duration, day, iso, SearchService.HourMinute) == []
  {
  }

  /** The slots `createDoctor` generates for the data it was given. */
  function CreatedSlots(doctorId: string, data: CreateDoctorData, today: int, iso: int -> string): seq<SlotInsert>
    requires DurationOf(data) > 0
  {
    DoctorSlots(doctorId, DaysOf(data), SearchService.Window(StartOf(data), EndOf(data)), DurationOf(data),
                today, iso, SearchService.HourMinute, SlotDays)
  }

  // ---------------------------------------------------------------------------
  // updateDoctor

  /** `UpdateDoctorData`; a field left undefined is `None`. */
  datatype UpdateDoctorData = UpdateDoctorData(
    name: Option<string>,
    specialization: Option<string>,
    qualification: Option<string>,
    experienceYears: Option<int>,
    consultationFee: Option<int>,
    phone: Option<string>,
    email: Option<string>,
    bio: Option<string>,
    isActive: Option<bool>,
    languages: Option<seq<string>>)

  /** A value of the untyped update payload. */
  datatype FieldValue = Text(text: string) | Number(number: int) | Flag(flag: bool) | Texts(texts: seq<string>)

  /** The columns of `doctors` an update could name. */
  datatype Column =
    | NameColumn | SpecializationColumn | QualificationsColumn | ExperienceYearsColumn
    | ConsultationFeeColumn | BioColumn | IsActiveColumn | LanguagesColumn | PhoneColumn | EmailColumn

  /** The column's name in the table. */
  function ColumnName(c: Column): string {
    match c
    case NameColumn => "name"
    case SpecializationColumn => "specialization"
    case QualificationsColumn => "qualifications"
    case ExperienceYearsColumn => "experience_years"
    case ConsultationFeeColumn => "consultation_fee"
    case BioColumn => "bio"
    case IsActiveColumn => "is_active"
    case LanguagesColumn => "languages"
    case PhoneColumn => "phone"
    case EmailColumn => "email"
  }

  /** The value `updateDoctor` writes to the column, if any: the field's
      value when it is defined; the phone and the email never. */
  function ValueOf(data: UpdateDoctorData, c: Column): Option<FieldValue> {
    match c
    case NameColumn => if data.name.Some? then Some(Text(data.name.value)) else None
    case SpecializationColumn => if data.specialization.Some? then Some(Text(data.specialization.value)) else None
    case QualificationsColumn => if data.qualification.Some? then Some(Text(data.qualification.value)) else None
    case ExperienceYearsColumn => if data.experienceYears.Some? then Some(Number(data.experienceYears.value)) else None
    case ConsultationFeeColumn => if data.consultationFee.Some? then Some(Number(data.consultationFee.value)) else None
    case BioColumn => if data.bio.Some? then Some(Text(data.bio.value)) else None
    case IsActiveColumn => if data.isActive.Some? then Some(Flag(data.isActive.value)) else None
    case LanguagesColumn => if data.languages.Some? then Some(Texts(data.languages.value)) else None
    case PhoneColumn => None
    case EmailColumn => None
  }

  /** `payload` holds exactly the columns with a value, each with it. */
  predicate PayloadOf(data: UpdateDoctorData, payload: map<Column, FieldValue>) {
    forall c {:trigger c in payload} ::
      (c in payload <==> ValueOf(data, c).Some?) && (c in payload ==> payload[c] == ValueOf(data, c).value)
  }

  /** The position of the column's `if` in `updateDoctor`; the phone and
      the email have none and come last. */
  function Step(c: Column): nat {
    match c
    case NameColumn => 0
    case SpecializationColumn => 1
    case QualificationsColumn => 2
    case ExperienceYearsColumn => 3
    case ConsultationFeeColumn => 4
    case BioColumn => 5
    case IsActiveColumn => 6
    case LanguagesColumn => 7
    case PhoneColumn => 8
    case EmailColumn => 9
  }

  /** `payload` after the first `k` of the `if`s. */
  predicate PayloadUpTo(data: UpdateDoctorData, payload: map<Column, FieldValue>, k: nat) {
    forall c {:trigger c in payload} :: (c in payload <==> Step(c) < k && ValueOf(data, c).Some?)
                && (c in payload ==> payload[c] == ValueOf(data, c).value)
  }

  /** One `if (data.x !== undefined) updatePayload.x = data.x`: the column
      is set when the data defines it, after the columns before it. */
  method SetIfDefined(data: UpdateDoctorData, payload0: map<Column, FieldValue>, c: Column)
    returns (payload: map<Column, FieldValue>)
    requires Step(c) < 8 && PayloadUpTo(data, payload0, Step(c))
    ensures PayloadUpTo(data, payload, Step(c) + 1)
  {
    payload := payload0;
    if ValueOf(data, c).Some? {
      payload := payload[c := ValueOf(data, c).value];
    }
    forall c' ensures (c' in payload <==> Step(c') < Step(c) + 1 && ValueOf(data, c').Some?)
                      && (c' in payload ==> payload[c'] == ValueOf(data, c').value)
    {
      if c' != c {
        assert Step(c') != Step(c);
      }
    }
  }

  /** The `updatePayload` of `updateDoctor`, filled field by field from the
      defined fields of the data, phone and email excepted. */
  method UpdatePayload(data: UpdateDoctorData) returns (payload: map<Column, FieldValue>)
    ensures PayloadOf(data, payload)
  {
    payload := map[];
    payload := SetIfDefined(data, payload, NameColumn);
    payload := SetIfDefined(data, payload, SpecializationColumn);
    payload := SetIfDefined(data, payload, QualificationsColumn);
    payload := SetIfDefined(data, payload, ExperienceYearsColumn);
    payload := SetIfDefined(data, payload, ConsultationFeeColumn);
    payload := SetIfDefined(data, payload, BioColumn);
    payload := SetIfDefined(data, payload, IsActiveColumn);
    payload := SetIfDefined(data, payload, LanguagesColumn);
  }

  /** The payload never writes the phone or the email, the field
      `qualification` is written to `qualifications`, and an update with
      nothing defined (or only a phone or an email) has an empty payload. */
  lemma PayloadColumns(data: UpdateDoctorData, payload: map<Column, FieldValue>)
    requires PayloadOf(data, payload)
    ensures PhoneColumn !in payload && EmailColumn !in payload
    ensures data.qualification.Some? <==> QualificationsColumn in payload
    ensures ColumnName(QualificationsColumn) == "qualifications"
    ensures payload == map[] <==> data.(phone := None, email := None) == UpdateDoctorData(None, None, None, None, None, None, None, None, None, None)
  {
    assert PhoneColumn !in payload && EmailColumn !in payload;
    assert QualificationsColumn in payload <==> ValueOf(data, QualificationsColumn).Some?;
    if payload == map[] {
      assert NameColumn !in payload && SpecializationColumn !in payload && QualificationsColumn !in payload;
      assert ExperienceYearsColumn !in payload && ConsultationFeeColumn !in payload && BioColumn !in payload;
      assert IsActiveColumn !in payload && LanguagesColumn !in payload;
    } else {
      var c :| c in payload;
      assert ValueOf(data, c).Some?;
    }
  }

  /** What `update(payload)` does to a row: each column in the payload takes
      its value, the others keep theirs. */
  function ApplyPayload(row: DoctorRow, payload: map<Column, FieldValue>): DoctorRow {
    row.(
      name := if NameColumn in payload && payload[NameColumn].Text? then payload[NameColumn].text else row.name,
      specialization := if SpecializationColumn in payload && payload[SpecializationColumn].Text?
                        then payload[SpecializationColumn].text else row.specialization,
      qualifications := if QualificationsColumn in payload && payload[QualificationsColumn].Text?
                        then Some(payload[QualificationsColumn].text) else row.qualifications,
      experienceYears := if ExperienceYearsColumn in payload && payload[ExperienceYearsColumn].Number?
                         then Some(payload[ExperienceYearsColumn].number) else row.experienceYears,
      consultationFee := if ConsultationFeeColumn in payload && payload[ConsultationFeeColumn].Number?
                         then payload[ConsultationFeeColumn].number else row.consultationFee,
      bio := if BioColumn in payload && payload[BioColumn].Text? then Some(payload[BioColumn].text) else row.bio,
      isActive := if IsActiveColumn in payload && payload[IsActiveColumn].Flag?
                  then payload[IsActiveColumn].flag else row.isActive,
      languages := if LanguagesColumn in payload && payload[LanguagesColumn].Texts?
                   then payload[LanguagesColumn].texts else row.languages)
  }

  /** The row after the update: each defined field replaces its column. */
  function Patch(row: DoctorRow, data: UpdateDoctorData): DoctorRow {
    row.(
      name := data.name.GetOr(row.name),
      specialization := data.specialization.GetOr(row.specialization),
      qualifications := if data.qualification.Some? then data.qualification else row.qualifications,
      experienceYears := if data.experienceYears.Some? then data.experienceYears else row.experienceYears,
      consultationFee := data.consultationFee.GetOr(row.consultationFee),
      bio := if data.bio.Some? then data.bio else row.bio,
      isActive := data.isActive.GetOr(row.isActive),
      languages := data.languages.GetOr(row.languages))
  }

  /** Writing the payload is the patch. */
  lemma PayloadPatches(row: DoctorRow, data: UpdateDoctorData, payload: map<Column, FieldValue>)
    requires PayloadOf(data, payload)
    ensures ApplyPayload(row, payload) == Patch(row, data)
  {
    var applied := ApplyPayload(row, payload);
    var patched := Patch(row, data);
    assert applied.name == patched.name by {
      assert NameColumn in payload <==> data.name.Some?;
    }
    assert applied.specialization == patched.specialization by {
      assert SpecializationColumn in payload <==> data.specialization.Some?;
    }
    assert applied.qualifications == patched.qualifications by {
      assert QualificationsColumn in payload <==> data.qualification.Some?;
    }
    assert applied.experienceYears == patched.experienceYears by {
      assert ExperienceYearsColumn in payload <==> data.experienceYears.Some?;
    }
    assert applied.consultationFee == patched.consultationFee by {
      assert ConsultationFeeColumn in payload <==> data.consultationFee.Some?;
    }
    assert applied.bio == patched.bio by {
      assert BioColumn in payload <==> data.bio.Some?;
    }
    assert applied.isActive == patched.isActive by {
      assert IsActiveColumn in payload <==> data.isActive.Some?;
    }
    assert applied.languages == patched.languages by {
      assert LanguagesColumn in payload <==> data.languages.Some?;
    }
  }

  /** An update keeps the doctor's identity, hospital and schedule, applying
      it twice is applying it once, and an update with nothing defined (or
      only a phone or an email) changes nothing. */
  lemma PatchProperties(row: DoctorRow, data: UpdateDoctorData)
    ensures var p := Patch(row, data);
      && p.id == row.id && p.hospitalId == row.hospitalId
      && p.workingDays == row.workingDays && p.workingHoursStart == row.workingHoursStart
      && p.workingHoursEnd == row.workingHoursEnd && p.slotDuration == row.slotDuration
      && Patch(p, data) == p
    ensures data.(phone := None, email := None) == UpdateDoctorData(None, None, None, None, None, None, None, None, None, None)
      ==> Patch(row, data) == row
  {
  }

  /** Every row with the id patched, the others untouched. */
  function PatchWhere(rows: seq<DoctorRow>, doctorId: string, data: UpdateDoctorData): (r: seq<DoctorRow>)
    ensures |r| == |rows|
  {
    seq(|rows|, i requires 0 <= i < |rows| => if rows[i].id == doctorId then Patch(rows[i], data) else rows[i])
  }

  // ---------------------------------------------------------------------------
  // The doctors and slots tables

  class DoctorTables {
    var doctors: seq<DoctorRow>
    var slots: seq<SlotInsert>

    constructor ()
      ensures doctors == [] && slots == []
    {
      doctors := [];
      slots := [];
    }

    /** `createDoctor(hospitalId, data)`: the database assigns `newId`, and
        `doctorInsertOk` / `slotsInsertOk` say whether each insert succeeds.
        A failed slot insert throws, but the doctor row stays. The slot
        batch is only sent when it is not empty. */
    method CreateDoctor(hospitalId: string, data: CreateDoctorData, newId: string, doctorInsertOk: bool,
                        slotsInsertOk: bool, today: int, iso: int -> string)
      returns (r: Result<DoctorRow>)
      requires DurationOf(data) > 0
      modifies this
      ensures !doctorInsertOk ==> r.Err? && doctors == old(doctors) && slots == old(slots)
      ensures doctorInsertOk ==> doctors == old(doctors) + [DoctorInsert(newId, hospitalId, data)]
      ensures doctorInsertOk && |CreatedSlots(newId, data, today, iso)| > 0 && !slotsInsertOk
        ==> r.Err? && slots == old(slots)
      ensures doctorInsertOk && (|CreatedSlots(newId, data, today, iso)| == 0 || slotsInsertOk)
        ==> r == Ok(DoctorInsert(newId, hospitalId, data)) && slots == old(slots) + CreatedSlots(newId, data, today, iso)
    {
      if !doctorInsertOk {
        return Err("doctor insert failed");
      }
      var doctor := DoctorInsert(newId, hospitalId, data);
      doctors := doctors + [doctor];
      var batch := GenerateDoctorSlots(doctor.id, DaysOf(data), StartOf(data), EndOf(data), DurationOf(data), today, iso);
      if |batch| > 0 {
        if !slotsInsertOk {
          return Err("slot insert failed");
        }
        slots := slots + batch;
      } else {
        assert slots == slots + batch;
      }
      r := Ok(doctor);
    }

    /** `updateDoctor(doctorId, data)`; `updateOk` says whether the update
        succeeds. */
    method UpdateDoctor(doctorId: string, data: UpdateDoctorData, updateOk: bool) returns (r: Result<()>)
      modifies this
      ensures slots == old(slots)
      ensures !updateOk ==> r.Err? && doctors == old(doctors)
      ensures updateOk ==> r.Ok? && doctors == PatchWhere(old(doctors), doctorId, data)
    {
      var payload := UpdatePayload(data);
      if !updateOk {
        return Err("doctor update failed");
      }
      var rows := doctors;
      var updated := seq(|rows|, i requires 0 <= i < |rows| =>
                           if rows[i].id == doctorId then ApplyPayload(rows[i], payload) else rows[i]);
      forall i | 0 <= i < |rows| && rows[i].id == doctorId
        ensures updated[i] == Patch(rows[i], data)
      {
        PayloadPatches(rows[i], data, payload);
      }
      assert updated == PatchWhere(rows, doctorId, data);
      doctors := updated;
      r := Ok(());
    }
  }

  // ---------------------------------------------------------------------------
  // getAppointments

  /** A row of `appointments` with its embedded doctor and slot. */
  datatype AppointmentRecord = AppointmentRecord(
    id: string,
    hospitalId: string,
    doctorId: string,
    date: string,
    time: string,
    status: string,
    patientName: Option<string>,
    patientPhone: Option<string>,
    doctor: Joined<DoctorRef>,
    slot: Joined<string>)

  /** `AppointmentRow`: the relations normalised. */
  datatype AppointmentListRow = AppointmentListRow(
    id: string,
    date: string,
    time: string,
    status: string,
    patientName: Option<string>,
    patientPhone: Option<string>,
    doctor: Option<DoctorRef>,
    slot: Option<string>)

  /** `AppointmentFilters`; no filters at all is every field `None`. */
  datatype AppointmentFilters = AppointmentFilters(
    date: Option<string>, status: Option<string>, doctorId: Option<string>, search: Option<string>)

  /** `if (filters?.x)`: an undefined or empty filter is not applied. */
  predicate Given(f: Option<string>) {
    f.Some? && f.value != ""
  }

  /** The rows the query selects: the hospital's, with a doctor (the join
      is an inner one), and for each filter given, the matching ones; the
      search is a case-insensitive substring of the patient name. */
  predicate Listed(hospitalId: string, filters: AppointmentFilters, row: AppointmentRecord) {
    && row.hospitalId == hospitalId
    && Normalise(row.doctor).Some?
    && (Given(filters.date) ==> row.date == filters.date.value)
    && (Given(filters.status) ==> row.status == filters.status.value)
    && (Given(filters.doctorId) ==> row.doctorId == filters.doctorId.value)
    && (Given(filters.search) ==> row.patientName.Some?
                                  && Contains(ToLower(row.patientName.value), ToLower(filters.search.value)))
  }

  function ListedBy(hospitalId: string, filters: AppointmentFilters): AppointmentRecord -> bool {
    (row: AppointmentRecord) => Listed(hospitalId, filters, row)
  }

  /** Date descending, then time descending. */
  predicate LaterAppointment(a: AppointmentRecord, b: AppointmentRecord) {
    DateTimeBefore(b.date, b.time, a.date, a.time)
  }

  lemma LaterAppointmentIsStrict()
    ensures StrictOrder(LaterAppointment)
  {
    forall a, b | LaterAppointment(a, b)
      ensures !LaterAppointment(b, a)
    {
      DateTimeBeforeAsymmetric(b.date, b.time, a.date, a.time);
    }
    forall a, b, c | LaterAppointment(a, b) && LaterAppointment(b, c)
      ensures LaterAppointment(a, c)
    {
      DateTimeBeforeTransitive(c.date, c.time, b.date, b.time, a.date, a.time);
    }
  }

  function ListRow(row: AppointmentRecord): AppointmentListRow {
    AppointmentListRow(row.id, row.date, row.time, row.status, row.patientName, row.patientPhone,
                       Normalise(row.doctor), Normalise(row.slot))
  }

  /** The rows mapped one for one. */
  function ListRows(picked: seq<AppointmentRecord>): (r: seq<AppointmentListRow>)
    ensures |r| == |picked|
    ensures forall i :: 0 <= i < |r| ==> r[i] == ListRow(picked[i])
  {
    seq(|picked|, i requires 0 <= i < |picked| => ListRow(picked[i]))
  }

  const AppointmentLimit := 100

  /** `getAppointments(hospitalId, filters)` over the `appointments` table;
      `queryError` is the error the query returns, if any. */
  function Appointments(table: seq<AppointmentRecord>, hospitalId: string, filters: AppointmentFilters,
                        queryError: Option<string>): Result<seq<AppointmentListRow>>
  {
    if queryError.Some? then Err(queryError.value)
    else
      Ok(ListRows(SelectOrdered(table, ListedBy(hospitalId, filters), LaterAppointment, AppointmentLimit)))
  }

  /** The listed row of the hospital's table that `x` was made from. */
  predicate FromListed(table: seq<AppointmentRecord>, hospitalId: string, filters: AppointmentFilters,
                       x: AppointmentListRow) {
    exists row :: row in table && Listed(hospitalId, filters, row) && x == ListRow(row)
  }

  /** The query itself: the selected rows, newest first, at most 100. */
  lemma PickedAppointments(table: seq<AppointmentRecord>, hospitalId: string, filters: AppointmentFilters)
    ensures var picked := SelectOrdered(table, ListedBy(hospitalId, filters), LaterAppointment, AppointmentLimit);
      var n := Count(table, ListedBy(hospitalId, filters));
      && |picked| == (if n < AppointmentLimit then n else AppointmentLimit)
      && (forall i :: 0 <= i < |picked| ==> picked[i] in table && Listed(hospitalId, filters, picked[i]))
      && (forall i, j :: 0 <= i < j < |picked| ==>
            !DateTimeBefore(picked[i].date, picked[i].time, picked[j].date, picked[j].time))
  {
    var picked := SelectOrdered(table, ListedBy(hospitalId, filters), LaterAppointment, AppointmentLimit);
    LaterAppointmentIsStrict();
    SelectOrderedSpec(table, ListedBy(hospitalId, filters), LaterAppointment, AppointmentLimit);
    forall i | 0 <= i < |picked|
      ensures picked[i] in table && Listed(hospitalId, filters, picked[i])
    {
      assert ListedBy(hospitalId, filters)(picked[i]);
    }
    forall i, j | 0 <= i < j < |picked|
      ensures !DateTimeBefore(picked[i].date, picked[i].time, picked[j].date, picked[j].time)
    {
      assert !LaterAppointment(picked[j], picked[i]);
    }
  }

  /** An error is passed on; otherwise the result has as many rows as are
      selected, up to 100, each a selected row of the table with its
      relations normalised, newest first. */
  lemma AppointmentsSpec(table: seq<AppointmentRecord>, hospitalId: string, filters: AppointmentFilters,
                         queryError: Option<string>)
    ensures var r := Appointments(table, hospitalId, filters, queryError);
      && (queryError.Some? <==> r.Err?)
      && (r.Ok? ==>
          var n := Count(table, ListedBy(hospitalId, filters));
          && |r.value| == (if n < AppointmentLimit then n else AppointmentLimit)
          && (forall i :: 0 <= i < |r.value| ==> FromListed(table, hospitalId, filters, r.value[i]))
          && (forall i, j :: 0 <= i < j < |r.value| ==>
                !DateTimeBefore(r.value[i].date, r.value[i].time, r.value[j].date, r.value[j].time)))
  {
    if queryError.None? {
      var picked := SelectOrdered(table, ListedBy(hospitalId, filters), LaterAppointment, AppointmentLimit);
      PickedAppointments(table, hospitalId, filters);
      var r := Appointments(table, hospitalId, filters, queryError);
      assert r.value == ListRows(picked);
      forall i | 0 <= i < |r.value|
        ensures FromListed(table, hospitalId, filters, r.value[i])
      {
        assert picked[i] in table && Listed(hospitalId, filters, picked[i]) && r.value[i] == ListRow(picked[i]);
      }
      forall i, j | 0 <= i < j < |r.value|
        ensures !DateTimeBefore(r.value[i].date, r.value[i].time, r.value[j].date, r.value[j].time)
      {
        assert r.value[i].date == picked[i].date && r.value[i].time == picked[i].time;
        assert r.value[j].date == picked[j].date && r.value[j].time == picked[j].time;
      }
    }
  }

  /** Filters that select the same rows give the same result. */
  lemma {:induction false} FilterAlike<T>(xs: seq<T>, p: T -> bool, q: T -> bool)
    requires forall x :: x in xs ==> p(x) == q(x)
    ensures Filter(xs, p) == Filter(xs, q)
  {
    if |xs| > 0 {
      FilterAlike(xs[..|xs| - 1], p, q);
      assert xs[|xs| - 1] in xs;
    }
  }

  /** The filters with every empty text replaced by `None`. */
  function Provided(filters: AppointmentFilters): AppointmentFilters {
    AppointmentFilters(
      if Given(filters.date) then filters.date else None,
      if Given(filters.status) then filters.status else None,
      if Given(filters.doctorId) then filters.doctorId else None,
      if Given(filters.search) then filters.search else None)
  }

  /** An empty filter is the same as no filter. */
  lemma EmptyFiltersIgnored(table: seq<AppointmentRecord>, hospitalId: string, filters: AppointmentFilters,
                            queryError: Option<string>)
    ensures Appointments(table, hospitalId, filters, queryError)
         == Appointments(table, hospitalId, Provided(filters), queryError)
  {
    forall x | x in table
      ensures ListedBy(hospitalId, filters)(x) == ListedBy(hospitalId, Provided(filters))(x)
    {
      assert Listed(hospitalId, filters, x) == Listed(hospitalId, Provided(filters), x);
    }
    FilterAlike(table, ListedBy(hospitalId, filters), ListedBy(hospitalId, Provided(filters)));
  }

  // ---------------------------------------------------------------------------
  // getHmsAnalytics

  /** A row of `booking_analytics`; the counters can be null. */
  datatype AnalyticsRecord = AnalyticsRecord(
    hospitalId: string,
    date: string,
    totalBookings: Option<int>,
    totalRevenue: Option<int>,
    completed: Option<int>,
    cancelled: Option<int>)

  datatype AnalyticsRow = AnalyticsRow(date: string, totalBookings: int, totalRevenue: int, completed: int, cancelled: int)

  /** A null counter reads 0. */
  function AnalyticsRowOf(raw: AnalyticsRecord): AnalyticsRow {
    AnalyticsRow(raw.date, raw.totalBookings.GetOr(0), raw.totalRevenue.GetOr(0), raw.completed.GetOr(0),
                 raw.cancelled.GetOr(0))
  }

  /** The hospital's rows dated on or after `from`. */
  function Recent(hospitalId: string, from: string): AnalyticsRecord -> bool {
    (raw: AnalyticsRecord) => raw.hospitalId == hospitalId && LexLessEq(from, raw.date)
  }

  predicate EarlierDay(a: AnalyticsRecord, b: AnalyticsRecord) {
    LexLess(a.date, b.date)
  }

  lemma EarlierDayIsStrict()
    ensures StrictOrder(EarlierDay)
  {
    forall a, b | EarlierDay(a, b)
      ensures !EarlierDay(b, a)
    {
      LexLessAsymmetric(a.date, b.date);
    }
    forall a, b, c | EarlierDay(a, b) && EarlierDay(b, c)
      ensures EarlierDay(a, c)
    {
      LexLessTransitive(a.date, b.date, c.date);
    }
  }

  /** The query of `getHmsAnalytics`: the hospital's rows from `from` on,
      ordered by date. */
  function RecentRows(table: seq<AnalyticsRecord>, hospitalId: string, from: string): seq<AnalyticsRecord> {
    SortBy(Filter(table, Recent(hospitalId, from)), EarlierDay)
  }

  /** The rows mapped one for one. */
  function AnalyticsRows(picked: seq<AnalyticsRecord>): (r: seq<AnalyticsRow>)
    ensures |r| == |picked|
    ensures forall i :: 0 <= i < |r| ==> r[i] == AnalyticsRowOf(picked[i])
  {
    seq(|picked|, i requires 0 <= i < |picked| => AnalyticsRowOf(picked[i]))
  }

  /** `getHmsAnalytics(hospitalId)`: the last thirty days, oldest first. */
  function HmsAnalytics(table: seq<AnalyticsRecord>, hospitalId: string, c: Clock, queryError: Option<string>)
    : Result<seq<AnalyticsRow>>
  {
    if queryError.Some? then Err(queryError.value)
    else
      Ok(AnalyticsRows(RecentRows(table, hospitalId, c.iso(c.today - 30))))
  }

  /** A row of the hospital dated `from` or later that `x` was made from. */
  predicate FromRecent(table: seq<AnalyticsRecord>, hospitalId: string, from: string, x: AnalyticsRow) {
    exists raw :: raw in table && raw.hospitalId == hospitalId && LexLessEq(from, raw.date) && x == AnalyticsRowOf(raw)
  }

  lemma PickedAnalytics(table: seq<AnalyticsRecord>, hospitalId: string, from: string)
    ensures var picked := RecentRows(table, hospitalId, from);
      && |picked| == Count(table, Recent(hospitalId, from))
      && (forall i :: 0 <= i < |picked| ==>
            picked[i] in table && picked[i].hospitalId == hospitalId && LexLessEq(from, picked[i].date))
      && (forall i, j :: 0 <= i < j < |picked| ==> !LexLess(picked[j].date, picked[i].date))
  {
    var f := Filter(table, Recent(hospitalId, from));
    var picked := RecentRows(table, hospitalId, from);
    FilterCount(table, Recent(hospitalId, from));
    EarlierDayIsStrict();
    SortBySorted(f, EarlierDay);
    forall i | 0 <= i < |picked|
      ensures picked[i] in table && picked[i].hospitalId == hospitalId && LexLessEq(from, picked[i].date)
    {
      assert picked[i] in multiset(picked);
      assert picked[i] in multiset(f);
      assert picked[i] in f;
      assert Recent(hospitalId, from)(picked[i]);
    }
    forall i, j | 0 <= i < j < |picked|
      ensures !LexLess(picked[j].date, picked[i].date)
    {
      assert !EarlierDay(picked[j], picked[i]);
    }
  }

  /** Every row of the hospital dated from thirty days ago on comes back,
      oldest first, with its null counters read as 0. */
  lemma HmsAnalyticsSpec(table: seq<AnalyticsRecord>, hospitalId: string, c: Clock, queryError: Option<string>)
    ensures var r := HmsAnalytics(table, hospitalId, c, queryError);
      && (queryError.Some? <==> r.Err?)
      && (r.Ok? ==>
          && |r.value| == Count(table, Recent(hospitalId, c.iso(c.today - 30)))
          && (forall i :: 0 <= i < |r.value| ==> FromRecent(table, hospitalId, c.iso(c.today - 30), r.value[i]))
          && (forall i, j :: 0 <= i < j < |r.value| ==> !LexLess(r.value[j].date, r.value[i].date)))
  {
    if queryError.None? {
      var from := c.iso(c.today - 30);
      var picked := RecentRows(table, hospitalId, from);
      PickedAnalytics(table, hospitalId, from);
      var r := HmsAnalytics(table, hospitalId, c, queryError);
      assert r.value == AnalyticsRows(picked);
      forall i | 0 <= i < |r.value|
        ensures FromRecent(table, hospitalId, from, r.value[i])
      {
        assert r.value[i] == AnalyticsRowOf(picked[i]);
      }
      forall i, j | 0 <= i < j < |r.value|
        ensures !LexLess(r.value[j].date, r.value[i].date)
      {
        assert r.value[i].date == picked[i].date && r.value[j].date == picked[j].date;
      }
    }
  }

  // ---------------------------------------------------------------------------
  // getDoctorPerformance

  datatype DoctorName = DoctorName(id: string, name: string)

  /** A row of `appointments` as the performance query reads it. */
  datatype PerformanceRecord = PerformanceRecord(
    hospitalId: string,
    doctorId: string,
    fee: Option<int>,
    status: string,
    doctor: Joined<DoctorName>)

  datatype PerformanceRow = PerformanceRow(doctorId: string, doctorName: string, count: int, revenue: int)

  /** The query: the hospital's completed and confirmed appointments. */
  function CountedBy(hospitalId: string): PerformanceRecord -> bool {
    (row: PerformanceRecord) => row.hospitalId == hospitalId && (row.status == "completed" || row.status == "confirmed")
  }

  /** `if (!doctor) continue` */
  predicate HasDoctor(row: PerformanceRecord) {
    Normalise(row.doctor).Some?
  }

  /** `row.consultation_fee ?? 0` */
  function Fee(row: PerformanceRecord): int {
    row.fee.GetOr(0)
  }

  /** The position of the doctor's entry, or `|entries|` when it has none. */
  function EntryOf(entries: seq<PerformanceRow>, doctorId: string): (k: nat)
    ensures k <= |entries|
    ensures k < |entries| ==> entries[k].doctorId == doctorId
    ensures forall i :: 0 <= i < k ==> entries[i].doctorId != doctorId
  {
    if |entries| == 0 then 0
    else if entries[0].doctorId == doctorId then 0
    else 1 + EntryOf(entries[1..], doctorId)
  }

  /** One pass of the loop: a row with a doctor adds one appointment and its
      fee to the doctor's entry, creating the entry, named after this row's
      doctor, at the end when there is none. */
  function Tally(entries: seq<PerformanceRow>, row: PerformanceRecord): seq<PerformanceRow> {
    if !HasDoctor(row) then entries
    else
      var k := EntryOf(entries, row.doctorId);
      if k < |entries| then entries[k := entries[k].(count := entries[k].count + 1, revenue := entries[k].revenue + Fee(row))]
      else entries + [PerformanceRow(row.doctorId, Normalise(row.doctor).value.name, 1, Fee(row))]
  }

  /** The `Map` after the loop over `rows`, in insertion order. */
  function Aggregate(rows: seq<PerformanceRecord>): seq<PerformanceRow> {
    if |rows| == 0 then [] else Tally(Aggregate(rows[..|rows| - 1]), rows[|rows| - 1])
  }

  /** The number of rows with a doctor for `doctorId`. */
  function RowsFor(rows: seq<PerformanceRecord>, doctorId: string): nat {
    if |rows| == 0 then 0
    else RowsFor(rows[..|rows| - 1], doctorId)
         + (if HasDoctor(rows[|rows| - 1]) && rows[|rows| - 1].doctorId == doctorId then 1 else 0)
  }

  /** The sum of their fees, a null fee counting 0. */
  function RevenueFor(rows: seq<PerformanceRecord>, doctorId: string): int {
    if |rows| == 0 then 0
    else RevenueFor(rows[..|rows| - 1], doctorId)
         + (if HasDoctor(rows[|rows| - 1]) && rows[|rows| - 1].doctorId == doctorId then Fee(rows[|rows| - 1]) else 0)
  }

  /** The doctor name on the first of them. */
  function FirstName(rows: seq<PerformanceRecord>, doctorId: string): Option<string> {
    if |rows| == 0 then None
    else
      var prev := FirstName(rows[..|rows| - 1], doctorId);
      var last := rows[|rows| - 1];
      if prev.Some? then prev
      else if HasDoctor(last) && last.doctorId == doctorId then Some(Normalise(last.doctor).value.name)
      else None
  }

  /** A doctor with no rows has no name and no revenue. */
  lemma {:induction false} NoRowsFor(rows: seq<PerformanceRecord>, doctorId: string)
    requires RowsFor(rows, doctorId) == 0
    ensures FirstName(rows, doctorId).None? && RevenueFor(rows, doctorId) == 0
  {
    if |rows| > 0 {
      NoRowsFor(rows[..|rows| - 1], doctorId);
    }
  }

  /** The entry gives the doctor's number of rows (at least one), their total
      fee and the name from the first of them. */
  predicate Summarises(e: PerformanceRow, rows: seq<PerformanceRecord>) {
    && e.count == RowsFor(rows, e.doctorId) && e.count > 0
    && e.revenue == RevenueFor(rows, e.doctorId)
    && FirstName(rows, e.doctorId) == Some(e.doctorName)
  }

  /** Some entry is the doctor's. */
  predicate HasEntry(entries: seq<PerformanceRow>, doctorId: string) {
    exists i :: 0 <= i < |entries| && entries[i].doctorId == doctorId
  }

  /** One entry per doctor, each summarising that doctor's rows, and an
      entry for every doctor that has rows. */
  ghost predicate Tallied(entries: seq<PerformanceRow>, rows: seq<PerformanceRecord>) {
    && (forall i, j :: 0 <= i < j < |entries| ==> entries[i].doctorId != entries[j].doctorId)
    && (forall i :: 0 <= i < |entries| ==> Summarises(entries[i], rows))
    && (forall id :: RowsFor(rows, id) > 0 ==> HasEntry(entries, id))
  }

  lemma TallyStep(entries: seq<PerformanceRow>, rows: seq<PerformanceRecord>, row: PerformanceRecord)
    requires Tallied(entries, rows)
    ensures Tallied(Tally(entries, row), rows + [row])
  {
    var rows' := rows + [row];
    assert rows'[..|rows'| - 1] == rows;
    var next := Tally(entries, row);
    if !HasDoctor(row) {
      forall id
        ensures RowsFor(rows', id) == RowsFor(rows, id) && RevenueFor(rows', id) == RevenueFor(rows, id)
        ensures FirstName(rows', id) == FirstName(rows, id)
      {
      }
    } else {
      var k := EntryOf(entries, row.doctorId);
      forall id | id != row.doctorId
        ensures RowsFor(rows', id) == RowsFor(rows, id) && RevenueFor(rows', id) == RevenueFor(rows, id)
        ensures FirstName(rows', id) == FirstName(rows, id)
      {
      }
      if k < |entries| {
        assert Summarises(entries[k], rows);
        assert Summarises(next[k], rows');
        forall i | 0 <= i < |next|
          ensures Summarises(next[i], rows')
        {
          if i != k {
            assert Summarises(entries[i], rows);
          }
        }
        forall id | RowsFor(rows', id) > 0
          ensures HasEntry(next, id)
        {
          if id == row.doctorId {
            assert next[k].doctorId == id;
          } else {
            assert HasEntry(entries, id);
            var i :| 0 <= i < |entries| && entries[i].doctorId == id;
            assert next[i].doctorId == id;
          }
        }
      } else {
        NoRowsFor(rows, row.doctorId);
        assert Summarises(next[|entries|], rows');
        forall i | 0 <= i < |next|
          ensures Summarises(next[i], rows')
        {
          if i < |entries| {
            assert Summarises(entries[i], rows);
          }
        }
        forall id | RowsFor(rows', id) > 0
          ensures HasEntry(next, id)
        {
          if id == row.doctorId {
            assert next[|entries|].doctorId == id;
          } else {
            assert HasEntry(entries, id);
            var i :| 0 <= i < |entries| && entries[i].doctorId == id;
            assert next[i].doctorId == id;
          }
        }
      }
    }
  }

  /** The aggregation gives one entry per doctor with rows, with that
      doctor's count, revenue and first name. */
  lemma {:induction false} AggregateTallied(rows: seq<PerformanceRecord>)
    ensures Tallied(Aggregate(rows), rows)
  {
    if |rows| > 0 {
      var prefix := rows[..|rows| - 1];
      AggregateTallied(prefix);
      TallyStep(Aggregate(prefix), prefix, rows[|rows| - 1]);
      assert prefix + [rows[|rows| - 1]] == rows;
    }
  }

  /** `sort((a, b) => b.count - a.count)`: more appointments first. */
  predicate MoreAppointments(a: PerformanceRow, b: PerformanceRow) {
    a.count > b.count
  }

  lemma MoreAppointmentsIsStrict()
    ensures StrictOrder(MoreAppointments)
  {
  }

  /** `getDoctorPerformance(hospitalId)`; `queryError` is the error the
      query returns, if any. Rows without a doctor are skipped (the inner
      join drops them as well). */
  method DoctorPerformance(table: seq<PerformanceRecord>, hospitalId: string, queryError: Option<string>)
    returns (r: Result<seq<PerformanceRow>>)
    ensures queryError.Some? <==> r.Err?
    ensures r.Ok? ==> r.value == SortBy(Aggregate(Filter(table, CountedBy(hospitalId))), MoreAppointments)
  {
    if queryError.Some? {
      return Err(queryError.value);
    }
    var rows := Filter(table, CountedBy(hospitalId));
    var entries: seq<PerformanceRow> := [];
    var i := 0;
    while i < |rows|
      invariant 0 <= i <= |rows|
      invariant entries == Aggregate(rows[..i])
    {
      var row := rows[i];
      assert rows[..i + 1] == rows[..i] + [row];
      var doctor := Normalise(row.doctor);
      if doctor.Some? {
        var existing := EntryOf(entries, row.doctorId);
        var fee := row.fee.GetOr(0);
        if existing < |entries| {
          entries := entries[existing := entries[existing].(count := entries[existing].count + 1,
                                                            revenue := entries[existing].revenue + fee)];
        } else {
          entries := entries + [PerformanceRow(row.doctorId, doctor.value.name, 1, fee)];
        }
      }
      i := i + 1;
    }
    assert rows[..|rows|] == rows;
    r := Ok(SortBy(entries, MoreAppointments));
  }

  lemma {:induction false} OnceEach(s: seq<PerformanceRow>, x: PerformanceRow)
    requires forall i, j :: 0 <= i < j < |s| ==> s[i].doctorId != s[j].doctorId
    ensures multiset(s)[x] <= 1
  {
    if |s| > 0 {
      var rest := s[1..];
      assert s == [s[0]] + rest;
      OnceEach(rest, x);
      if s[0] == x {
        assert x !in rest by {
          forall j | 0 <= j < |rest|
            ensures rest[j] != x
          {
            assert s[j + 1].doctorId != s[0].doctorId;
          }
        }
      }
    }
  }

  lemma Twice(s: seq<PerformanceRow>, i: int, j: int)
    requires 0 <= i < j < |s| && s[i] == s[j]
    ensures multiset(s)[s[i]] >= 2
  {
    assert s == s[..j] + [s[j]] + s[j + 1..];
    assert s[i] in s[..j];
  }

  /** A reordering of entries with one row per doctor has one row per
      doctor, and holds the same rows. */
  lemma Reordered(entries: seq<PerformanceRow>, r: seq<PerformanceRow>)
    requires multiset(r) == multiset(entries)
    requires forall i, j :: 0 <= i < j < |entries| ==> entries[i].doctorId != entries[j].doctorId
    ensures forall i, j :: 0 <= i < j < |r| ==> r[i].doctorId != r[j].doctorId
    ensures forall i :: 0 <= i < |r| ==> r[i] in entries
    ensures forall k :: 0 <= k < |entries| ==> entries[k] in r
  {
    forall i | 0 <= i < |r|
      ensures r[i] in entries
    {
      assert r[i] in multiset(r);
    }
    forall k | 0 <= k < |entries|
      ensures entries[k] in r
    {
      assert entries[k] in multiset(entries);
    }
    forall i, j | 0 <= i < j < |r|
      ensures r[i].doctorId != r[j].doctorId
    {
      if r[i].doctorId == r[j].doctorId {
        var a :| 0 <= a < |entries| && entries[a] == r[i];
        var b :| 0 <= b < |entries| && entries[b] == r[j];
        assert a == b;
        Twice(r, i, j);
        OnceEach(entries, r[i]);
        assert false;
      }
    }
  }

  /** Counts come out in descending order, and the result is a reordering
      of the aggregation: one row per doctor with completed or confirmed
      appointments, with their number, the sum of their fees (null as 0)
      and the doctor's name. */
  lemma DoctorPerformanceSpec(table: seq<PerformanceRecord>, hospitalId: string)
    ensures var rows := Filter(table, CountedBy(hospitalId));
      var r := SortBy(Aggregate(rows), MoreAppointments);
      && (forall i, j :: 0 <= i < j < |r| ==> r[i].count >= r[j].count)
      && (forall i, j :: 0 <= i < j < |r| ==> r[i].doctorId != r[j].doctorId)
      && (forall i :: 0 <= i < |r| ==> Summarises(r[i], rows))
      && (forall id :: RowsFor(rows, id) > 0 ==> HasEntry(r, id))
  {
    var rows := Filter(table, CountedBy(hospitalId));
    var entries := Aggregate(rows);
    var r := SortBy(entries, MoreAppointments);
    AggregateTallied(rows);
    MoreAppointmentsIsStrict();
    SortBySorted(entries, MoreAppointments);
    Reordered(entries, r);
    forall i, j | 0 <= i < j < |r|
      ensures r[i].count >= r[j].count
    {
      assert !MoreAppointments(r[j], r[i]);
    }
    forall i | 0 <= i < |r|
      ensures Summarises(r[i], rows)
    {
      var k :| 0 <= k < |entries| && entries[k] == r[i];
    }
    forall id | RowsFor(rows, id) > 0
      ensures HasEntry(r, id)
    {
      assert HasEntry(entries, id);
      var k :| 0 <= k < |entries| && entries[k].doctorId == id;
      assert entries[k] in r;
      var i :| 0 <= i < |r| && r[i] == entries[k];
    }
  }
}
