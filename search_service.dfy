/** Doctor search and the slot inventory: the ranking score and top-five cut,
    the next free slot of a doctor, the free slots of one day, the generator
    of a doctor's slots for the coming days with its batched upsert, and the
    resolution of "today"/"tomorrow". */
module SearchService {
  import opened Common
  import opened Domain

  // ---------------------------------------------------------------------------
  // Slot queries

  /** Ordered by `slot_date`, then `slot_time`. */
  predicate SlotBefore(a: SlotRow, b: SlotRow) {
    DateTimeBefore(a.date, a.time, b.date, b.time)
  }

  /** Ordered by `slot_time`. */
  predicate TimeBefore(a: SlotRow, b: SlotRow) {
    LexLess(a.time, b.time)
  }

  lemma SlotBeforeIsStrict()
    ensures StrictOrder(SlotBefore)
  {
    forall a, b | SlotBefore(a, b)
      ensures !SlotBefore(b, a)
    {
      DateTimeBeforeAsymmetric(a.date, a.time, b.date, b.time);
    }
    forall a, b, d | SlotBefore(a, b) && SlotBefore(b, d)
      ensures SlotBefore(a, d)
    {
      DateTimeBeforeTransitive(a.date, a.time, b.date, b.time, d.date, d.time);
    }
  }

  lemma TimeBeforeIsStrict()
    ensures StrictOrder(TimeBefore)
  {
    forall a, b | TimeBefore(a, b)
      ensures !TimeBefore(b, a)
    {
      LexLessAsymmetric(a.time, b.time);
    }
    forall a, b, d | TimeBefore(a, b) && TimeBefore(b, d)
      ensures TimeBefore(a, d)
    {
      LexLessTransitive(a.time, b.time, d.time);
    }
  }

  function AsSlot(s: SlotRow): Slot {
    Slot(s.id, s.date, s.time)
  }

  /** Free slots of the doctor dated `fromDate` or later. */
  function OpenFrom(doctorId: string, fromDate: string): SlotRow -> bool {
    (s: SlotRow) => s.doctorId == doctorId && s.available && LexLessEq(fromDate, s.date)
  }

  /** `getNextAvailableSlot` */
  function NextAvailableSlot(slots: seq<SlotRow>, doctorId: string, fromDate: string): Option<Slot> {
    var r := SelectOrdered(slots, OpenFrom(doctorId, fromDate), SlotBefore, 1);
    if |r| == 0 then None else Some(AsSlot(r[0]))
  }

  /** There is a next slot exactly when the doctor has a free slot on or after
      `fromDate`, and it is the earliest of those by date and time. */
  lemma NextAvailableSlotSpec(slots: seq<SlotRow>, doctorId: string, fromDate: string)
    ensures var p := OpenFrom(doctorId, fromDate);
      var r := NextAvailableSlot(slots, doctorId, fromDate);
      && (r.Some? <==> exists s :: s in slots && p(s))
      && (r.Some? ==>
            exists s :: s in slots && p(s) && AsSlot(s) == r.value && forall x :: x in slots && p(x) ==> !DateTimeBefore(x.date, x.time, s.date, s.time))
  {
    SlotBeforeIsStrict();
    var p := OpenFrom(doctorId, fromDate);
    SelectFirst(slots, p, SlotBefore);
    var sel := SelectOrdered(slots, p, SlotBefore, 1);
    if |sel| == 1 {
      var s := sel[0];
      assert s in slots && p(s) && AsSlot(s) == NextAvailableSlot(slots, doctorId, fromDate).value;
    }
  }

  /** Free slots of the doctor on exactly `date`. */
  function OpenOn(doctorId: string, date: string): SlotRow -> bool {
    (s: SlotRow) => s.doctorId == doctorId && s.date == date && s.available
  }

  function AsSlots(rows: seq<SlotRow>): (r: seq<Slot>)
    ensures |r| == |rows|
    ensures forall i :: 0 <= i < |r| ==> r[i] == AsSlot(rows[i])
  {
    seq(|rows|, i requires 0 <= i < |rows| => AsSlot(rows[i]))
  }

  /** `getAvailableSlots` */
  function AvailableSlots(slots: seq<SlotRow>, doctorId: string, date: string): seq<Slot> {
    AsSlots(SelectOrdered(slots, OpenOn(doctorId, date), TimeBefore, 10))
  }

  /** At most ten slots, all of them free slots of that doctor on exactly that
      date, earliest first; fewer than ten only when no other slot matches. */
  lemma AvailableSlotsSpec(slots: seq<SlotRow>, doctorId: string, date: string)
    ensures var r := AvailableSlots(slots, doctorId, date);
      && |r| == (if Count(slots, OpenOn(doctorId, date)) < 10 then Count(slots, OpenOn(doctorId, date)) else 10)
      && (forall i :: 0 <= i < |r| ==>
            r[i].date == date && exists s :: s in slots && OpenOn(doctorId, date)(s) && AsSlot(s) == r[i])
      && (forall i, j :: 0 <= i < j < |r| ==> LexLessEq(r[i].time, r[j].time))
  {
    var sel := SelectOrdered(slots, OpenOn(doctorId, date), TimeBefore, 10);
    PickedSlots(slots, doctorId, date);
    var r := AvailableSlots(slots, doctorId, date);
    assert |r| == |sel|;
    forall i | 0 <= i < |r|
      ensures r[i].date == date && exists s :: s in slots && OpenOn(doctorId, date)(s) && AsSlot(s) == r[i]
    {
      var s := sel[i];
      assert s in slots && OpenOn(doctorId, date)(s) && AsSlot(s) == r[i];
    }
    forall i, j | 0 <= i < j < |r|
      ensures LexLessEq(r[i].time, r[j].time)
    {
      assert r[i].time == sel[i].time && r[j].time == sel[j].time;
    }
  }

  /** The query behind `getAvailableSlots`, before the rows are turned into
      slots: the doctor's free rows on the date, earliest first, at most ten. */
  lemma PickedSlots(slots: seq<SlotRow>, doctorId: string, date: string)
    ensures var sel := SelectOrdered(slots, OpenOn(doctorId, date), TimeBefore, 10);
      && |sel| == (if Count(slots, OpenOn(doctorId, date)) < 10 then Count(slots, OpenOn(doctorId, date)) else 10)
      && (forall i :: 0 <= i < |sel| ==> sel[i] in slots && OpenOn(doctorId, date)(sel[i]))
      && (forall i, j :: 0 <= i < j < |sel| ==> LexLessEq(sel[i].time, sel[j].time))
  {
    TimeBeforeIsStrict();
    var sel := SelectOrdered(slots, OpenOn(doctorId, date), TimeBefore, 10);
    SelectOrderedSpec(slots, OpenOn(doctorId, date), TimeBefore, 10);
    forall i, j | 0 <= i < j < |sel|
      ensures LexLessEq(sel[i].time, sel[j].time)
    {
      assert !TimeBefore(sel[j], sel[i]);
      LexLessTotal(sel[i].time, sel[j].time);
    }
  }

  // ---------------------------------------------------------------------------
  // Ranking

  /** 1000 for a premium hospital, 500 for a promoted one, 0 otherwise. */
  function PromotionBoost(h: Option<HospitalInfo>): int {
    if h.Some? && h.value.promotionLevel == Some(Premium) then 1000
    else if h.Some? && h.value.promotionLevel == Some(Promoted) then 500
    else 0
  }

  /** `hospital?.tier ?? 3` */
  function TierOf(h: Option<HospitalInfo>): int {
    if h.Some? && h.value.tier.Some? then h.value.tier.value else 3
  }

  /** The ranking score: promotion, then (4 − tier) × 100, then rating × 50
      (the rating is in tenths, so × 5), then 50 when a slot is free. */
  function Score(d: Doctor): int {
    PromotionBoost(d.hospital) + (4 - TierOf(d.hospital)) * 100 + d.ratingTenths * 5
      + (if d.nextSlot.Some? then 50 else 0)
  }

  /** The comparator `scoreB - scoreA`: a higher score comes first. */
  predicate Outranks(a: Doctor, b: Doctor) {
    Score(a) > Score(b)
  }

  lemma OutranksIsStrict()
    ensures StrictOrder(Outranks)
  {
  }

  /** A hospital tier is 1, 2 or 3 and a rating lies between 0 and 5. */
  predicate Plausible(d: Doctor) {
    0 <= d.ratingTenths <= 50 && (d.hospital.Some? && d.hospital.value.tier.Some? ==> 1 <= d.hospital.value.tier.value <= 3)
  }

  predicate IsPremium(d: Doctor) {
    d.hospital.Some? && d.hospital.value.promotionLevel == Some(Premium)
  }

  predicate IsUnpromoted(d: Doctor) {
    d.hospital.None? || d.hospital.value.promotionLevel.None?
  }

  /** Premium beats no promotion whatever the tier, rating and availability. */
  lemma PremiumOutranksUnpromoted(a: Doctor, b: Doctor)
    requires Plausible(a) && Plausible(b)
    requires IsPremium(a) && IsUnpromoted(b)
    ensures Outranks(a, b)
  {
  }

  /** The weights do not make promotion dominate tier: a promoted tier-3
      doctor rated 0 with no free slot ties an unpromoted tier-1 doctor rated
      5 with a free slot. */
  lemma PromotionCanTieTier(a: Doctor, b: Doctor)
    requires a.hospital.Some? && a.hospital.value.promotionLevel == Some(Promoted) && a.hospital.value.tier == Some(3)
    requires a.ratingTenths == 0 && a.nextSlot.None?
    requires b.hospital.Some? && b.hospital.value.promotionLevel.None? && b.hospital.value.tier == Some(1)
    requires b.ratingTenths == 50 && b.nextSlot.Some?
    ensures Score(a) == Score(b)
  {
  }

  /** What the doctor query returned: an error, or the matching rows. */
  datatype DoctorQuery = QueryFailed | Found(rows: seq<Doctor>)

  /** A row of the `doctors` table as the search query reads it: the
      selected columns with the joined hospital, and `is_active`. */
  datatype DoctorRow = DoctorRow(doctor: Doctor, isActive: bool)

  /** `column ilike '%text%'` for a `text` without `%`, `_` or `\`: the text
      occurs in the column, ignoring the case of ASCII letters. */
  predicate ILikeContains(column: string, text: string) {
    Contains(ToLower(column), ToLower(text))
  }

  /** The doctor-level filters of the query: `.eq('is_active', true)`, and
      the specialization filter when a specialty was extracted. */
  predicate MatchesSearch(row: DoctorRow, specialty: Option<string>) {
    row.isActive && (specialty.Some? && specialty.value != "" ==> ILikeContains(row.doctor.specialization, specialty.value))
  }

  /** The doctors of the rows that pass the filters, in table order. */
  function FilterDoctors(table: seq<DoctorRow>, specialty: Option<string>): (r: seq<Doctor>)
    ensures |r| <= |table|
    ensures forall d :: d in r <==> exists row :: row in table && MatchesSearch(row, specialty) && row.doctor == d
  {
    if |table| == 0 then []
    else
      var last := table[|table| - 1];
      var init := FilterDoctors(table[..|table| - 1], specialty);
      assert forall row :: row in table <==> row in table[..|table| - 1] || row == last;
      init + if MatchesSearch(last, specialty) then [last.doctor] else []
  }

  /** The reply of the doctor query for `intent`: the error, or the doctors
      that pass its filters. */
  function DoctorReply(table: seq<DoctorRow>, failed: bool, intent: Intent): (q: DoctorQuery)
    ensures failed <==> q.QueryFailed?
    ensures q.Found? ==> q.rows == FilterDoctors(table, intent.specialty)
  {
    if failed then QueryFailed else Found(FilterDoctors(table, intent.specialty))
  }

  /** Every doctor the search lists is, apart from its next free slot, the
      doctor of an active row whose specialization contains the extracted
      specialty. */
  lemma SearchListsOnlyMatches(table: seq<DoctorRow>, failed: bool, intent: Intent, slots: seq<SlotRow>,
                               targetDate: Option<string>, c: Clock, d: Doctor)
    requires d in SearchDoctors(DoctorReply(table, failed, intent), slots, targetDate, c)
    ensures exists row :: row in table && MatchesSearch(row, intent.specialty) && row.doctor.(nextSlot := d.nextSlot) == d
  {
    var rows := FilterDoctors(table, intent.specialty);
    var date := targetDate.GetOr(TodayIso(c));
    var enriched := Enrich(Take(rows, 50), slots, date);
    assert d in Ranked(rows, slots, date);
    assert d in multiset(enriched);
    var k :| 0 <= k < |enriched| && enriched[k] == d;
    var x := Take(rows, 50)[k];
    assert x in rows;
    var row :| row in table && MatchesSearch(row, intent.specialty) && row.doctor == x;
    assert row.doctor.(nextSlot := d.nextSlot) == d;
  }

  /** Each doctor with its next free slot on or after `date`. */
  function Enrich(rows: seq<Doctor>, slots: seq<SlotRow>, date: string): (r: seq<Doctor>)
    ensures |r| == |rows|
    ensures forall i :: 0 <= i < |r| ==> r[i] == rows[i].(nextSlot := NextAvailableSlot(slots, rows[i].id, date))
  {
    seq(|rows|, i requires 0 <= i < |rows| => rows[i].(nextSlot := NextAvailableSlot(slots, rows[i].id, date)))
  }

  /** The query's `limit(50)`, then the enrichment and the sort. */
  function Ranked(rows: seq<Doctor>, slots: seq<SlotRow>, date: string): seq<Doctor> {
    SortBy(Enrich(Take(rows, 50), slots, date), Outranks)
  }

  /** `searchDoctors` once the query has run; `date` defaults to today. */
  function SearchDoctors(reply: DoctorQuery, slots: seq<SlotRow>, targetDate: Option<string>, c: Clock): seq<Doctor> {
    match reply
    case QueryFailed => []
    case Found(rows) => Take(Ranked(rows, slots, targetDate.GetOr(TodayIso(c))), 5)
  }

  /** A failed query gives no doctors; otherwise the five best by descending
      score (ties keep query order), each an enriched row of the query, and
      no doctor left out scores higher than one kept. */
  lemma SearchDoctorsSpec(reply: DoctorQuery, slots: seq<SlotRow>, targetDate: Option<string>, c: Clock)
    ensures var r := SearchDoctors(reply, slots, targetDate, c);
      && |r| <= 5
      && (reply.QueryFailed? ==> r == [])
      && (reply.Found? ==>
            var ranked := Ranked(reply.rows, slots, targetDate.GetOr(TodayIso(c)));
            && |r| == (if |reply.rows| < 5 then |reply.rows| else 5)
            && r == ranked[..|r|]
            && (forall i, j :: 0 <= i < j < |r| ==> Score(r[i]) >= Score(r[j]))
            && (forall d, i :: d in ranked && d !in r && 0 <= i < |r| ==> Score(d) <= Score(r[i])))
  {
    if reply.Found? {
      var enriched := Enrich(Take(reply.rows, 50), slots, targetDate.GetOr(TodayIso(c)));
      SortBySorted(enriched, Outranks);
      assert |SortBy(enriched, Outranks)| == |multiset(enriched)| == |enriched|;
      TopKeepsBest(SortBy(enriched, Outranks), 5);
    }
  }

  /** The first `n` of a list ranked by descending score keep that order, and
      nothing after them scores higher than any of them. */
  lemma TopKeepsBest(ranked: seq<Doctor>, n: nat)
    requires SortedBy(ranked, Outranks)
    ensures var r := Take(ranked, n);
      && (forall i, j :: 0 <= i < j < |r| ==> Score(r[i]) >= Score(r[j]))
      && (forall d, i :: d in ranked && d !in r && 0 <= i < |r| ==> Score(d) <= Score(r[i]))
  {
    var r := Take(ranked, n);
    forall i, j | 0 <= i < j < |r|
      ensures Score(r[i]) >= Score(r[j])
    {
      assert !Outranks(ranked[j], ranked[i]);
    }
    forall d, i | d in ranked && d !in r && 0 <= i < |r|
      ensures Score(d) <= Score(r[i])
    {
      var k :| 0 <= k < |ranked| && ranked[k] == d;
      assert k >= |r|;
      assert !Outranks(ranked[k], ranked[i]);
    }
  }

  /** With plausible tiers and ratings, no unpromoted doctor is listed above a
      premium one. */
  lemma PremiumNeverBelowUnpromoted(reply: DoctorQuery, slots: seq<SlotRow>, targetDate: Option<string>, c: Clock)
    requires reply.Found? ==> forall d :: d in reply.rows ==> Plausible(d)
    ensures var r := SearchDoctors(reply, slots, targetDate, c);
      forall i, j :: 0 <= i < j < |r| ==> !(IsUnpromoted(r[i]) && IsPremium(r[j]))
  {
    SearchDoctorsSpec(reply, slots, targetDate, c);
    if reply.Found? {
      var date := targetDate.GetOr(TodayIso(c));
      var enriched := Enrich(Take(reply.rows, 50), slots, date);
      var r := SearchDoctors(reply, slots, targetDate, c);
      forall i, j | 0 <= i < j < |r| && IsUnpromoted(r[i]) && IsPremium(r[j])
        ensures false
      {
        PlausibleRanked(reply.rows, slots, date, r[i]);
        PlausibleRanked(reply.rows, slots, date, r[j]);
        PremiumOutranksUnpromoted(r[j], r[i]);
      }
    }
  }

  lemma PlausibleRanked(rows: seq<Doctor>, slots: seq<SlotRow>, date: string, d: Doctor)
    requires forall x :: x in rows ==> Plausible(x)
    requires d in Take(Ranked(rows, slots, date), 5)
    ensures Plausible(d)
  {
    var enriched := Enrich(Take(rows, 50), slots, date);
    var ranked := Ranked(rows, slots, date);
    assert d in ranked;
    assert d in multiset(enriched);
    var k :| 0 <= k < |enriched| && enriched[k] == d;
    assert Take(rows, 50)[k] in rows;
  }

  // ---------------------------------------------------------------------------
  // Slot generation

  /** A slot to be upserted: its conflict key is the whole row. */
  datatype NewSlot = NewSlot(doctorId: string, date: string, time: string)

  /** `n.toString().padStart(2, '0')` */
  function PadStart2(s: string): string {
    if |s| < 2 then "0" + s else s
  }

  /** `m % 60` in JavaScript: the sign follows the dividend. */
  function JsRem60(m: int): int {
    if m >= 0 then m % 60 else 0 - ((0 - m) % 60)
  }

  /** `${h}:${min}` for the minute of the day `m`, both parts padded to two
      digits. */
  function HourMinute(m: int): string {
    PadStart2(IntToString(m / 60)) + ":" + PadStart2(IntToString(JsRem60(m)))
  }

  /** `${h}:${min}:00` */
  function SlotClock(m: int): string {
    HourMinute(m) + ":00"
  }

  /** `const [h, m] = time.split(':').map(Number); h * 60 + m`; `None` is NaN. */
  function MinutesOf(time: string): Option<int> {
    var parts := SplitOn(time, ':');
    if |parts| < 2 then None
    else
      var h := JsNumber(parts[0]);
      var m := JsNumber(parts[1]);
      if h.Some? && m.Some? then Some(h.value * 60 + m.value) else None
  }

  /** The minutes `m, m + d, …` strictly before `end`. */
  function DayTimes(m: int, end: int, d: int): seq<int>
    requires d > 0
    decreases end - m
  {
    if m >= end then [] else [m] + DayTimes(m + d, end, d)
  }

  /** A minute is emitted exactly when it lies in [start, end) and is a whole
      number of durations past the start. */
  lemma {:induction false} DayTimesMembers(m: int, end: int, d: int, t: int)
    requires d > 0
    ensures t in DayTimes(m, end, d) <==> m <= t < end && OnGrid(t, m, d)
    decreases end - m
  {
    OnGridStep(t, m, d);
    if m < end {
      DayTimesMembers(m + d, end, d, t);
    }
  }

  /** The slots of one working day, the minutes written by `timeText`
      (`SlotClock` for `generateSlots`). */
  function DaySlots(doctorId: string, date: string, times: seq<int>, timeText: int -> string): (r: seq<NewSlot>)
    ensures |r| == |times|
    ensures forall i :: 0 <= i < |r| ==> r[i] == NewSlot(doctorId, date, timeText(times[i]))
  {
    seq(|times|, i requires 0 <= i < |times| => NewSlot(doctorId, date, timeText(times[i])))
  }

  /** The working hours `[start, end)` in minutes of the day; `None` when
      either time is not a number. */
  function Window(startTime: string, endTime: string): Option<(int, int)> {
    var s := MinutesOf(startTime);
    var e := MinutesOf(endTime);
    if s.Some? && e.Some? then Some((s.value, e.value)) else None
  }

  /** The slots of one day: none unless its weekday is a working day and the
      working hours are numbers. */
  function DayPlan(doctorId: string, workingDays: seq<int>, window: Option<(int, int)>,
                   duration: int, day: int, iso: int -> string, timeText: int -> string): (r: seq<NewSlot>)
    requires duration > 0
    ensures |r| > 0 ==> Weekday(day) in workingDays
    ensures forall k :: 0 <= k < |r| ==> r[k].doctorId == doctorId && r[k].date == iso(day)
  {
    if Weekday(day) !in workingDays || window.None? then []
    else DaySlots(doctorId, iso(day), DayTimes(window.value.0, window.value.1, duration), timeText)
  }

  /** The slots of the days `today`, …, `today + days − 1`, in order. */
  function PlannedSlots(doctorId: string, workingDays: seq<int>, window: Option<(int, int)>,
                        duration: int, today: int, iso: int -> string, timeText: int -> string, days: nat): seq<NewSlot>
    requires duration > 0
  {
    if days == 0 then []
    else
      PlannedSlots(doctorId, workingDays, window, duration, today, iso, timeText, days - 1)
      + DayPlan(doctorId, workingDays, window, duration, today + days - 1, iso, timeText)
  }

  /** The slot is dated one of the `days` days from `today` whose weekday is
      a working day. */
  predicate OnWorkingDay(s: NewSlot, workingDays: seq<int>, today: int, days: nat, iso: int -> string) {
    exists day :: today <= day < today + days && Weekday(day) in workingDays && s.date == iso(day)
  }

  /** Every planned slot belongs to the doctor and to one of the first `days`
      days whose weekday is a working day. */
  lemma {:induction false} PlannedSlotsOnWorkingDays(doctorId: string, workingDays: seq<int>, window: Option<(int, int)>,
                                                      duration: int, today: int, iso: int -> string, timeText: int -> string,
                                                      days: nat, i: int)
    requires duration > 0
    requires 0 <= i < |PlannedSlots(doctorId, workingDays, window, duration, today, iso, timeText, days)|
    ensures PlannedSlots(doctorId, workingDays, window, duration, today, iso, timeText, days)[i].doctorId == doctorId
    ensures OnWorkingDay(PlannedSlots(doctorId, workingDays, window, duration, today, iso, timeText, days)[i], workingDays, today, days, iso)
  {
    var prev := PlannedSlots(doctorId, workingDays, window, duration, today, iso, timeText, days - 1);
    var last := today + days - 1;
    if i < |prev| {
      PlannedSlotsOnWorkingDays(doctorId, workingDays, window, duration, today, iso, timeText, days - 1, i);
      var day :| today <= day < today + days - 1 && Weekday(day) in workingDays && prev[i].date == iso(day);
      assert today <= day < today + days;
    } else {
      var plan := DayPlan(doctorId, workingDays, window, duration, last, iso, timeText);
      assert today <= last < today + days && Weekday(last) in workingDays && plan[i - |prev|].date == iso(last);
    }
  }

  /** On a working day the slots are exactly the times start, start + d, …
      strictly before the end. */
  lemma DayPlanTimes(doctorId: string, workingDays: seq<int>, start: int, end: int,
                     duration: int, day: int, iso: int -> string, timeText: int -> string, t: int)
    requires duration > 0
    requires Weekday(day) in workingDays
    requires start <= t < end && OnGrid(t, start, duration)
    ensures NewSlot(doctorId, iso(day), timeText(t)) in DayPlan(doctorId, workingDays, Some((start, end)), duration, day, iso, timeText)
  {
    DayTimesMembers(start, end, duration, t);
    var times := DayTimes(start, end, duration);
    var i :| 0 <= i < |times| && times[i] == t;
    assert DayPlan(doctorId, workingDays, Some((start, end)), duration, day, iso, timeText)[i] == NewSlot(doctorId, iso(day), timeText(t));
  }

  lemma DaySlotsStep(doctorId: string, date: string, m: int, end: int, d: int, timeText: int -> string)
    requires d > 0 && m < end
    ensures DaySlots(doctorId, date, DayTimes(m, end, d), timeText)
      == [NewSlot(doctorId, date, timeText(m))] + DaySlots(doctorId, date, DayTimes(m + d, end, d), timeText)
  {
  }

  lemma PlannedSlotsStep(doctorId: string, workingDays: seq<int>, window: Option<(int, int)>,
                         duration: int, today: int, iso: int -> string, timeText: int -> string, days: nat)
    requires duration > 0
    ensures PlannedSlots(doctorId, workingDays, window, duration, today, iso, timeText, days + 1)
      == PlannedSlots(doctorId, workingDays, window, duration, today, iso, timeText, days)
         + DayPlan(doctorId, workingDays, window, duration, today + days, iso, timeText)
  {
  }

  lemma AppendAssoc<T>(a: seq<T>, b: seq<T>, c: seq<T>)
    ensures (a + b) + c == a + (b + c)
  {
  }

  /** The inner loop of `generateSlots`: pushes the day's slots from `start`
      in steps of `duration` while strictly before `end`. */
  method PushDay(slots0: seq<NewSlot>, doctorId: string, dateStr: string, start: int, end: int, duration: int,
              timeText: int -> string)
    returns (slots: seq<NewSlot>)
    requires duration > 0
    ensures slots == slots0 + DaySlots(doctorId, dateStr, DayTimes(start, end, duration), timeText)
  {
    slots := slots0;
    var m := start;
    while m < end
      invariant slots + DaySlots(doctorId, dateStr, DayTimes(m, end, duration), timeText)
        == slots0 + DaySlots(doctorId, dateStr, DayTimes(start, end, duration), timeText)
      decreases end - m
    {
      DaySlotsStep(doctorId, dateStr, m, end, duration, timeText);
      AppendAssoc(slots, [NewSlot(doctorId, dateStr, timeText(m))],
                  DaySlots(doctorId, dateStr, DayTimes(m + duration, end, duration), timeText));
      slots := slots + [NewSlot(doctorId, dateStr, timeText(m))];
      m := m + duration;
    }
    assert DaySlots(doctorId, dateStr, DayTimes(m, end, duration), timeText) == [];
    assert slots == slots + [];
  }

  /** One pass of the outer loop of `generateSlots`, for the day
      `today + d`: the day is skipped unless its weekday is a working day and
      the hours are numbers. */
  method PushWorkingDay(slots0: seq<NewSlot>, doctorId: string, workingDays: seq<int>, hours: Option<(int, int)>,
                        duration: int, today: int, iso: int -> string, timeText: int -> string, d: nat)
    returns (slots: seq<NewSlot>)
    requires duration > 0
    requires slots0 == PlannedSlots(doctorId, workingDays, hours, duration, today, iso, timeText, d)
    ensures slots == PlannedSlots(doctorId, workingDays, hours, duration, today, iso, timeText, d + 1)
  {
    var day := today + d;
    if Weekday(day) in workingDays && hours.Some? {
      slots := PushDay(slots0, doctorId, iso(day), hours.value.0, hours.value.1, duration, timeText);
    } else {
      slots := slots0;
      assert slots == slots0 + [];
    }
    PlannedSlotsStep(doctorId, workingDays, hours, duration, today, iso, timeText, d);
  }

  /** The outer loop of `generateSlots` over the day offsets `0 … days − 1`. */
  method PushDays(doctorId: string, workingDays: seq<int>, hours: Option<(int, int)>,
                  duration: int, days: nat, today: int, iso: int -> string, timeText: int -> string)
    returns (slots: seq<NewSlot>)
    requires duration > 0
    ensures slots == PlannedSlots(doctorId, workingDays, hours, duration, today, iso, timeText, days)
  {
    slots := [];
    var d: nat := 0;
    while d < days
      invariant d <= days
      invariant slots == PlannedSlots(doctorId, workingDays, hours, duration, today, iso, timeText, d)
    {
      slots := PushWorkingDay(slots, doctorId, workingDays, hours, duration, today, iso, timeText, d);
      d := d + 1;
    }
  }

  /** The slot rows of `generateSlots`. The working hours are parsed once:
      the code parses them again for every day, always to the same value. */
  method BuildSlots(doctorId: string, workingDays: seq<int>, startTime: string, endTime: string,
                    duration: int, daysAhead: int, c: Clock)
    returns (slots: seq<NewSlot>)
    requires duration > 0
    ensures slots == PlannedSlots(doctorId, workingDays, Window(startTime, endTime), duration, c.today, c.iso, SlotClock,
                                  if daysAhead > 0 then daysAhead else 0)
  {
    var hours := Window(startTime, endTime);
    slots := PushDays(doctorId, workingDays, hours, duration, if daysAhead > 0 then daysAhead else 0, c.today, c.iso, SlotClock);
  }

  /** `upsert(rows, { ignoreDuplicates: true })` on the conflict key: a row
      whose key is already present is skipped. */
  function InsertAbsent(keys: seq<NewSlot>, batch: seq<NewSlot>): seq<NewSlot> {
    if |batch| == 0 then keys
    else
      var k := InsertAbsent(keys, batch[..|batch| - 1]);
      if batch[|batch| - 1] in k then k else k + [batch[|batch| - 1]]
  }

  predicate NoDuplicates<T(==)>(s: seq<T>) {
    forall i, j :: 0 <= i < j < |s| ==> s[i] != s[j]
  }

  lemma {:induction false} InsertAbsentMembers(keys: seq<NewSlot>, batch: seq<NewSlot>)
    ensures forall x :: x in InsertAbsent(keys, batch) <==> x in keys || x in batch
    ensures NoDuplicates(keys) ==> NoDuplicates(InsertAbsent(keys, batch))
  {
    if |batch| > 0 {
      InsertAbsentMembers(keys, batch[..|batch| - 1]);
      assert batch == batch[..|batch| - 1] + [batch[|batch| - 1]];
    }
  }

  /** Upserting `a` and then `b` is upserting `a + b`; this is what lets the
      rows go in batches. */
  lemma {:induction false} InsertAbsentAppend(keys: seq<NewSlot>, a: seq<NewSlot>, b: seq<NewSlot>)
    ensures InsertAbsent(InsertAbsent(keys, a), b) == InsertAbsent(keys, a + b)
  {
    if |b| > 0 {
      InsertAbsentAppend(keys, a, b[..|b| - 1]);
      assert (a + b)[..|a + b| - 1] == a + b[..|b| - 1];
    } else {
      assert a + b == a;
    }
  }

  /** Upserting rows that are all present already changes nothing. */
  lemma {:induction false} InsertAbsentPresent(keys: seq<NewSlot>, batch: seq<NewSlot>)
    requires forall x :: x in batch ==> x in keys
    ensures InsertAbsent(keys, batch) == keys
  {
    if |batch| > 0 {
      InsertAbsentPresent(keys, batch[..|batch| - 1]);
      assert batch[|batch| - 1] in batch;
    }
  }

  /** Running the same generation twice leaves the table as once: no slot is
      ever duplicated. */
  lemma RegenerationIsIdempotent(keys: seq<NewSlot>, batch: seq<NewSlot>)
    ensures InsertAbsent(InsertAbsent(keys, batch), batch) == InsertAbsent(keys, batch)
  {
    InsertAbsentMembers(keys, batch);
    InsertAbsentPresent(InsertAbsent(keys, batch), batch);
  }

  /** The slot inventory: the conflict keys of `appointment_slots`, in
      insertion order. */
  class SlotInventory {
    var keys: seq<NewSlot>

    constructor(keys: seq<NewSlot>)
      ensures this.keys == keys
    {
      this.keys := keys;
    }

    method Upsert(batch: seq<NewSlot>)
      modifies this
      ensures keys == InsertAbsent(old(keys), batch)
    {
      keys := InsertAbsent(keys, batch);
    }

    /** `generateSlots`: builds the rows, then upserts them 100 at a time. */
    method GenerateSlots(doctorId: string, workingDays: seq<int>, startTime: string, endTime: string,
                         duration: int, daysAhead: int, c: Clock)
      requires duration > 0
      modifies this
      ensures keys == InsertAbsent(old(keys), PlannedSlots(doctorId, workingDays, Window(startTime, endTime), duration,
                                                          c.today, c.iso, SlotClock, if daysAhead > 0 then daysAhead else 0))
    {
      var slots := BuildSlots(doctorId, workingDays, startTime, endTime, duration, daysAhead, c);
      if |slots| > 0 {
        var i := 0;
        while i < |slots|
          invariant 0 <= i <= |slots|
          invariant keys == InsertAbsent(old(keys), slots[..i])
          decreases |slots| - i
        {
          var stop := if i + 100 < |slots| then i + 100 else |slots|;
          InsertAbsentAppend(old(keys), slots[..i], slots[i..stop]);
          assert slots[..i] + slots[i..stop] == slots[..stop];
          Upsert(slots[i..stop]);
          i := stop;
        }
        assert slots[..i] == slots;
      } else {
        assert InsertAbsent(keys, slots) == keys;
      }
    }
  }

  // ---------------------------------------------------------------------------
  // Dates

  /** `resolveDate`: absent, empty or "today" is today, "tomorrow" is the next
      day, and any other text is returned as it is. */
  function ResolveDate(s: Option<string>, c: Clock): (r: string)
    ensures s.None? || s.value == "" || s.value == "today" ==> r == TodayIso(c)
    ensures s == Some("tomorrow") ==> r == TomorrowIso(c)
    ensures s.Some? && s.value !in {"", "today", "tomorrow"} ==> r == s.value
  {
    if s.None? || s.value == "" || s.value == "today" then TodayIso(c)
    else if s.value == "tomorrow" then TomorrowIso(c)
    else s.value
  }

  /** Resolving an already resolved date changes nothing, as long as the
      clock's dates are not the words themselves. */
  lemma ResolveDateIdempotent(s: Option<string>, c: Clock)
    requires TodayIso(c) !in {"", "today", "tomorrow"} && TomorrowIso(c) !in {"", "today", "tomorrow"}
    ensures ResolveDate(Some(ResolveDate(s, c)), c) == ResolveDate(s, c)
  {
  }
}
