/** The daily job that keeps every active doctor's slots rolling thirty days
    ahead: the service-key check, `generateTimeSlots`, the start of the
    missing range, and the per-doctor loop with its batched inserts and
    counters. */
module RegenerateSlots {
  import opened Common
  import opened Domain
  import opened SearchService

  // ---------------------------------------------------------------------------
  // Authorisation

  /** `authHeader?.includes(serviceKey ?? '')` */
  function Authorized(header: Option<string>, serviceKey: Option<string>): (r: bool)
    ensures header.None? ==> !r
    ensures header.Some? && serviceKey.Some? ==> (r <==> Contains(header.value, serviceKey.value))
  {
    header.Some? && Contains(header.value, serviceKey.GetOr(""))
  }

  /** When the service key is not configured, any request that carries an
      Authorization header at all is let through. */
  lemma AuthorizedWithoutKey(header: string)
    ensures Authorized(Some(header), None)
  {
    assert MatchAt(header, "", 0);
  }

  // ---------------------------------------------------------------------------
  // generateTimeSlots

  /** The minutes `m, m + d, …` of the slots that end by `end`. */
  function FitTimes(m: int, end: int, d: int): seq<int>
    requires d > 0
    decreases end - m
  {
    if m + d <= end then [m] + FitTimes(m + d, end, d) else []
  }

  function HourMinutes(times: seq<int>): (r: seq<string>)
    ensures |r| == |times|
    ensures forall i :: 0 <= i < |r| ==> r[i] == HourMinute(times[i])
  {
    seq(|times|, i requires 0 <= i < |times| => HourMinute(times[i]))
  }

  /** Whether the loop of `generateTimeSlots(start, end, d)` ends: always
      for a positive duration; otherwise only when its condition is false
      from the start, because either time is not a number or the first slot
      already runs past the end. */
  predicate LoopEnds(start: string, end: string, d: int) {
    var w := Window(start, end);
    d > 0 || w.None? || w.value.0 + d > w.value.1
  }

  /** `generateTimeSlots(start, end, d)`; no slot when either time is not a
      number. */
  function TimeSlots(start: string, end: string, d: int): seq<string>
    requires LoopEnds(start, end, d)
  {
    var w := Window(start, end);
    if w.None? || d <= 0 then [] else HourMinutes(FitTimes(w.value.0, w.value.1, d))
  }

  lemma FitTimesStep(m: int, end: int, d: int)
    requires d > 0 && m + d <= end
    ensures HourMinutes(FitTimes(m, end, d)) == [HourMinute(m)] + HourMinutes(FitTimes(m + d, end, d))
  {
  }

  /** The loop `while (current + durationMinutes <= endTotal)` from the
      minute `start` to the minute `endTotal`; with a duration of zero or
      less it ends only when its condition is false from the start. */
  method SlotLoop(start: int, endTotal: int, d: int) returns (slots: seq<string>)
    requires d > 0 || start + d > endTotal
    ensures d > 0 ==> slots == HourMinutes(FitTimes(start, endTotal, d))
    ensures d <= 0 ==> slots == []
  {
    slots := [];
    var current := start;
    while current + d <= endTotal
      invariant d > 0 ==> slots + HourMinutes(FitTimes(current, endTotal, d)) == HourMinutes(FitTimes(start, endTotal, d))
      invariant d <= 0 ==> slots == [] && current + d > endTotal
      decreases endTotal - current
    {
      FitTimesStep(current, endTotal, d);
      AppendAssoc(slots, [HourMinute(current)], HourMinutes(FitTimes(current + d, endTotal, d)));
      slots := slots + [HourMinute(current)];
      current := current + d;
    }
    assert d > 0 ==> FitTimes(current, endTotal, d) == [];
    assert slots == slots + [];
  }

  /** `generateTimeSlots`: both times parsed to minutes, then the loop. */
  method GenerateTimeSlots(start: string, end: string, d: int) returns (slots: seq<string>)
    requires LoopEnds(start, end, d)
    ensures slots == TimeSlots(start, end, d)
  {
    var w := Window(start, end);
    if w.None? {
      return [];
    }
    slots := SlotLoop(w.value.0, w.value.1, d);
  }

  /** A minute is emitted exactly when the slot starting there ends by `end`
      and it is a whole number of durations past the start. */
  lemma {:induction false} FitTimesMembers(m: int, end: int, d: int, t: int)
    requires d > 0
    ensures t in FitTimes(m, end, d) <==> m <= t && t + d <= end && OnGrid(t, m, d)
    decreases end - m
  {
    OnGridStep(t, m, d);
    if m + d <= end {
      FitTimesMembers(m + d, end, d, t);
    }
  }

  /** When the hours are shorter than one slot, nothing is generated. */
  lemma FitTimesShortDay(m: int, end: int, d: int)
    requires d > 0 && end - m < d
    ensures FitTimes(m, end, d) == []
  {
  }

  /** With a duration of zero or less, once the loop condition of
      `generateTimeSlots` holds it holds after any number `k` of iterations:
      `current` never grows. A doctor with `slot_duration` 0 and the default
      09:00–17:00 hours (540 + 0 <= 1020) hangs the job. */
  lemma {:induction false} LoopNeverEnds(m: int, end: int, d: int, k: nat)
    requires d <= 0 && m + d <= end
    ensures m + k * d + d <= end
  {
    if k > 0 {
      LoopNeverEnds(m, end, d, k - 1);
      assert m + k * d == m + (k - 1) * d + d;
    }
  }

  /** The generator with the evident guard: a duration of zero or less
      yields no slot instead of looping, for every input, and any other
      duration gives what `generateTimeSlots` gives (the times of
      `FitTimesMembers`). */
  method GenerateTimeSlotsGuarded(start: string, end: string, d: int) returns (slots: seq<string>)
    ensures d <= 0 ==> slots == []
    ensures d > 0 ==> slots == TimeSlots(start, end, d)
  {
    if d <= 0 {
      return [];
    }
    slots := GenerateTimeSlots(start, end, d);
  }

  /** The two end conditions compared: every time this job generates is also
      generated by `generateSlots` (which only asks the slot to start before
      the end), and the extra times of `generateSlots` are exactly those whose
      slot would run past the end. */
  lemma EndConditionsCompared(m: int, end: int, d: int, t: int)
    requires d > 0
    ensures t in FitTimes(m, end, d) ==> t in DayTimes(m, end, d)
    ensures t in DayTimes(m, end, d) && t !in FitTimes(m, end, d) <==> t in DayTimes(m, end, d) && t + d > end
  {
    FitTimesMembers(m, end, d, t);
    DayTimesMembers(m, end, d, t);
  }

  /** With 09:00–17:00 and 45-minute slots, `generateSlots` offers 16:30,
      a slot that ends at 17:15, and this job does not. */
  lemma GeneratorsDisagree()
    ensures 990 in DayTimes(540, 1020, 45) && 990 !in FitTimes(540, 1020, 45)
  {
    assert OnGrid(990, 540, 45) by {
      assert 990 == 540 + 10 * 45;
    }
    DayTimesMembers(540, 1020, 45, 990);
    FitTimesMembers(540, 1020, 45, 990);
  }

  // ---------------------------------------------------------------------------
  // One doctor

  /** A doctor's schedule columns, each possibly null. */
  datatype Schedule = Schedule(
    id: string,
    workingDays: Option<seq<int>>,
    startTime: Option<string>,
    endTime: Option<string>,
    duration: Option<int>)

  /** Monday to Friday, 09:00 to 17:00, 30 minutes. */
  function DaysOf(s: Schedule): seq<int> { s.workingDays.GetOr([1, 2, 3, 4, 5]) }
  function StartOf(s: Schedule): string { s.startTime.GetOr("09:00") }
  function EndOf(s: Schedule): string { s.endTime.GetOr("17:00") }
  function DurationOf(s: Schedule): int { s.duration.GetOr(30) }

  /** Whether the job gets past the doctor `s`: its slots already reach the
      horizon, none of the days it would fill is a working day, or the loop
      of `generateTimeSlots` ends on its hours. For any other doctor the job
      never finishes (see `LoopNeverEnds`). */
  predicate Finishes(s: Schedule, latest: Option<int>, today: int) {
    var from := StartFrom(latest, today);
    || from >= today + HorizonDays
    || (forall day :: from <= day < today + HorizonDays ==> Weekday(day) !in DaysOf(s))
    || LoopEnds(StartOf(s), EndOf(s), DurationOf(s))
  }

  lemma ScheduleDefaults(id: string)
    ensures var s := Schedule(id, None, None, None, None);
      DaysOf(s) == [1, 2, 3, 4, 5] && StartOf(s) == "09:00" && EndOf(s) == "17:00" && DurationOf(s) == 30
  {
  }

  const HorizonDays := 30

  /** `latest` is what the latest-slot query returns for the doctor `id`
      against `table`: the greatest day, today or later, on which one of its
      slots is dated, or `None` when it has no slot dated today or later. */
  ghost predicate LatestIn(table: seq<NewSlot>, id: string, today: int, iso: int -> string, latest: Option<int>) {
    && (latest.Some? ==>
          today <= latest.value && exists j :: 0 <= j < |table| && table[j].doctorId == id && table[j].date == iso(latest.value))
    && forall j, day :: 0 <= j < |table| && table[j].doctorId == id && table[j].date == iso(day) && today <= day
                        ==> latest.Some? && day <= latest.value
  }

  /** The day after the doctor's latest slot dated today or later, or today
      when there is none. */
  function StartFrom(latest: Option<int>, today: int): int {
    if latest.Some? then latest.value + 1 else today
  }

  /** The doctor's times of day, `generateTimeSlots` of its schedule. When
      that loop does not end, a doctor the job gets past reaches no working
      day, so the times are never used. */
  function TimesOf(s: Schedule): seq<string> {
    if LoopEnds(StartOf(s), EndOf(s), DurationOf(s)) then TimeSlots(StartOf(s), EndOf(s), DurationOf(s)) else []
  }

  /** The doctor's times, computed by `generateTimeSlots` when its loop
      ends; otherwise none (see `TimesOf`). */
  method ScheduleTimes(s: Schedule) returns (times: seq<string>)
    ensures times == TimesOf(s)
  {
    times := [];
    if LoopEnds(StartOf(s), EndOf(s), DurationOf(s)) {
      times := GenerateTimeSlots(StartOf(s), EndOf(s), DurationOf(s));
    }
  }

  /** One row per time of day, all on the date `dateStr`. */
  function DateRows(id: string, dateStr: string, times: seq<string>): (r: seq<NewSlot>)
    ensures |r| == |times|
    ensures forall k :: 0 <= k < |r| ==> r[k] == NewSlot(id, dateStr, times[k])
  {
    seq(|times|, i requires 0 <= i < |times| => NewSlot(id, dateStr, times[i]))
  }

  /** The rows of one day: the times when its weekday is a working day. */
  function RegenDay(s: Schedule, day: int, times: seq<string>, iso: int -> string): (r: seq<NewSlot>)
    ensures |r| > 0 ==> Weekday(day) in DaysOf(s)
    ensures forall k :: 0 <= k < |r| ==> r[k].doctorId == s.id && r[k].date == iso(day)
  {
    if Weekday(day) !in DaysOf(s) then [] else DateRows(s.id, iso(day), times)
  }

  /** The rows of the days `from`, …, `until − 1`. */
  function RegenDays(s: Schedule, from: int, until: int, times: seq<string>, iso: int -> string): seq<NewSlot>
    decreases until - from
  {
    if until <= from then [] else RegenDays(s, from, until - 1, times, iso) + RegenDay(s, until - 1, times, iso)
  }

  /** Everything the job inserts for one doctor: the working days from
      `StartFrom` up to, not including, the horizon. */
  function DoctorRows(s: Schedule, times: seq<string>, latest: Option<int>, today: int, iso: int -> string): seq<NewSlot>
  {
    var from := StartFrom(latest, today);
    if from >= today + HorizonDays then [] else RegenDays(s, from, today + HorizonDays, times, iso)
  }

  predicate InRange(r: NewSlot, s: Schedule, from: int, until: int, iso: int -> string) {
    exists day :: from <= day < until && Weekday(day) in DaysOf(s) && r.date == iso(day)
  }

  lemma {:induction false} RegenDaysInRange(s: Schedule, from: int, until: int, times: seq<string>,
                                            iso: int -> string, i: int)
    requires 0 <= i < |RegenDays(s, from, until, times, iso)|
    ensures RegenDays(s, from, until, times, iso)[i].doctorId == s.id
    ensures InRange(RegenDays(s, from, until, times, iso)[i], s, from, until, iso)
    decreases until - from
  {
    var prev := RegenDays(s, from, until - 1, times, iso);
    var last := until - 1;
    if i < |prev| {
      RegenDaysInRange(s, from, until - 1, times, iso, i);
      var day :| from <= day < until - 1 && Weekday(day) in DaysOf(s) && prev[i].date == iso(day);
      assert from <= day < until;
    } else {
      var plan := RegenDay(s, last, times, iso);
      assert from <= last < until && Weekday(last) in DaysOf(s) && plan[i - |prev|].date == iso(last);
    }
  }

  /** Only working days in `[StartFrom, today + 30)` get rows: no day past
      the horizon, and no day up to `latest`; a doctor whose slots already
      reach the horizon gets none. */
  lemma DoctorRowsInRange(s: Schedule, times: seq<string>, latest: Option<int>, today: int, iso: int -> string, i: int)
    requires 0 <= i < |DoctorRows(s, times, latest, today, iso)|
    ensures StartFrom(latest, today) < today + HorizonDays
    ensures DoctorRows(s, times, latest, today, iso)[i].doctorId == s.id
    ensures InRange(DoctorRows(s, times, latest, today, iso)[i], s, StartFrom(latest, today), today + HorizonDays, iso)
  {
    var from := StartFrom(latest, today);
    RegenDaysInRange(s, from, today + HorizonDays, times, iso, i);
  }

  /** The rows of one day pushed one by one (`for (const time of slots)`). */
  method PushTimes(rows0: seq<NewSlot>, id: string, dateStr: string, times: seq<string>)
    returns (rows: seq<NewSlot>)
    ensures rows == rows0 + DateRows(id, dateStr, times)
  {
    rows := rows0;
    var k := 0;
    while k < |times|
      invariant 0 <= k <= |times|
      invariant rows == rows0 + DateRows(id, dateStr, times[..k])
    {
      assert DateRows(id, dateStr, times[..k + 1]) == DateRows(id, dateStr, times[..k]) + [NewSlot(id, dateStr, times[k])];
      rows := rows + [NewSlot(id, dateStr, times[k])];
      k := k + 1;
    }
    assert times[..k] == times;
  }

  lemma RegenDaysStep(s: Schedule, from: int, day: int, times: seq<string>, iso: int -> string)
    requires from <= day
    ensures RegenDays(s, from, day + 1, times, iso) == RegenDays(s, from, day, times, iso) + RegenDay(s, day, times, iso)
  {
  }

  /** One day of the cursor loop: its rows pushed when it is a working day. */
  method PushDay(rows0: seq<NewSlot>, s: Schedule, day: int, times: seq<string>, iso: int -> string)
    returns (rows: seq<NewSlot>)
    ensures rows == rows0 + RegenDay(s, day, times, iso)
  {
    if Weekday(day) in DaysOf(s) {
      rows := PushTimes(rows0, s.id, iso(day), times);
    } else {
      rows := rows0;
      assert rows == rows0 + [];
    }
  }

  /** The cursor loop: from `from` up to the horizon, one day at a time,
      pushing `times` on each working day. The code calls
      `generateTimeSlots` again for each working day; it is a function of
      the schedule alone, so the times are computed once here. */
  method CollectRows(s: Schedule, from: int, horizon: int, times: seq<string>, iso: int -> string)
    returns (rows: seq<NewSlot>)
    requires from < horizon
    ensures rows == RegenDays(s, from, horizon, times, iso)
  {
    rows := [];
    var cursor := from;
    while cursor < horizon
      invariant from <= cursor <= horizon
      invariant rows == RegenDays(s, from, cursor, times, iso)
    {
      RegenDaysStep(s, from, cursor, times, iso);
      rows := PushDay(rows, s, cursor, times, iso);
      cursor := cursor + 1;
    }
  }

  // ---------------------------------------------------------------------------
  // Batched inserts

  const BatchSize := 200

  /** How many of `n` rows are inserted when the batches start at `i`,
      `i + 200`, … and `fails(j)` says whether the batch starting at row `j`
      is refused; the first refusal ends the doctor's processing. */
  function InsertedFrom(n: nat, fails: nat -> bool, i: nat): (r: nat)
    ensures i <= n ==> i <= r <= n
    ensures i > n ==> r == n
    decreases n - i
  {
    if i >= n then n else if fails(i) then i else InsertedFrom(n, fails, i + BatchSize)
  }

  /** Whether one of the batches starting at `i`, `i + 200`, … is refused. */
  function FailsFrom(n: nat, fails: nat -> bool, i: nat): (r: bool)
    ensures !r ==> InsertedFrom(n, fails, i) == n
    decreases n - i
  {
    if i >= n then false else fails(i) || FailsFrom(n, fails, i + BatchSize)
  }

  /** What one doctor contributes: the rows inserted and whether processing
      stopped on an error. */
  datatype DoctorOutcome = DoctorOutcome(inserted: seq<NewSlot>, failed: bool)

  function Outcome(s: Schedule, times: seq<string>, latest: Option<int>, today: int, iso: int -> string,
                   fails: nat -> bool): (o: DoctorOutcome)
    ensures |o.inserted| <= |DoctorRows(s, times, latest, today, iso)|
  {
    var rows := DoctorRows(s, times, latest, today, iso);
    DoctorOutcome(rows[..InsertedFrom(|rows|, fails, 0)], FailsFrom(|rows|, fails, 0))
  }

  /** The refusals of one doctor's batches. */
  function BatchFails(fails: (string, nat) -> bool, id: string): nat -> bool {
    (j: nat) => fails(id, j)
  }

  /** Over a list of doctors: every inserted row, in order, and the number of
      doctors that failed. */
  function RunRows(doctors: seq<Schedule>, timesOf: Schedule -> seq<string>,
                   latest: string -> Option<int>, today: int, iso: int -> string,
                   fails: (string, nat) -> bool): seq<NewSlot>
  {
    if |doctors| == 0 then []
    else
      var s := doctors[|doctors| - 1];
      RunRows(doctors[..|doctors| - 1], timesOf, latest, today, iso, fails)
      + Outcome(s, timesOf(s), latest(s.id), today, iso, BatchFails(fails, s.id)).inserted
  }

  function RunErrors(doctors: seq<Schedule>, timesOf: Schedule -> seq<string>,
                   latest: string -> Option<int>, today: int, iso: int -> string,
                     fails: (string, nat) -> bool): (r: nat)
    ensures r <= |doctors|
  {
    if |doctors| == 0 then 0
    else
      var s := doctors[|doctors| - 1];
      RunErrors(doctors[..|doctors| - 1], timesOf, latest, today, iso, fails)
      + if Outcome(s, timesOf(s), latest(s.id), today, iso, BatchFails(fails, s.id)).failed then 1 else 0
  }

  lemma RunStep(doctors: seq<Schedule>, k: int, timesOf: Schedule -> seq<string>,
                latest: string -> Option<int>, today: int, iso: int -> string,
                fails: (string, nat) -> bool)
    requires 0 <= k < |doctors|
    ensures var s := doctors[k];
      var o := Outcome(s, timesOf(s), latest(s.id), today, iso, BatchFails(fails, s.id));
      && RunRows(doctors[..k + 1], timesOf, latest, today, iso, fails) == RunRows(doctors[..k], timesOf, latest, today, iso, fails) + o.inserted
      && RunErrors(doctors[..k + 1], timesOf, latest, today, iso, fails)
         == RunErrors(doctors[..k], timesOf, latest, today, iso, fails) + (if o.failed then 1 else 0)
  {
    assert doctors[..k + 1][..k] == doctors[..k];
    assert doctors[..k + 1][k] == doctors[k];
  }

  /** The rows inserted for a doctor are a prefix of its rows, all of them in
      its range of working days. */
  lemma OutcomeInRange(s: Schedule, times: seq<string>, latest: Option<int>, today: int, iso: int -> string,
                       fails: nat -> bool, i: int)
    requires 0 <= i < |Outcome(s, times, latest, today, iso, fails).inserted|
    ensures Outcome(s, times, latest, today, iso, fails).inserted[i].doctorId == s.id
    ensures InRange(Outcome(s, times, latest, today, iso, fails).inserted[i], s, StartFrom(latest, today), today + HorizonDays, iso)
  {
    DoctorRowsInRange(s, times, latest, today, iso, i);
  }

  /** The statistics and the slot table of one run of the job. */
  class SlotRegeneration {
    var table: seq<NewSlot>
    var doctorsProcessed: nat
    var slotsCreated: nat
    var errors: nat

    constructor(table: seq<NewSlot>)
      ensures this.table == table
      ensures doctorsProcessed == 0 && slotsCreated == 0 && errors == 0
    {
      this.table := table;
      doctorsProcessed := 0;
      slotsCreated := 0;
      errors := 0;
    }

    /** Inserts `rows` 200 at a time; a refused batch raises, so the caller
        counts an error and the later batches are not tried. */
    method InsertBatches(rows: seq<NewSlot>, fails: nat -> bool) returns (failed: bool)
      modifies this
      ensures table == old(table) + rows[..InsertedFrom(|rows|, fails, 0)]
      ensures slotsCreated == old(slotsCreated) + InsertedFrom(|rows|, fails, 0)
      ensures failed == FailsFrom(|rows|, fails, 0)
      ensures doctorsProcessed == old(doctorsProcessed) && errors == old(errors)
    {
      var i := 0;
      while i < |rows|
        invariant 0 <= i <= |rows|
        invariant InsertedFrom(|rows|, fails, 0) == InsertedFrom(|rows|, fails, i)
        invariant FailsFrom(|rows|, fails, 0) == FailsFrom(|rows|, fails, i)
        invariant table == old(table) + rows[..i]
        invariant slotsCreated == old(slotsCreated) + i
        invariant doctorsProcessed == old(doctorsProcessed) && errors == old(errors)
        decreases |rows| - i
      {
        var stop := if i + BatchSize < |rows| then i + BatchSize else |rows|;
        var batch := rows[i..stop];
        if fails(i) {
          return true;
        }
        assert rows[..i] + batch == rows[..stop];
        table := table + batch;
        slotsCreated := slotsCreated + |batch|;
        i := i + BatchSize;
        if i > |rows| {
          i := |rows|;
        }
      }
      return false;
    }

    /** The body of the per-doctor `try`: a doctor already covered to the
        horizon only counts as processed; otherwise its rows are built from
        its times and inserted (`FillDays`). */
    method RegenerateDoctor(s: Schedule, latest: Option<int>, today: int, iso: int -> string, fails: nat -> bool)
      requires Finishes(s, latest, today)
      modifies this
      ensures var o := Outcome(s, TimesOf(s), latest, today, iso, fails);
        && table == old(table) + o.inserted
        && slotsCreated == old(slotsCreated) + |o.inserted|
        && doctorsProcessed == old(doctorsProcessed) + (if o.failed then 0 else 1)
        && errors == old(errors) + (if o.failed then 1 else 0)
    {
      var horizon := today + HorizonDays;
      var startFrom := StartFrom(latest, today);
      if startFrom >= horizon {
        doctorsProcessed := doctorsProcessed + 1;
        assert table == table + [];
        return;
      }
      var times := ScheduleTimes(s);
      FillDays(s, times, latest, today, iso, fails);
    }

    /** The rows of the days from the start day up to the horizon, inserted
        in batches; the doctor counts as processed unless an insert failed,
        in which case it counts as an error. */
    method FillDays(s: Schedule, times: seq<string>, latest: Option<int>, today: int, iso: int -> string,
                    fails: nat -> bool)
      requires StartFrom(latest, today) < today + HorizonDays
      modifies this
      ensures var o := Outcome(s, times, latest, today, iso, fails);
        && table == old(table) + o.inserted
        && slotsCreated == old(slotsCreated) + |o.inserted|
        && doctorsProcessed == old(doctorsProcessed) + (if o.failed then 0 else 1)
        && errors == old(errors) + (if o.failed then 1 else 0)
    {
      var rows := CollectRows(s, StartFrom(latest, today), today + HorizonDays, times, iso);
      ghost var o := Outcome(s, times, latest, today, iso, fails);
      assert o.inserted == rows[..InsertedFrom(|rows|, fails, 0)] && o.failed == FailsFrom(|rows|, fails, 0) by {
        assert rows == DoctorRows(s, times, latest, today, iso);
      }
      if |rows| > 0 {
        var failed := InsertBatches(rows, fails);
        if failed {
          errors := errors + 1;
          return;
        }
      } else {
        assert table == table + rows[..InsertedFrom(|rows|, fails, 0)];
      }
      doctorsProcessed := doctorsProcessed + 1;
    }

    /** `for (const doctor of doctors)`: one failing doctor never stops the
        others. */
    method Run(doctors: seq<Schedule>, latest: string -> Option<int>, today: int, iso: int -> string,
               fails: (string, nat) -> bool)
      requires forall s :: s in doctors ==> Finishes(s, latest(s.id), today)
      requires forall s :: s in doctors ==> LatestIn(table, s.id, today, iso, latest(s.id))
      modifies this
      ensures table == old(table) + RunRows(doctors, TimesOf, latest, today, iso, fails)
      ensures slotsCreated == old(slotsCreated) + |RunRows(doctors, TimesOf, latest, today, iso, fails)|
      ensures errors == old(errors) + RunErrors(doctors, TimesOf, latest, today, iso, fails)
      ensures doctorsProcessed + errors == old(doctorsProcessed) + old(errors) + |doctors|
      ensures forall r, e :: r in RunRows(doctors, TimesOf, latest, today, iso, fails) && e in old(table) ==>
        r.doctorId != e.doctorId || r.date != e.date
    {
      RunAddsNoExistingSlot(doctors, table, TimesOf, latest, today, iso, fails);
      var k := 0;
      ghost var done: seq<NewSlot> := [];
      ghost var failures: nat := 0;
      while k < |doctors|
        invariant 0 <= k <= |doctors|
        invariant done == RunRows(doctors[..k], TimesOf, latest, today, iso, fails)
        invariant failures == RunErrors(doctors[..k], TimesOf, latest, today, iso, fails)
        invariant table == old(table) + done
        invariant slotsCreated == old(slotsCreated) + |done|
        invariant errors == old(errors) + failures
        invariant doctorsProcessed + errors == old(doctorsProcessed) + old(errors) + k
      {
        var s := doctors[k];
        ghost var o := Outcome(s, TimesOf(s), latest(s.id), today, iso, BatchFails(fails, s.id));
        RunStep(doctors, k, TimesOf, latest, today, iso, fails);
        RegenerateDoctor(s, latest(s.id), today, iso, BatchFails(fails, s.id));
        AppendAssoc(old(table), done, o.inserted);
        done := done + o.inserted;
        failures := failures + if o.failed then 1 else 0;
        k := k + 1;
      }
      assert doctors[..k] == doctors;
    }
  }

  /** Row `r` is one of doctor `s`'s and lies on one of its working days in
      the range the job fills for it. */
  predicate GeneratedFor(r: NewSlot, s: Schedule, latest: string -> Option<int>, today: int, iso: int -> string) {
    r.doctorId == s.id && InRange(r, s, StartFrom(latest(s.id), today), today + HorizonDays, iso)
  }

  /** The rows of a run over `doctors` are those of a run over all but the
      last doctor, then the last doctor's. */
  lemma RunRowsLast(doctors: seq<Schedule>, timesOf: Schedule -> seq<string>,
                   latest: string -> Option<int>, today: int, iso: int -> string,
                    fails: (string, nat) -> bool)
    requires |doctors| > 0
    ensures var s := doctors[|doctors| - 1];
      RunRows(doctors, timesOf, latest, today, iso, fails)
      == RunRows(doctors[..|doctors| - 1], timesOf, latest, today, iso, fails)
         + Outcome(s, timesOf(s), latest(s.id), today, iso, BatchFails(fails, s.id)).inserted
  {
  }

  /** A row of a run over all doctors but the last is the same row of the
      run over all of them. */
  lemma RunRowsEarlier(doctors: seq<Schedule>, timesOf: Schedule -> seq<string>, latest: string -> Option<int>,
                       today: int, iso: int -> string, fails: (string, nat) -> bool, i: int)
    requires |doctors| > 0
    requires 0 <= i < |RunRows(doctors[..|doctors| - 1], timesOf, latest, today, iso, fails)|
    ensures i < |RunRows(doctors, timesOf, latest, today, iso, fails)|
    ensures RunRows(doctors, timesOf, latest, today, iso, fails)[i]
         == RunRows(doctors[..|doctors| - 1], timesOf, latest, today, iso, fails)[i]
  {
    RunRowsLast(doctors, timesOf, latest, today, iso, fails);
  }

  /** The rows of a run past those of all doctors but the last are the last
      doctor's, in its range. */
  lemma RunRowsOfLast(doctors: seq<Schedule>, timesOf: Schedule -> seq<string>, latest: string -> Option<int>,
                      today: int, iso: int -> string, fails: (string, nat) -> bool, i: int)
    requires |doctors| > 0
    requires |RunRows(doctors[..|doctors| - 1], timesOf, latest, today, iso, fails)| <= i
    requires i < |RunRows(doctors, timesOf, latest, today, iso, fails)|
    ensures GeneratedFor(RunRows(doctors, timesOf, latest, today, iso, fails)[i], doctors[|doctors| - 1],
                         latest, today, iso)
  {
    var s := doctors[|doctors| - 1];
    var prev := RunRows(doctors[..|doctors| - 1], timesOf, latest, today, iso, fails);
    var inserted := Outcome(s, timesOf(s), latest(s.id), today, iso, BatchFails(fails, s.id)).inserted;
    assert RunRows(doctors, timesOf, latest, today, iso, fails)[i] == inserted[i - |prev|] by {
      RunRowsLast(doctors, timesOf, latest, today, iso, fails);
    }
    assert GeneratedFor(inserted[i - |prev|], s, latest, today, iso) by {
      OutcomeInRange(s, timesOf(s), latest(s.id), today, iso, BatchFails(fails, s.id), i - |prev|);
    }
  }

  /** Every row a run inserts belongs to one of the doctors, the `k`-th, and
      lies on one of that doctor's working days in its missing range. */
  lemma {:induction false} RunRowsInRange(doctors: seq<Schedule>, timesOf: Schedule -> seq<string>,
                                          latest: string -> Option<int>, today: int,
                                          iso: int -> string, fails: (string, nat) -> bool, i: int)
    returns (k: int)
    requires 0 <= i < |RunRows(doctors, timesOf, latest, today, iso, fails)|
    ensures 0 <= k < |doctors|
    ensures GeneratedFor(RunRows(doctors, timesOf, latest, today, iso, fails)[i], doctors[k], latest, today, iso)
  {
    var init := doctors[..|doctors| - 1];
    if i < |RunRows(init, timesOf, latest, today, iso, fails)| {
      k := RunRowsInRange(init, timesOf, latest, today, iso, fails, i);
      RunRowsEarlier(doctors, timesOf, latest, today, iso, fails, i);
      assert init[k] == doctors[k];
    } else {
      RunRowsOfLast(doctors, timesOf, latest, today, iso, fails, i);
      k := |doctors| - 1;
    }
  }

  /** When `latest` answers the latest-slot query against the table, no row
      a run inserts has the doctor and the date of a row already there: every
      inserted day lies after the doctor's latest slot dated today or later. */
  lemma RunKeepsExistingSlots(doctors: seq<Schedule>, table: seq<NewSlot>, timesOf: Schedule -> seq<string>,
                              latest: string -> Option<int>, today: int,
                              iso: int -> string, fails: (string, nat) -> bool, i: int, j: int)
    requires forall s :: s in doctors ==> LatestIn(table, s.id, today, iso, latest(s.id))
    requires 0 <= i < |RunRows(doctors, timesOf, latest, today, iso, fails)|
    requires 0 <= j < |table|
    ensures RunRows(doctors, timesOf, latest, today, iso, fails)[i].doctorId != table[j].doctorId
         || RunRows(doctors, timesOf, latest, today, iso, fails)[i].date != table[j].date
  {
    var r := RunRows(doctors, timesOf, latest, today, iso, fails)[i];
    var k := RunRowsInRange(doctors, timesOf, latest, today, iso, fails, i);
    var s := doctors[k];
    var day :| StartFrom(latest(s.id), today) <= day < today + HorizonDays && Weekday(day) in DaysOf(s) && r.date == iso(day);
    assert LatestIn(table, s.id, today, iso, latest(s.id));
  }

  /** No row a run inserts has the doctor and the date of a row already in
      the table, when `latest` answers the latest-slot query against it. */
  lemma RunAddsNoExistingSlot(doctors: seq<Schedule>, table: seq<NewSlot>, timesOf: Schedule -> seq<string>,
                              latest: string -> Option<int>, today: int,
                              iso: int -> string, fails: (string, nat) -> bool)
    requires forall s :: s in doctors ==> LatestIn(table, s.id, today, iso, latest(s.id))
    ensures forall r, e :: r in RunRows(doctors, timesOf, latest, today, iso, fails) && e in table ==>
      r.doctorId != e.doctorId || r.date != e.date
  {
    var rows := RunRows(doctors, timesOf, latest, today, iso, fails);
    forall r, e | r in rows && e in table
      ensures r.doctorId != e.doctorId || r.date != e.date
    {
      var i :| 0 <= i < |rows| && rows[i] == r;
      var j :| 0 <= j < |table| && table[j] == e;
      RunKeepsExistingSlots(doctors, table, timesOf, latest, today, iso, fails, i, j);
    }
  }
}
