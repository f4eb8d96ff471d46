/** The hourly reminder job: the service-key check, then two sweeps over the
    appointments table. The first reminds the patients of tomorrow's
    confirmed appointments, the second those whose appointment today starts
    within the hour. Each reminder kind has a one-shot flag on the
    appointment, set only when the message went out. */
module SendReminders {
  import opened Common
  import opened Domain
  import RegenerateSlots

  // ---------------------------------------------------------------------------
  // Reminder kinds and their flags

  datatype Kind = DayBefore | HourBefore

  /** `reminder_sent_24h` or `reminder_sent_1h`. */
  function Flag(a: Appointment, k: Kind): bool {
    if k == DayBefore then a.reminderSent24h else a.reminderSent1h
  }

  function OtherKind(k: Kind): Kind {
    if k == DayBefore then HourBefore else DayBefore
  }

  /** `.update({ reminder_sent_…: true })` on one row. */
  function WithFlag(a: Appointment, k: Kind): (r: Appointment)
    ensures Flag(r, k)
    ensures Flag(r, OtherKind(k)) == Flag(a, OtherKind(k))
    ensures r.(reminderSent24h := a.reminderSent24h, reminderSent1h := a.reminderSent1h) == a
  {
    if k == DayBefore then a.(reminderSent24h := true) else a.(reminderSent1h := true)
  }

  /** The table after `.update({ reminder_sent_…: true }).eq('id', id)` for
      every id in `ids`. */
  function MarkSent(rows: seq<Appointment>, ids: set<string>, k: Kind): (r: seq<Appointment>)
    ensures |r| == |rows|
    ensures forall i :: 0 <= i < |rows| ==> r[i] == if rows[i].id in ids then WithFlag(rows[i], k) else rows[i]
  {
    seq(|rows|, i requires 0 <= i < |rows| => if rows[i].id in ids then WithFlag(rows[i], k) else rows[i])
  }

  lemma MarkSentAgain(rows: seq<Appointment>, ids: set<string>, id: string, k: Kind)
    ensures MarkSent(MarkSent(rows, ids, k), {id}, k) == MarkSent(rows, ids + {id}, k)
  {
    var a, b := MarkSent(MarkSent(rows, ids, k), {id}, k), MarkSent(rows, ids + {id}, k);
    forall i | 0 <= i < |rows|
      ensures a[i] == b[i]
    {
      if rows[i].id in ids && rows[i].id == id {
        assert WithFlag(WithFlag(rows[i], k), k) == WithFlag(rows[i], k);
      }
    }
  }

  // ---------------------------------------------------------------------------
  // Selection

  /** The 24-hour query: confirmed, dated tomorrow, not yet reminded. */
  function DueDayBefore(tomorrow: string): Appointment -> bool {
    (a: Appointment) => a.date == tomorrow && a.status == Confirmed && !a.reminderSent24h
  }

  /** The 1-hour query: confirmed, dated today, not yet reminded, with a time
      of day between `from` and `until` minutes inclusive. `seconds` reads the
      `time` column; the bounds are `HH:MM` strings, which the database reads
      as that minute's first second. */
  function DueWithinHour(today: string, from: int, until: int, seconds: string -> int): Appointment -> bool {
    (a: Appointment) => a.date == today && a.status == Confirmed && !a.reminderSent1h
      && from * 60 <= seconds(a.time) <= until * 60
  }

  lemma DueDayBeforeUnflagged(tomorrow: string, a: Appointment)
    ensures DueDayBefore(tomorrow)(a) <==> a.date == tomorrow && a.status == Confirmed && !Flag(a, DayBefore)
  {
  }

  /** The upper bound of the 1-hour window as the code computes it: the
      `HH:MM` of now plus one hour, which starts again at 00:00 after
      midnight. */
  function HourAheadAsWritten(nowMinute: int): (r: int)
    ensures 0 <= r < 1440
  {
    (nowMinute + 60) % 1440
  }

  /** The upper bound the 1-hour window needs: one hour after now, counted
      on today's clock without starting again at midnight. */
  function HourAhead(nowMinute: int): (r: int)
    ensures r == nowMinute + 60
  {
    nowMinute + 60
  }

  /** From 23:00 on the window the code queries is empty: its upper bound has
      gone back past midnight, below its lower bound. At 23:10 an appointment
      at 23:30 that has not been reminded is not selected. */
  lemma LateHourWindowEmpty(today: string, nowMinute: int, seconds: string -> int, a: Appointment)
    requires 1380 <= nowMinute < 1440
    ensures !DueWithinHour(today, nowMinute, HourAheadAsWritten(nowMinute), seconds)(a)
  {
    assert HourAheadAsWritten(nowMinute) == nowMinute - 1380;
  }

  /** With the corrected bound every unreminded confirmed appointment of today
      that starts in the next hour is selected, whatever the time of day. */
  lemma HourWindowCoversNextHour(today: string, nowMinute: int, seconds: string -> int, a: Appointment)
    requires a.date == today && a.status == Confirmed && !a.reminderSent1h
    requires nowMinute * 60 <= seconds(a.time) <= nowMinute * 60 + 3600
    ensures DueWithinHour(today, nowMinute, HourAhead(nowMinute), seconds)(a)
  {
    assert HourAhead(nowMinute) * 60 == nowMinute * 60 + 3600;
  }

  // ---------------------------------------------------------------------------
  // Messages

  function DoctorName(a: Appointment): string {
    if a.doctor.Some? then a.doctor.value.name else "Doctor"
  }

  function HospitalName(a: Appointment): string {
    if a.hospital.Some? then a.hospital.value.name else "Hospital"
  }

  function HospitalAddress(a: Appointment): string {
    if a.hospital.Some? && a.hospital.value.address.Some? then a.hospital.value.address.value else ""
  }

  const DoctorLine := "\U{1F468}\U{200D}\U{2695}\U{FE0F} Dr. "
  const DayBeforeHead := "\U{23F0} *Reminder* \U{2014} You have an appointment *tomorrow* at *"
  const HourBeforeHead := "\U{1F514} *1-hour reminder* \U{2014} Your appointment is in ~1 hour!\n\n" + DoctorLine

  /** The text before the time. */
  function ReminderHead(a: Appointment, k: Kind): string {
    if k == DayBefore then DayBeforeHead else HourBeforeHead + DoctorName(a) + " at "
  }

  /** The 24-hour reminder's text after the doctor's name. */
  function DayBeforeClosing(a: Appointment): string {
    "\n" + "\U{1F3E5} " + HospitalName(a) + "\n\n" + "Reply *CANCEL* if you need to cancel."
  }

  /** The text after the time. */
  function ReminderTail(a: Appointment, k: Kind): string {
    if k == DayBefore then "*\n\n" + DoctorLine + DoctorName(a) + DayBeforeClosing(a)
    else
      "\n" + "\U{1F3E5} " + HospitalName(a) + "\n" + "\U{1F4CD} " + HospitalAddress(a) + "\n\n"
      + "Reply *\"queue status\"* to check your position in the queue."
  }

  function ReminderText(a: Appointment, k: Kind): string {
    ReminderHead(a, k) + a.time + ReminderTail(a, k)
  }

  /** Both reminders name the appointment's time and its doctor, "Doctor"
      when the join found none. */
  lemma ReminderNamesTimeAndDoctor(a: Appointment, k: Kind)
    ensures Contains(ReminderText(a, k), a.time)
    ensures Contains(ReminderText(a, k), DoctorName(a))
  {
    var head, tail := ReminderHead(a, k), ReminderTail(a, k);
    ContainsMiddle(head, a.time, tail);
    if k == DayBefore {
      ContainsMiddle("*\n\n" + DoctorLine, DoctorName(a), DayBeforeClosing(a));
      ContainsExtend(tail, head + a.time, DoctorName(a));
    } else {
      ContainsMiddle(HourBeforeHead, DoctorName(a), " at ");
      ContainsExtend(head, a.time, DoctorName(a));
      ContainsExtend(head + a.time, tail, DoctorName(a));
    }
  }

  // ---------------------------------------------------------------------------
  // Sending

  /** `if (!d.patient_phone) continue`: a missing or empty phone is skipped. */
  predicate HasPhone(a: Appointment) {
    a.patientPhone.Some? && a.patientPhone.value != ""
  }

  /** `if (sid)`: an absent or empty sid counts as a failed send. */
  predicate Truthy(sid: Option<string>) {
    sid.Some? && sid.value != ""
  }

  /** The message builder of a sweep. */
  function Message(k: Kind): Appointment -> string {
    (a: Appointment) => ReminderText(a, k)
  }

  /** Whether the reminder `msg(a)` for `a` went out; `send(to, body)` is
      what `sendWhatsApp` returns for that destination and text. */
  predicate Delivered(a: Appointment, msg: Appointment -> string, send: (string, string) -> Option<string>) {
    HasPhone(a) && Truthy(send(a.patientPhone.value, msg(a)))
  }

  function DeliveredBy(msg: Appointment -> string, send: (string, string) -> Option<string>): Appointment -> bool {
    (a: Appointment) => Delivered(a, msg, send)
  }

  function FailedBy(msg: Appointment -> string, send: (string, string) -> Option<string>): Appointment -> bool {
    (a: Appointment) => HasPhone(a) && !Delivered(a, msg, send)
  }

  /** The ids whose flag a sweep over `selected` sets. */
  function DeliveredIds(selected: seq<Appointment>, msg: Appointment -> string, send: (string, string) -> Option<string>): set<string> {
    if |selected| == 0 then {}
    else
      var a := selected[|selected| - 1];
      DeliveredIds(selected[..|selected| - 1], msg, send) + if Delivered(a, msg, send) then {a.id} else {}
  }

  lemma {:induction false} DeliveredIdsMembers(selected: seq<Appointment>, msg: Appointment -> string,
                                               send: (string, string) -> Option<string>, id: string)
    ensures id in DeliveredIds(selected, msg, send)
        <==> exists j :: 0 <= j < |selected| && selected[j].id == id && Delivered(selected[j], msg, send)
  {
    if |selected| > 0 {
      var init := selected[..|selected| - 1];
      DeliveredIdsMembers(init, msg, send, id);
      if id in DeliveredIds(init, msg, send) {
        var j :| 0 <= j < |init| && init[j].id == id && Delivered(init[j], msg, send);
        assert selected[j] == init[j];
      }
      if exists j :: 0 <= j < |selected| && selected[j].id == id && Delivered(selected[j], msg, send) {
        var j :| 0 <= j < |selected| && selected[j].id == id && Delivered(selected[j], msg, send);
        if j < |init| {
          assert init[j] == selected[j];
        }
      }
    }
  }

  lemma SweepStep(selected: seq<Appointment>, j: int, msg: Appointment -> string, send: (string, string) -> Option<string>)
    requires 0 <= j < |selected|
    ensures DeliveredIds(selected[..j + 1], msg, send)
         == DeliveredIds(selected[..j], msg, send) + if Delivered(selected[j], msg, send) then {selected[j].id} else {}
    ensures Count(selected[..j + 1], DeliveredBy(msg, send))
         == Count(selected[..j], DeliveredBy(msg, send)) + if Delivered(selected[j], msg, send) then 1 else 0
    ensures Count(selected[..j + 1], FailedBy(msg, send))
         == Count(selected[..j], FailedBy(msg, send)) + if HasPhone(selected[j]) && !Delivered(selected[j], msg, send) then 1 else 0
  {
    assert selected[..j + 1][..j] == selected[..j];
  }

  /** A row the sweep changes had its flag set by a successful send to a
      selected appointment with its id; a row whose selected appointments all
      lack a phone, or whose sends all failed, keeps its flags. */
  lemma FlagSetOnlyOnDelivery(rows: seq<Appointment>, selected: seq<Appointment>, k: Kind,
                              msg: Appointment -> string, send: (string, string) -> Option<string>, i: int)
    requires 0 <= i < |rows|
    ensures MarkSent(rows, DeliveredIds(selected, msg, send), k)[i] != rows[i]
        ==> exists j :: 0 <= j < |selected| && selected[j].id == rows[i].id && Delivered(selected[j], msg, send)
  {
    DeliveredIdsMembers(selected, msg, send, rows[i].id);
  }

  /** A second sweep after the first never selects an appointment the first
      one reminded: its flag is now set, and the query asks for it unset. */
  lemma {:induction false} NoSecondReminder(rows: seq<Appointment>, selected: seq<Appointment>, k: Kind,
                                            msg: Appointment -> string, send: (string, string) -> Option<string>,
                                            due: Appointment -> bool, a: Appointment)
    requires forall x :: due(x) ==> !Flag(x, k)
    requires a in Filter(MarkSent(rows, DeliveredIds(selected, msg, send), k), due)
    ensures a.id !in DeliveredIds(selected, msg, send)
  {
    var after := MarkSent(rows, DeliveredIds(selected, msg, send), k);
    var i :| 0 <= i < |after| && after[i] == a;
    assert due(a);
  }

  lemma NoSecondDayBeforeReminder(rows: seq<Appointment>, tomorrow: string,
                                  send: (string, string) -> Option<string>, a: Appointment)
    requires var selected := Filter(rows, DueDayBefore(tomorrow));
      a in Filter(MarkSent(rows, DeliveredIds(selected, Message(DayBefore), send), DayBefore), DueDayBefore(tomorrow))
    ensures a.id !in DeliveredIds(Filter(rows, DueDayBefore(tomorrow)), Message(DayBefore), send)
  {
    NoSecondReminder(rows, Filter(rows, DueDayBefore(tomorrow)), DayBefore, Message(DayBefore), send, DueDayBefore(tomorrow), a);
  }

  lemma NoSecondHourBeforeReminder(rows: seq<Appointment>, today: string, from: int, until: int,
                                   seconds: string -> int, send: (string, string) -> Option<string>, a: Appointment)
    requires var due := DueWithinHour(today, from, until, seconds);
      a in Filter(MarkSent(rows, DeliveredIds(Filter(rows, due), Message(HourBefore), send), HourBefore), due)
    ensures a.id !in DeliveredIds(Filter(rows, DueWithinHour(today, from, until, seconds)), Message(HourBefore), send)
  {
    var due := DueWithinHour(today, from, until, seconds);
    NoSecondReminder(rows, Filter(rows, due), HourBefore, Message(HourBefore), send, due, a);
  }

  // ---------------------------------------------------------------------------
  // The job

  /** The table after the 24-hour sweep. */
  function AfterDayBefore(rows: seq<Appointment>, tomorrow: string, send: (string, string) -> Option<string>): seq<Appointment> {
    MarkSent(rows, DeliveredIds(Filter(rows, DueDayBefore(tomorrow)), Message(DayBefore), send), DayBefore)
  }

  /** The 1-hour query's selection, run against the table the 24-hour sweep
      left, for a window from `nowMinute` to `until`. */
  function HourSelection(rows: seq<Appointment>, tomorrow: string, today: string, nowMinute: int, until: int,
                         seconds: string -> int, send: (string, string) -> Option<string>): seq<Appointment> {
    Filter(AfterDayBefore(rows, tomorrow, send), DueWithinHour(today, nowMinute, until, seconds))
  }

  /** The table after both sweeps: the 1-hour query sees the updates of the
      24-hour sweep. `until` is the window's upper bound in minutes. */
  function AfterBoth(rows: seq<Appointment>, tomorrow: string, today: string, nowMinute: int, until: int,
                     seconds: string -> int, send: (string, string) -> Option<string>): seq<Appointment> {
    var second := HourSelection(rows, tomorrow, today, nowMinute, until, seconds, send);
    MarkSent(AfterDayBefore(rows, tomorrow, send), DeliveredIds(second, Message(HourBefore), send), HourBefore)
  }

  /** Whatever the window, a run sets the 24-hour flag of every row whose
      24-hour reminder went out and the 1-hour flag of every row whose 1-hour
      reminder went out, so no later run selects that row again for that
      reminder, on any day and in any window. */
  lemma RunRemindsOnce(rows: seq<Appointment>, tomorrow: string, today: string, nowMinute: int, until: int,
                       seconds: string -> int, send: (string, string) -> Option<string>, i: int,
                       tomorrow2: string, today2: string, from2: int, until2: int, seconds2: string -> int)
    requires 0 <= i < |rows|
    ensures |AfterBoth(rows, tomorrow, today, nowMinute, until, seconds, send)| == |rows|
    ensures AfterBoth(rows, tomorrow, today, nowMinute, until, seconds, send)[i].id == rows[i].id
    ensures rows[i].id in DeliveredIds(Filter(rows, DueDayBefore(tomorrow)), Message(DayBefore), send) ==>
      var after := AfterBoth(rows, tomorrow, today, nowMinute, until, seconds, send);
      after[i].reminderSent24h && !DueDayBefore(tomorrow2)(after[i])
    ensures rows[i].id in DeliveredIds(HourSelection(rows, tomorrow, today, nowMinute, until, seconds, send),
                                       Message(HourBefore), send) ==>
      var after := AfterBoth(rows, tomorrow, today, nowMinute, until, seconds, send);
      after[i].reminderSent1h && !DueWithinHour(today2, from2, until2, seconds2)(after[i])
  {
    var mid := AfterDayBefore(rows, tomorrow, send);
    var after := AfterBoth(rows, tomorrow, today, nowMinute, until, seconds, send);
    assert mid[i].id == rows[i].id && after[i].id == mid[i].id;
    assert after[i].reminderSent24h == mid[i].reminderSent24h;
  }

  /** With the corrected bound the 1-hour sweep of a run selects every
      unreminded confirmed appointment of today, left by the 24-hour sweep,
      that starts within the next hour, whatever the time of day. */
  lemma CorrectedRunSelectsNextHour(rows: seq<Appointment>, tomorrow: string, today: string, nowMinute: int,
                                    seconds: string -> int, send: (string, string) -> Option<string>, a: Appointment)
    requires a in AfterDayBefore(rows, tomorrow, send)
    requires a.date == today && a.status == Confirmed && !a.reminderSent1h
    requires nowMinute * 60 <= seconds(a.time) <= nowMinute * 60 + 3600
    ensures a in HourSelection(rows, tomorrow, today, nowMinute, HourAhead(nowMinute), seconds, send)
  {
    HourWindowCoversNextHour(today, nowMinute, seconds, a);
    FilterKeeps(AfterDayBefore(rows, tomorrow, send), DueWithinHour(today, nowMinute, HourAhead(nowMinute), seconds), a);
  }

  /** From 23:00 on the job as written sends no 1-hour reminder at all: its
      1-hour query selects nothing, and the table after the run is the table
      after the 24-hour sweep alone. */
  lemma LateRunSkipsHourSweep(rows: seq<Appointment>, tomorrow: string, today: string, nowMinute: int,
                              seconds: string -> int, send: (string, string) -> Option<string>)
    requires 1380 <= nowMinute < 1440
    ensures HourSelection(rows, tomorrow, today, nowMinute, HourAheadAsWritten(nowMinute), seconds, send) == []
    ensures AfterBoth(rows, tomorrow, today, nowMinute, HourAheadAsWritten(nowMinute), seconds, send)
         == AfterDayBefore(rows, tomorrow, send)
  {
    var second := HourSelection(rows, tomorrow, today, nowMinute, HourAheadAsWritten(nowMinute), seconds, send);
    if |second| > 0 {
      assert second[0] in second;
      LateHourWindowEmpty(today, nowMinute, seconds, second[0]);
      assert false;
    }
    var mid := AfterDayBefore(rows, tomorrow, send);
    assert MarkSent(mid, {}, HourBefore) == mid;
  }

  /** The appointments table and the `results` counters of one run. */
  class ReminderJob {
    var appointments: seq<Appointment>
    var sent24h: nat
    var sent1h: nat
    var errors: nat

    constructor(appointments: seq<Appointment>)
      ensures this.appointments == appointments
      ensures sent24h == 0 && sent1h == 0 && errors == 0
    {
      this.appointments := appointments;
      sent24h, sent1h, errors := 0, 0, 0;
    }

    /** The counter of the kind `k`. */
    function Sent(k: Kind): nat
      reads this
    {
      if k == DayBefore then sent24h else sent1h
    }

    /** `for (const appt of selected)`: skip rows without a phone, send
        `msg(appt)`, and on a sid set the flag of kind `k` on the rows with
        that id and count a send; otherwise count an error. */
    method Sweep(k: Kind, msg: Appointment -> string, selected: seq<Appointment>, send: (string, string) -> Option<string>)
      modifies this
      ensures appointments == MarkSent(old(appointments), DeliveredIds(selected, msg, send), k)
      ensures Sent(k) == old(Sent(k)) + Count(selected, DeliveredBy(msg, send))
      ensures Sent(OtherKind(k)) == old(Sent(OtherKind(k)))
      ensures errors == old(errors) + Count(selected, FailedBy(msg, send))
    {
      var j := 0;
      while j < |selected|
        invariant 0 <= j <= |selected|
        invariant appointments == MarkSent(old(appointments), DeliveredIds(selected[..j], msg, send), k)
        invariant Sent(k) == old(Sent(k)) + Count(selected[..j], DeliveredBy(msg, send))
        invariant Sent(OtherKind(k)) == old(Sent(OtherKind(k)))
        invariant errors == old(errors) + Count(selected[..j], FailedBy(msg, send))
      {
        var d := selected[j];
        SweepStep(selected, j, msg, send);
        if !HasPhone(d) {
          j := j + 1;
          continue;
        }
        var sid := send(d.patientPhone.value, msg(d));
        if Truthy(sid) {
          MarkSentAgain(old(appointments), DeliveredIds(selected[..j], msg, send), d.id, k);
          appointments := MarkSent(appointments, {d.id}, k);
          if k == DayBefore {
            sent24h := sent24h + 1;
          } else {
            sent1h := sent1h + 1;
          }
        } else {
          errors := errors + 1;
        }
        j := j + 1;
      }
      assert selected[..j] == selected;
    }

    /** Both sweeps of an authorised request, the 1-hour one over the window
        from `nowMinute` to `until`. */
    method Sweeps(tomorrow: string, today: string, nowMinute: int, until: int,
                  seconds: string -> int, send: (string, string) -> Option<string>)
      modifies this
      ensures appointments == AfterBoth(old(appointments), tomorrow, today, nowMinute, until, seconds, send)
      ensures var first := Filter(old(appointments), DueDayBefore(tomorrow));
        var second := HourSelection(old(appointments), tomorrow, today, nowMinute, until, seconds, send);
        && sent24h == old(sent24h) + Count(first, DeliveredBy(Message(DayBefore), send))
        && sent1h == old(sent1h) + Count(second, DeliveredBy(Message(HourBefore), send))
        && errors == old(errors) + Count(first, FailedBy(Message(DayBefore), send))
                                 + Count(second, FailedBy(Message(HourBefore), send))
    {
      var upcoming24h := Filter(appointments, DueDayBefore(tomorrow));
      Sweep(DayBefore, Message(DayBefore), upcoming24h, send);
      var upcoming1h := Filter(appointments, DueWithinHour(today, nowMinute, until, seconds));
      Sweep(HourBefore, Message(HourBefore), upcoming1h, send);
    }

    /** The request handler as written: 401 without the service key;
        otherwise the 24-hour sweep over tomorrow's appointments, then the
        1-hour sweep over today's up to `HourAheadAsWritten(nowMinute)`, and
        200. `nowMinute` is the local time of day in minutes. */
    method Run(header: Option<string>, serviceKey: Option<string>, tomorrow: string, today: string,
               nowMinute: int, seconds: string -> int, send: (string, string) -> Option<string>)
      returns (status: int)
      modifies this
      ensures !RegenerateSlots.Authorized(header, serviceKey) ==> status == 401
      ensures !RegenerateSlots.Authorized(header, serviceKey) ==>
        appointments == old(appointments) && sent24h == old(sent24h) && sent1h == old(sent1h) && errors == old(errors)
      ensures RegenerateSlots.Authorized(header, serviceKey) ==> status == 200
      ensures RegenerateSlots.Authorized(header, serviceKey) ==>
        appointments == AfterBoth(old(appointments), tomorrow, today, nowMinute, HourAheadAsWritten(nowMinute), seconds, send)
      ensures RegenerateSlots.Authorized(header, serviceKey) ==>
        var first := Filter(old(appointments), DueDayBefore(tomorrow));
        var second := HourSelection(old(appointments), tomorrow, today, nowMinute, HourAheadAsWritten(nowMinute), seconds, send);
        && sent24h == old(sent24h) + Count(first, DeliveredBy(Message(DayBefore), send))
        && sent1h == old(sent1h) + Count(second, DeliveredBy(Message(HourBefore), send))
        && errors == old(errors) + Count(first, FailedBy(Message(DayBefore), send))
                                 + Count(second, FailedBy(Message(HourBefore), send))
      ensures RegenerateSlots.Authorized(header, serviceKey) && 1380 <= nowMinute < 1440 ==> sent1h == old(sent1h)
    {
      if !RegenerateSlots.Authorized(header, serviceKey) {
        return 401;
      }
      if 1380 <= nowMinute < 1440 {
        LateRunSkipsHourSweep(appointments, tomorrow, today, nowMinute, seconds, send);
      }
      Sweeps(tomorrow, today, nowMinute, HourAheadAsWritten(nowMinute), seconds, send);
      return 200;
    }

    /** The request handler with the corrected window: the 1-hour sweep runs
        up to `HourAhead(nowMinute)`, so an unreminded appointment starting
        within the next hour is always selected. */
    method RunCorrected(header: Option<string>, serviceKey: Option<string>, tomorrow: string, today: string,
                        nowMinute: int, seconds: string -> int, send: (string, string) -> Option<string>)
      returns (status: int)
      modifies this
      ensures !RegenerateSlots.Authorized(header, serviceKey) ==> status == 401
      ensures !RegenerateSlots.Authorized(header, serviceKey) ==>
        appointments == old(appointments) && sent24h == old(sent24h) && sent1h == old(sent1h) && errors == old(errors)
      ensures RegenerateSlots.Authorized(header, serviceKey) ==> status == 200
      ensures RegenerateSlots.Authorized(header, serviceKey) ==>
        appointments == AfterBoth(old(appointments), tomorrow, today, nowMinute, HourAhead(nowMinute), seconds, send)
      ensures RegenerateSlots.Authorized(header, serviceKey) ==>
        var first := Filter(old(appointments), DueDayBefore(tomorrow));
        var second := HourSelection(old(appointments), tomorrow, today, nowMinute, HourAhead(nowMinute), seconds, send);
        && sent24h == old(sent24h) + Count(first, DeliveredBy(Message(DayBefore), send))
        && sent1h == old(sent1h) + Count(second, DeliveredBy(Message(HourBefore), send))
        && errors == old(errors) + Count(first, FailedBy(Message(DayBefore), send))
                                 + Count(second, FailedBy(Message(HourBefore), send))
    {
      if !RegenerateSlots.Authorized(header, serviceKey) {
        return 401;
      }
      Sweeps(tomorrow, today, nowMinute, HourAhead(nowMinute), seconds, send);
      return 200;
    }
  }
}
