/** Appointments and slots: the booking wrapper's error mapping, cancellation
    with its checks and slot release, and the read-only queries for today's
    appointment, upcoming appointments and the day's queue. */
module BookingService {
  import opened Common
  import opened Domain

  // ---------------------------------------------------------------------------
  // Booking

  datatype BookingResult = BookingResult(
    success: bool,
    error: Option<string>,
    appointmentId: Option<string>,
    confirmationCode: Option<string>)

  /** What the `book_appointment_atomic` procedure answered: a transport
      error, or its own result. */
  datatype RpcReply = RpcError(message: string) | RpcData(result: BookingResult)

  const BookingRpcFailed := "Booking failed. Please try again."

  /** `bookAppointment`: an RPC error becomes a failure with a fixed text;
      otherwise the procedure's result is passed through unchanged. */
  function BookAppointment(reply: RpcReply): (r: BookingResult)
    ensures reply.RpcError? ==> !r.success && r.error == Some(BookingRpcFailed)
    ensures reply.RpcData? ==> r == reply.result
  {
    match reply
    case RpcError(_) => BookingResult(false, Some(BookingRpcFailed), None, None)
    case RpcData(result) => result
  }

  // ---------------------------------------------------------------------------
  // Cancellation

  datatype CancelledBy = Patient | Hospital

  function CancelledByName(who: CancelledBy): string {
    match who
    case Patient => "patient"
    case Hospital => "hospital"
  }

  const NotFound := "Appointment not found."
  const AlreadyCompleted := "Cannot cancel a completed appointment."
  const AlreadyCancelled := "Appointment is already cancelled."
  const TooLate := "Appointments can only be cancelled at least 2 hours in advance."
  const UpdateFailed := "Failed to cancel. Try again."

  /** The first row with that id, as `.eq('id', id).maybeSingle()` finds it. */
  function FindById(appts: seq<Appointment>, id: string): (r: Option<Appointment>)
    ensures r.Some? ==> r.value in appts && r.value.id == id
    ensures r.None? ==> forall a :: a in appts ==> a.id != id
  {
    if |appts| == 0 then None
    else if appts[0].id == id then Some(appts[0])
    else FindById(appts[1..], id)
  }

  /** The checks of `cancelAppointment`, in the order the code makes them;
      `None` lets the cancellation go ahead. */
  function CancelRefusal(appts: seq<Appointment>, id: string, c: Clock): Option<string> {
    var found := FindById(appts, id);
    if found.None? then Some(NotFound)
    else if found.value.status == Completed then Some(AlreadyCompleted)
    else if found.value.status == Cancelled then Some(AlreadyCancelled)
    else if c.instant(found.value.date, found.value.time) <= c.now + TwoHoursMs then Some(TooLate)
    else None
  }

  /** The five failure texts are distinct, so a caller can tell them apart. */
  lemma CancelErrorsDistinct()
    ensures |{NotFound, AlreadyCompleted, AlreadyCancelled, TooLate, UpdateFailed}| == 5
  {
    assert |NotFound| == 22 && |AlreadyCompleted| == 38 && |AlreadyCancelled| == 33;
    assert |TooLate| == 63 && |UpdateFailed| == 28;
  }

  /** The notice rule is strict: an appointment exactly two hours away cannot
      be cancelled, one a millisecond later can. */
  lemma CancelNoticeBoundary(appts: seq<Appointment>, id: string, c: Clock)
    requires FindById(appts, id).Some?
    requires FindById(appts, id).value.status !in {Completed, Cancelled}
    ensures var a := FindById(appts, id).value;
      && (c.instant(a.date, a.time) == c.now + TwoHoursMs ==> CancelRefusal(appts, id, c) == Some(TooLate))
      && (c.instant(a.date, a.time) == c.now + TwoHoursMs + 1 ==> CancelRefusal(appts, id, c).None?)
  {
  }

  /** A refusal about the record itself wins over the notice rule. */
  lemma CancelChecksInOrder(appts: seq<Appointment>, id: string, c: Clock)
    ensures FindById(appts, id).None? ==> CancelRefusal(appts, id, c) == Some(NotFound)
    ensures FindById(appts, id).Some? && FindById(appts, id).value.status == Completed ==>
      CancelRefusal(appts, id, c) == Some(AlreadyCompleted)
    ensures FindById(appts, id).Some? && FindById(appts, id).value.status == Cancelled ==>
      CancelRefusal(appts, id, c) == Some(AlreadyCancelled)
  {
  }

  /** The row a successful cancellation writes. */
  function CancelledRow(a: Appointment, reason: string, who: CancelledBy, now: int): Appointment {
    a.(status := Cancelled, cancelledAt := Some(now), cancellationReason := Some(CancelledByName(who) + ": " + reason))
  }

  /** `update(...).eq('id', id)` on the appointments table. */
  function UpdateAppointment(appts: seq<Appointment>, id: string, reason: string, who: CancelledBy, now: int): (r: seq<Appointment>)
    ensures |r| == |appts|
    ensures forall i :: 0 <= i < |r| ==> r[i] == (if appts[i].id == id then CancelledRow(appts[i], reason, who, now) else appts[i])
  {
    seq(|appts|, i requires 0 <= i < |appts| => if appts[i].id == id then CancelledRow(appts[i], reason, who, now) else appts[i])
  }

  /** `update({ is_available: true }).eq('id', slotId)` on the slots table. */
  function FreeSlot(slots: seq<SlotRow>, slotId: string): (r: seq<SlotRow>)
    ensures |r| == |slots|
    ensures forall i :: 0 <= i < |r| ==> r[i] == (if slots[i].id == slotId then slots[i].(available := true) else slots[i])
  {
    seq(|slots|, i requires 0 <= i < |slots| => if slots[i].id == slotId then slots[i].(available := true) else slots[i])
  }

  datatype CancelOutcome = CancelOk | CancelFailed(error: string)

  /** The appointments and slots tables, in table order. */
  class BookingStore {
    var appointments: seq<Appointment>
    var slots: seq<SlotRow>

    constructor(appointments: seq<Appointment>, slots: seq<SlotRow>)
      ensures this.appointments == appointments && this.slots == slots
    {
      this.appointments := appointments;
      this.slots := slots;
    }

    /** `cancelAppointment`. A refusal or a failed status update changes
        nothing. Otherwise the appointment is marked cancelled with the reason
        prefixed by who cancelled, and then its slot, if it has one, is
        released. */
    method CancelAppointment(id: string, reason: string, who: CancelledBy, c: Clock, updateOk: bool)
      returns (r: CancelOutcome)
      modifies this
      ensures CancelRefusal(old(appointments), id, c).Some? ==>
        r == CancelFailed(CancelRefusal(old(appointments), id, c).value)
        && appointments == old(appointments) && slots == old(slots)
      ensures CancelRefusal(old(appointments), id, c).None? && !updateOk ==>
        r == CancelFailed(UpdateFailed) && appointments == old(appointments) && slots == old(slots)
      ensures CancelRefusal(old(appointments), id, c).None? && updateOk ==>
        && r == CancelOk
        && appointments == UpdateAppointment(old(appointments), id, reason, who, c.now)
        && var slotId := FindById(old(appointments), id).value.slotId;
           slots == (if slotId.Some? then FreeSlot(old(slots), slotId.value) else old(slots))
    {
      var refusal := CancelRefusal(appointments, id, c);
      if refusal.Some? {
        return CancelFailed(refusal.value);
      }
      var appt := FindById(appointments, id).value;
      if !updateOk {
        return CancelFailed(UpdateFailed);
      }
      appointments := UpdateAppointment(appointments, id, reason, who, c.now);
      if appt.slotId.Some? {
        slots := FreeSlot(slots, appt.slotId.value);
      }
      return CancelOk;
    }
  }

  /** After a successful cancellation the appointment reads back as cancelled
      with the prefixed reason, and every other appointment is unchanged. */
  lemma CancelledReadsBack(appts: seq<Appointment>, id: string, reason: string, who: CancelledBy, now: int)
    requires FindById(appts, id).Some?
    ensures var r := UpdateAppointment(appts, id, reason, who, now);
      && FindById(r, id).Some?
      && FindById(r, id).value.status == Cancelled
      && FindById(r, id).value.cancelledAt == Some(now)
      && FindById(r, id).value.cancellationReason == Some(CancelledByName(who) + ": " + reason)
      && (forall i :: 0 <= i < |appts| && appts[i].id != id ==> r[i] == appts[i])
  {
    FindUpdated(appts, id, reason, who, now);
  }

  lemma {:induction false} FindUpdated(appts: seq<Appointment>, id: string, reason: string, who: CancelledBy, now: int)
    requires FindById(appts, id).Some?
    ensures FindById(UpdateAppointment(appts, id, reason, who, now), id)
      == Some(CancelledRow(FindById(appts, id).value, reason, who, now))
  {
    var r := UpdateAppointment(appts, id, reason, who, now);
    if appts[0].id != id {
      assert r[1..] == UpdateAppointment(appts[1..], id, reason, who, now);
      FindUpdated(appts[1..], id, reason, who, now);
    }
  }

  // ---------------------------------------------------------------------------
  // Queries

  predicate Active(s: ApptStatus) {
    s == Confirmed || s == CheckedIn || s == InConsultation
  }

  /** Ordered by `appointment_time`; `HH:MM:SS` text orders as the time does. */
  predicate EarlierTime(a: Appointment, b: Appointment) {
    LexLess(a.time, b.time)
  }

  /** Ordered by date, then time. */
  predicate EarlierSlot(a: Appointment, b: Appointment) {
    DateTimeBefore(a.date, a.time, b.date, b.time)
  }

  lemma EarlierTimeIsStrict()
    ensures StrictOrder(EarlierTime)
  {
    forall a, b | EarlierTime(a, b)
      ensures !EarlierTime(b, a)
    {
      LexLessAsymmetric(a.time, b.time);
    }
    forall a, b, d | EarlierTime(a, b) && EarlierTime(b, d)
      ensures EarlierTime(a, d)
    {
      LexLessTransitive(a.time, b.time, d.time);
    }
  }

  lemma EarlierSlotIsStrict()
    ensures StrictOrder(EarlierSlot)
  {
    forall a, b | EarlierSlot(a, b)
      ensures !EarlierSlot(b, a)
    {
      DateTimeBeforeAsymmetric(a.date, a.time, b.date, b.time);
    }
    forall a, b, d | EarlierSlot(a, b) && EarlierSlot(b, d)
      ensures EarlierSlot(a, d)
    {
      DateTimeBeforeTransitive(a.date, a.time, b.date, b.time, d.date, d.time);
    }
  }

  function TodayFilter(userId: string, today: string): Appointment -> bool {
    (a: Appointment) => a.userId == Some(userId) && a.date == today && Active(a.status)
  }

  /** `getTodayAppointment`: the user's earliest active appointment today. */
  function TodayAppointment(appts: seq<Appointment>, userId: string, c: Clock): Option<Appointment> {
    var r := SelectOrdered(appts, TodayFilter(userId, TodayIso(c)), EarlierTime, 1);
    if |r| == 0 then None else Some(r[0])
  }

  /** There is a result exactly when the user has an active appointment
      today, and no such appointment is earlier than the one returned. */
  lemma TodayAppointmentSpec(appts: seq<Appointment>, userId: string, c: Clock)
    ensures var p := TodayFilter(userId, TodayIso(c));
      && (TodayAppointment(appts, userId, c).Some? <==> exists a :: a in appts && p(a))
      && (TodayAppointment(appts, userId, c).Some? ==>
            var t := TodayAppointment(appts, userId, c).value;
            t in appts && p(t) && forall a :: a in appts && p(a) ==> !LexLess(a.time, t.time))
  {
    EarlierTimeIsStrict();
    SelectFirst(appts, TodayFilter(userId, TodayIso(c)), EarlierTime);
  }

  function UpcomingFilter(userId: string, today: string): Appointment -> bool {
    (a: Appointment) => a.userId == Some(userId) && LexLessEq(today, a.date) && a.status == Confirmed
  }

  /** `getUpcomingAppointments(userId, limit)` */
  function UpcomingAppointments(appts: seq<Appointment>, userId: string, c: Clock, limit: nat): seq<Appointment> {
    SelectOrdered(appts, UpcomingFilter(userId, TodayIso(c)), EarlierSlot, limit)
  }

  /** Only the user's confirmed appointments dated today or later, ordered by
      date and then time, at most `limit` of them (the engine uses 5). */
  lemma UpcomingSpec(appts: seq<Appointment>, userId: string, c: Clock, limit: nat)
    ensures var r := UpcomingAppointments(appts, userId, c, limit);
      && |r| <= limit
      && (|r| == 0 <==> limit == 0 || forall a :: a in appts ==> !UpcomingFilter(userId, TodayIso(c))(a))
      && (forall i :: 0 <= i < |r| ==>
            r[i] in appts && r[i].userId == Some(userId) && r[i].status == Confirmed && LexLessEq(TodayIso(c), r[i].date))
      && (forall i, j :: 0 <= i < j < |r| ==>
            LexLessEq(r[i].date, r[j].date) && (r[i].date == r[j].date ==> LexLessEq(r[i].time, r[j].time)))
  {
    var p := UpcomingFilter(userId, TodayIso(c));
    EarlierSlotIsStrict();
    SelectOrderedSpec(appts, p, EarlierSlot, limit);
    var r := UpcomingAppointments(appts, userId, c, limit);
    FilterCount(appts, p);
    var f := Filter(appts, p);
    if |f| > 0 {
      assert f[0] in f;
    }
    if exists a :: a in appts && p(a) {
      var a :| a in appts && p(a);
      FilterKeeps(appts, p, a);
    }
    forall i, j | 0 <= i < j < |r|
      ensures LexLessEq(r[i].date, r[j].date) && (r[i].date == r[j].date ==> LexLessEq(r[i].time, r[j].time))
    {
      assert !EarlierSlot(r[j], r[i]);
      LexLessTotal(r[i].date, r[j].date);
      LexLessTotal(r[i].time, r[j].time);
    }
  }

  // ---------------------------------------------------------------------------
  // Queue status

  /** Average consultation in minutes. */
  const AvgConsultMinutes := 30

  /** `Math.round(ms / 60000)`: halves round up. */
  function RoundMinutes(ms: int): int {
    (ms + 30000) / 60000
  }

  function QueueFilter(doctorId: string, date: string): Appointment -> bool {
    (a: Appointment) => a.doctorId == doctorId && a.date == date && Active(a.status)
  }

  /** The day's active appointments of one doctor by time. */
  function DayQueue(appts: seq<Appointment>, doctorId: string, date: string): seq<Appointment> {
    SortBy(Filter(appts, QueueFilter(doctorId, date)), EarlierTime)
  }

  function HasStatus(s: ApptStatus): Appointment -> bool {
    (a: Appointment) => a.status == s
  }

  /** `queue.find(a => a.status === 'in_consultation')` */
  function FirstInConsultation(queue: seq<Appointment>): (r: Option<Appointment>)
    ensures r.Some? ==> r.value in queue && r.value.status == InConsultation
    ensures r.None? ==> forall a :: a in queue ==> a.status != InConsultation
  {
    if |queue| == 0 then None
    else if queue[0].status == InConsultation then Some(queue[0])
    else FirstInConsultation(queue[1..])
  }

  /** The current delay: minutes since the consultation started beyond the
      average, never negative; 0 when nobody is in consultation. */
  function CurrentDelay(inConsult: Option<Appointment>, now: int): int {
    if inConsult.None? then 0
    else
      var started := inConsult.value.consultationStartedAt.GetOr(now);
      var over := RoundMinutes(now - started) - AvgConsultMinutes;
      if over > 0 then over else 0
  }

  /** `getQueueStatus` as written: the busy-queue result has no
      `patients_ahead` field. */
  function QueueStatus(appts: seq<Appointment>, doctorId: string, date: string, now: int): QueueInfo {
    var queue := DayQueue(appts, doctorId, date);
    if |queue| == 0 then QueueInfo(Some(0), Some(0), Some(0), None, None, None)
    else
      var inConsult := FirstInConsultation(queue);
      var checkedIn := Count(queue, HasStatus(CheckedIn));
      QueueInfo(
        None,
        Some(checkedIn * AvgConsultMinutes),
        Some(CurrentDelay(inConsult, now)),
        if inConsult.Some? then Some(ConsultingPatient(inConsult.value.patientName, inConsult.value.consultationStartedAt)) else None,
        Some(checkedIn),
        Some(Count(queue, HasStatus(Confirmed))))
  }

  /** An empty queue reports zeros; a busy one waits 30 minutes per checked-in
      patient, counts the confirmed ones as waiting, and never reports a
      negative delay (0 when nobody is in consultation). */
  lemma QueueStatusSpec(appts: seq<Appointment>, doctorId: string, date: string, now: int)
    ensures var q := QueueStatus(appts, doctorId, date, now);
      var queue := DayQueue(appts, doctorId, date);
      && (|queue| == 0 ==> q.patientsAhead == Some(0) && q.estimatedWait == Some(0) && q.currentDelay == Some(0))
      && (|queue| > 0 ==>
            && q.estimatedWait == Some(30 * Count(queue, HasStatus(CheckedIn)))
            && q.waitingCount == Some(Count(queue, HasStatus(Confirmed)))
            && q.currentDelay.Some? && q.currentDelay.value >= 0
            && (q.inConsultation.None? ==> q.currentDelay == Some(0))
            && (q.inConsultation.Some? <==> exists a :: a in queue && a.status == InConsultation))
  {
  }

  /** The busy-queue result of `getQueueStatus` never says how many patients
      are ahead, so the reply always reads "0 patients ahead". */
  lemma QueueStatusOmitsPatientsAhead(appts: seq<Appointment>, doctorId: string, date: string, now: int)
    requires |DayQueue(appts, doctorId, date)| > 0
    ensures QueueStatus(appts, doctorId, date, now).patientsAhead.None?
  {
  }

  /** Waiting patients (confirmed or checked in) booked strictly earlier than
      `time`. */
  function AheadOf(time: string): Appointment -> bool {
    (a: Appointment) => (a.status == Confirmed || a.status == CheckedIn) && LexLess(a.time, time)
  }

  /** The queue status with `patients_ahead` filled in for an appointment at
      `time`: the waiting patients booked before it. */
  function QueueStatusFor(appts: seq<Appointment>, doctorId: string, date: string, time: string, now: int): QueueInfo {
    var q := QueueStatus(appts, doctorId, date, now);
    q.(patientsAhead := Some(Count(DayQueue(appts, doctorId, date), AheadOf(time))))
  }

  /** The corrected status agrees with the original on every other field,
      counts only waiting patients booked earlier, and for the first
      appointment of the day reports nobody ahead. */
  lemma {:induction false} QueueStatusForSpec(appts: seq<Appointment>, doctorId: string, date: string, time: string, now: int)
    ensures var q := QueueStatusFor(appts, doctorId, date, time, now);
      var queue := DayQueue(appts, doctorId, date);
      && q.(patientsAhead := None) == QueueStatus(appts, doctorId, date, now).(patientsAhead := None)
      && q.patientsAhead.Some?
      && q.patientsAhead.value <= |queue|
      && ((forall a :: a in queue ==> !LexLess(a.time, time)) ==> q.patientsAhead == Some(0))
  {
    var queue := DayQueue(appts, doctorId, date);
    CountBound(queue, AheadOf(time));
    if forall a :: a in queue ==> !LexLess(a.time, time) {
      CountNone(queue, AheadOf(time));
    }
  }

  lemma {:induction false} CountBound<T>(xs: seq<T>, p: T -> bool)
    ensures Count(xs, p) <= |xs|
  {
    if |xs| > 0 { CountBound(xs[..|xs| - 1], p); }
  }

  lemma {:induction false} CountNone<T>(xs: seq<T>, p: T -> bool)
    requires forall x :: x in xs ==> !p(x)
    ensures Count(xs, p) == 0
  {
    if |xs| > 0 {
      assert forall x :: x in xs[..|xs| - 1] ==> x in xs;
      CountNone(xs[..|xs| - 1], p);
    }
  }
}
