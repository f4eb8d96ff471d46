/** `processMessage` and its state handlers: one inbound WhatsApp message,
    with the language model's reading of it already extracted, moves the
    sender's conversation one step through registration, search, slot choice,
    confirmation, record access or cancellation.

    Each handler is specified by a step function that says which writes it
    makes to the conversation row, what it answers (or that it throws) and
    which single change, if any, it asks of another table. The handler
    methods perform those writes on the stores; `Respond` composes the steps
    into a whole turn, and the lemmas at the end read the turn back. */
module MessageProcessor {
  import opened Common
  import opened Domain
  import opened ConversationManager
  import opened UserService
  import opened SearchService
  import BookingService
  import R = Replies

  // ---------------------------------------------------------------------------
  // Inputs and effects

  /** `IncomingMessage`: the sender, the text and a shared location. */
  datatype Incoming = Incoming(from: string, body: string, latitude: Option<real>, longitude: Option<real>)

  /** The arguments `handleConfirmingBooking` passes to `bookAppointment`. */
  datatype BookingRequest = BookingRequest(
    userId: string, doctorId: string, slotId: string, date: string, time: string, source: string)

  /** The `audit_logs` row written when a record is requested; the last two
      fields are its `metadata`. */
  datatype AuditEntry = AuditEntry(
    actorId: string, actorType: string, action: string, entityType: string, entityId: string,
    otpHash: string, expiresAt: string)

  /** What the world answers during one message: the clock, the ids and the
      success of inserts, the doctors table and whether its query fails, the
      medical-records table, the booking procedure, whether a cancellation's
      status update succeeds, the random draw behind the OTP
      (`Math.floor(Math.random() * 900000)`), the URL-encoded access token,
      `btoa`, `toISOString` of an instant, the `APP_URL` setting and the
      translator. */
  datatype World = World(
    clock: Clock,
    conversationId: string,
    conversationInsertOk: bool,
    userId: string,
    userInsertOk: bool,
    doctorTable: seq<DoctorRow>,
    doctorQueryFailed: bool,
    records: seq<RecordRow>,
    rpc: BookingRequest -> BookingService.RpcReply,
    cancelUpdateOk: bool,
    otpDraw: nat,
    token: string,
    btoa: string -> string,
    instantIso: int -> string,
    appUrl: Option<string>,
    translate: (string, string) -> string)

  /** The one change a handler asks of a table other than the conversations. */
  datatype Effect =
    | NoEffect
    | Register(user: NewUser)
    | Cancel(appointmentId: string)
    | Book(request: BookingRequest)
    | Audit(entry: AuditEntry)

  /** What a handler does: its writes to the conversation row, in order, its
      reply (`Err` when it throws) and its effect. */
  datatype Outcome = Outcome(writes: seq<Write>, reply: Result<R.Reply>, effect: Effect)

  /** The tables besides the conversations. */
  datatype Tables = Tables(
    users: map<string, UserRow>,
    appointments: seq<Appointment>,
    slots: seq<SlotRow>,
    audit: seq<AuditEntry>)

  const CancelReason := "User requested cancellation"

  /** The users table after `createUser(d)`. */
  function Registered(users: map<string, UserRow>, d: NewUser, w: World): map<string, UserRow> {
    if w.userInsertOk && d.phone !in users then users[d.phone := NewUserRow(w.userId, d)] else users
  }

  /** What `cancelAppointment(id, 'User requested cancellation')` answers. */
  function CancelResult(appts: seq<Appointment>, id: string, w: World): BookingService.CancelOutcome {
    var refusal := BookingService.CancelRefusal(appts, id, w.clock);
    if refusal.Some? then BookingService.CancelFailed(refusal.value)
    else if !w.cancelUpdateOk then BookingService.CancelFailed(BookingService.UpdateFailed)
    else BookingService.CancelOk
  }

  /** The appointments and slots after that cancellation. */
  function Cancelled(t: Tables, id: string, w: World): Tables {
    if BookingService.CancelRefusal(t.appointments, id, w.clock).Some? || !w.cancelUpdateOk then t
    else
      var slotId := BookingService.FindById(t.appointments, id).value.slotId;
      t.(appointments := BookingService.UpdateAppointment(t.appointments, id, CancelReason, BookingService.Patient, w.clock.now),
         slots := if slotId.Some? then BookingService.FreeSlot(t.slots, slotId.value) else t.slots)
  }

  /** The tables after an effect. The booking procedure's own writes are not
      part of this model, so a booking request leaves the tables as they were. */
  function Perform(t: Tables, e: Effect, w: World): Tables {
    match e
    case NoEffect => t
    case Register(d) => t.(users := Registered(t.users, d, w))
    case Cancel(id) => Cancelled(t, id, w)
    case Book(_) => t
    case Audit(entry) => t.(audit := t.audit + [entry])
  }

  /** An effect on the booking tables leaves the users and the audit log as
      they were, whatever those hold. */
  lemma PerformOnBooking(t: Tables, e: Effect, w: World)
    requires e.NoEffect? || e.Cancel? || e.Book?
    ensures var u := Perform(Tables(map[], t.appointments, t.slots, []), e, w);
      Perform(t, e, w) == Tables(t.users, u.appointments, u.slots, t.audit)
  {
  }

  /** Registering a user changes the users table only. */
  lemma PerformOnUsers(t: Tables, e: Effect, w: World)
    requires e.NoEffect? || e.Register?
    ensures Perform(t, e, w) == t.(users := Perform(t, e, w).users)
  {
  }

  /** An effect other than a registration leaves the users table as it was. */
  lemma PerformKeepsUsers(t: Tables, e: Effect, w: World)
    requires !e.Register?
    ensures Perform(t, e, w).users == t.users
  {
  }

  // ---------------------------------------------------------------------------
  // Conversation writes

  /** Storing twice under one key keeps the second value. */
  lemma OverwriteTwice<K, V>(m: map<K, V>, k: K, first: V, second: V)
    ensures m[k := first][k := second] == m[k := second]
  {
  }

  /** The conversation table after a sequence of writes to one id. */
  function ApplyWrites(rows: map<string, ConvRow>, id: string, ws: seq<Write>): map<string, ConvRow>
    decreases |ws|
  {
    if |ws| == 0 then rows
    else UpdateById(ApplyWrites(rows, id, ws[..|ws| - 1]), id, ws[|ws| - 1])
  }

  /** One row after a sequence of writes. */
  function ApplyRow(row: ConvRow, ws: seq<Write>): (r: ConvRow)
    ensures r.id == row.id && r.phone == row.phone
    decreases |ws|
  {
    if |ws| == 0 then row
    else ApplyWrite(ApplyRow(row, ws[..|ws| - 1]), ws[|ws| - 1])
  }

  lemma {:induction false} ApplyWritesAppend(rows: map<string, ConvRow>, id: string, a: seq<Write>, b: seq<Write>)
    ensures ApplyWrites(rows, id, a + b) == ApplyWrites(ApplyWrites(rows, id, a), id, b)
    decreases |b|
  {
    if |b| == 0 {
      assert a + b == a;
    } else {
      var b' := b[..|b| - 1];
      assert (a + b)[..|a + b| - 1] == a + b';
      assert (a + b)[|a + b| - 1] == b[|b| - 1];
      ApplyWritesAppend(rows, id, a, b');
    }
  }

  lemma ApplyOne(rows: map<string, ConvRow>, id: string, w: Write)
    ensures ApplyWrites(rows, id, [w]) == UpdateById(rows, id, w)
  {
    assert [w][..0] == [];
  }

  lemma ApplyTwo(rows: map<string, ConvRow>, id: string, w1: Write, w2: Write)
    ensures ApplyWrites(rows, id, [w1, w2]) == UpdateById(UpdateById(rows, id, w1), id, w2)
  {
    assert [w1, w2][..1] == [w1];
    ApplyOne(rows, id, w1);
  }

  /** Replacing a row by one with the same id and phone keeps the table well
      formed. */
  lemma ReplaceKeepsWellFormed(rows: map<string, ConvRow>, phone: string, row: ConvRow)
    requires WellFormed(rows) && phone in rows
    requires row.id == rows[phone].id && row.phone == phone
    ensures WellFormed(rows[phone := row])
  {
    var s := rows[phone := row];
    forall p, q | p in s && q in s && s[p].id == s[q].id
      ensures p == q
    {
      assert s[p].id == rows[p].id && s[q].id == rows[q].id;
    }
  }

  /** Writes addressed to the id of the row stored under `phone` change that
      row, and only that row, in a well-formed table. */
  lemma {:induction false} ApplyWritesRow(rows: map<string, ConvRow>, phone: string, ws: seq<Write>)
    requires WellFormed(rows) && phone in rows
    ensures ApplyWrites(rows, rows[phone].id, ws) == rows[phone := ApplyRow(rows[phone], ws)]
    ensures WellFormed(ApplyWrites(rows, rows[phone].id, ws))
    decreases |ws|
  {
    var id := rows[phone].id;
    if |ws| == 0 {
      assert rows[phone := rows[phone]] == rows;
    } else {
      var init := ws[..|ws| - 1];
      ApplyWritesRow(rows, phone, init);
      var mid := rows[phone := ApplyRow(rows[phone], init)];
      ReplaceKeepsWellFormed(rows, phone, ApplyRow(rows[phone], init));
      assert mid[phone].id == id;
      UpdateTouchesOneRow(mid, phone, ws[|ws| - 1]);
      UpdateKeepsWellFormed(mid, id, ws[|ws| - 1]);
      assert mid[phone := ApplyWrite(mid[phone], ws[|ws| - 1])] == rows[phone := ApplyRow(rows[phone], ws)];
    }
  }

  /** A conversation reads back in the state and context of the last write
      made to it, and unchanged when nothing was written. */
  lemma ReadBack(row: ConvRow, ws: seq<Write>)
    ensures |ws| == 0 ==> AsConversation(ApplyRow(row, ws)) == AsConversation(row)
    ensures |ws| > 0 && ws[|ws| - 1].SetState? ==>
      && AsConversation(ApplyRow(row, ws)).state == ws[|ws| - 1].state
      && AsConversation(ApplyRow(row, ws)).context == ws[|ws| - 1].context
    ensures |ws| > 0 && ws[|ws| - 1].ResetWrite? ==>
      && AsConversation(ApplyRow(row, ws)).state == Idle
      && AsConversation(ApplyRow(row, ws)).context == EmptyContext
  {
  }

  // ---------------------------------------------------------------------------
  // Numbered replies

  /** `intent.number ?? parseInt(intent.raw_text ?? '0')`; `None` is NaN. */
  function SelectionNumber(intent: Intent): Option<int> {
    if intent.number.Some? then intent.number else ParseInt(intent.rawText.GetOr("0"))
  }

  /** The position a numbered reply picks in a list of `len` entries, under
      the guard `!sel || sel < 1 || sel > len`: the number n is accepted
      exactly when 1 <= n <= len, and then entry n - 1 is taken. */
  function Pick(intent: Intent, len: nat): (r: Option<nat>)
    ensures r.Some? <==> SelectionNumber(intent).Some? && 1 <= SelectionNumber(intent).value <= len
    ensures r.Some? ==> r.value + 1 == SelectionNumber(intent).value && r.value < len
  {
    var sel := SelectionNumber(intent);
    if sel.None? || sel.value == 0 || sel.value < 1 || sel.value > len then None
    else Some(sel.value - 1)
  }

  /** A reply with neither a number nor raw text reads as `parseInt('0')`,
      which selects nothing. */
  lemma NoNumberSelectsNothing(intent: Intent, len: nat)
    requires intent.number.None? && intent.rawText.None?
    ensures Pick(intent, len).None?
  {
    assert DigitRun("0", 10) == 1;
    assert "0"[..1] == "0";
    assert DigitsValue("0", 10) == 0 by {
      assert "0"[..0] == "";
    }
  }

  // ---------------------------------------------------------------------------
  // Registration

  const Languages := ["English", "Hindi", "Telugu", "Tamil"]

  /** An answer that leaves the conversation as it is. */
  function Stay(reply: R.Reply): Outcome {
    Outcome([], Ok(reply), NoEffect)
  }

  /** An answer after moving the conversation to `state` with `ctx`. */
  function Move(state: ConvState, ctx: Context, now: int, reply: R.Reply): Outcome {
    Outcome([SetState(state, ctx, None, now)], Ok(reply), NoEffect)
  }

  /** `handleRegistrationName` */
  function NameStep(text: string, now: int): Outcome {
    var name := Trim(text);
    if |name| < 2 then Stay(R.FullNamePrompt)
    else Move(RegistrationAge, EmptyContext.(name := Some(name)), now, R.AskForAge(name))
  }

  /** `handleRegistrationAge` */
  function AgeStep(text: string, ctx: Context, now: int): Outcome {
    var age := ParseInt(Trim(text));
    if age.None? || age.value < 1 || age.value > 120 then Stay(R.AgePrompt)
    else Move(RegistrationLanguage, ctx.(age := age), now, R.AskForLanguage)
  }

  /** `handleRegistrationLanguage` */
  function LanguageStep(text: string, ctx: Context, now: int): Outcome {
    var sel := ParseInt(Trim(text));
    if sel.None? || sel.value < 1 || sel.value > 4 then Stay(R.LanguagePrompt)
    else Move(RegistrationLocation, ctx.(language := Some(Languages[sel.value - 1])), now, R.AskForLocation)
  }

  /** `!x` for an optional number: absent, or zero. */
  predicate Falsy(x: Option<real>) {
    x.None? || x.value == 0.0
  }

  /** The user `handleRegistrationLocation` creates: without both shared
      coordinates the typed text is geocoded, otherwise it is kept as the city
      next to the shared coordinates. */
  function Registrant(phone: string, text: string, lat: Option<real>, lng: Option<real>, ctx: Context): NewUser {
    if Falsy(lat) || Falsy(lng) then
      var g := GeocodeLocation(text);
      NewUser(phone, ctx.name, ctx.age, ctx.language, Some(g.city), g.latitude, g.longitude, ctx.name)
    else
      NewUser(phone, ctx.name, ctx.age, ctx.language, Some(text), lat, lng, ctx.name)
  }

  /** `handleRegistrationLocation`: the user is created, and only then is the
      conversation linked to it and made idle; a failed insert throws. */
  function LocationStep(phone: string, text: string, lat: Option<real>, lng: Option<real>, ctx: Context,
                        users: map<string, UserRow>, w: World): Outcome {
    var d := Registrant(phone, text, lat, lng, ctx);
    if !w.userInsertOk || phone in users then Outcome([], Err("Failed to create user"), Register(d))
    else
      var u := NewUserRow(w.userId, d);
      Outcome([SetState(Idle, EmptyContext, Some(u.id), w.clock.now)],
        Ok(R.RegistrationComplete(u.name.GetOr("there"))), Register(d))
  }

  // ---------------------------------------------------------------------------
  // Idle


  /** The context that marks the doctor-selection state as a cancellation. */
  const CancelFlowContext := EmptyContext.(searchResults := Some([]), searchParams := Some(BareIntent(CancelAppointment)))

  /** The user's upcoming appointments, at most five. */
  function Upcoming(appts: seq<Appointment>, userId: string, c: Clock): seq<Appointment> {
    BookingService.UpcomingAppointments(appts, userId, c, 5)
  }

  /** The `find_doctor` and `book_appointment` branch: the doctors found for
      the asked date (today when none is given) are listed and kept. */
  function SearchStep(intent: Intent, slots: seq<SlotRow>, w: World): Outcome {
    var c := w.clock;
    var results := SearchDoctors(DoctorReply(w.doctorTable, w.doctorQueryFailed, intent), slots, Some(ResolveDate(intent.date, c)), c);
    Move(SelectingDoctor, EmptyContext.(searchResults := Some(results), searchParams := Some(intent)), c.now,
      R.DoctorList(results))
  }

  /** The `view_records` branch. */
  function RecordsStep(user: UserRow, w: World): Outcome {
    var records := UserMedicalRecords(w.records, user.id);
    Move(SelectingRecord, EmptyContext.(records := Some(records)), w.clock.now, R.RecordsList(records))
  }

  /** The `check_queue` and `check_status` branch. A queue check for an
      appointment whose doctor join is null throws. */
  function QueueStep(user: UserRow, appts: seq<Appointment>, c: Clock): Outcome {
    var appt := BookingService.TodayAppointment(appts, user.id, c);
    if appt.None? then Stay(R.NoAppointmentToday)
    else if appt.value.doctor.None? then Outcome([], Err("doctor is null"), NoEffect)
    else
      var a := appt.value;
      Stay(R.QueueStatus(a.time, BookingService.QueueStatus(appts, a.doctor.value.id, a.date, c.now)))
  }

  /** The `cancel_appointment` branch. */
  function CancelStartStep(user: UserRow, appts: seq<Appointment>, c: Clock): Outcome {
    var upcoming := Upcoming(appts, user.id, c);
    if |upcoming| == 0 then Stay(R.NothingToCancel)
    else Move(SelectingDoctor, CancelFlowContext, c.now, R.CancelList(upcoming))
  }

  /** The `view_appointments` branch. */
  function AppointmentsStep(user: UserRow, appts: seq<Appointment>, c: Clock): Outcome {
    var upcoming := Upcoming(appts, user.id, c);
    if |upcoming| == 0 then Stay(R.NoUpcoming) else Stay(R.UpcomingList(upcoming))
  }

  /** `handleIdleState` */
  function IdleStep(intent: Intent, user: UserRow, appts: seq<Appointment>, slots: seq<SlotRow>, w: World): (o: Outcome)
    ensures o.effect == NoEffect
  {
    match intent.kind
    case Greeting => Stay(R.Greeting)
    case Help => Stay(R.HelpMessage)
    case FindDoctor => SearchStep(intent, slots, w)
    case BookAppointment => SearchStep(intent, slots, w)
    case ViewRecords => RecordsStep(user, w)
    case CheckQueue => QueueStep(user, appts, w.clock)
    case CheckStatus => QueueStep(user, appts, w.clock)
    case CancelAppointment => CancelStartStep(user, appts, w.clock)
    case ViewAppointments => AppointmentsStep(user, appts, w.clock)
    case _ => Stay(R.Unclear)
  }

  // ---------------------------------------------------------------------------
  // Doctor selection

  /** `searchParams?.intent === 'cancel_appointment'` */
  predicate IsCancelFlow(ctx: Context) {
    ctx.searchParams.Some? && ctx.searchParams.value.kind == CancelAppointment
  }

  /** The doctor's free slots `d` days after today. */
  function SlotsOnDay(slots: seq<SlotRow>, doctorId: string, c: Clock, d: int): seq<Slot> {
    AvailableSlots(slots, doctorId, c.iso(c.today + d))
  }

  function DayProbe(slots: seq<SlotRow>, doctorId: string, c: Clock): int -> seq<Slot> {
    d => SlotsOnDay(slots, doctorId, c, d)
  }

  /** The first non-empty `probe(d)` for a day offset `d` in `k`..7. */
  function FirstNonEmpty<T>(probe: int -> seq<T>, k: nat): (r: Option<seq<T>>)
    ensures r.Some? ==> |r.value| > 0
    decreases 8 - k
  {
    if k > 7 then None
    else if |probe(k)| > 0 then Some(probe(k))
    else FirstNonEmpty(probe, k + 1)
  }

  /** What is found is the first non-empty day from `k` on, and when nothing
      is found every day of `k`..7 is empty. */
  lemma {:induction false} FirstNonEmptyIsFirst<T>(probe: int -> seq<T>, k: nat)
    ensures FirstNonEmpty(probe, k).None? ==> forall d :: k <= d <= 7 ==> |probe(d)| == 0
    ensures FirstNonEmpty(probe, k).Some? ==>
      exists d :: k <= d <= 7 && FirstNonEmpty(probe, k).value == probe(d)
        && forall e :: k <= e < d ==> |probe(e)| == 0
    decreases 8 - k
  {
    if k <= 7 {
      if |probe(k)| > 0 {
        assert FirstNonEmpty(probe, k).value == probe(k);
      } else {
        FirstNonEmptyIsFirst(probe, k + 1);
        if FirstNonEmpty(probe, k + 1).Some? {
          var d :| k + 1 <= d <= 7 && FirstNonEmpty(probe, k + 1).value == probe(d)
            && forall e :: k + 1 <= e < d ==> |probe(e)| == 0;
          assert FirstNonEmpty(probe, k).value == probe(d);
        }
      }
    }
  }

  /** The cancellation branch of `handleSelectingDoctor`: the upcoming list
      is fetched again and the picked appointment cancelled. */
  function CancelChoiceStep(intent: Intent, user: UserRow, appts: seq<Appointment>, w: World): Outcome {
    var upcoming := Upcoming(appts, user.id, w.clock);
    var pick := Pick(intent, |upcoming|);
    if pick.None? then Stay(R.InvalidSelection)
    else
      var id := upcoming[pick.value].id;
      var reply := match CancelResult(appts, id, w)
        case CancelOk => R.CancellationSuccess
        case CancelFailed(e) => R.CancellationFailed(e);
      Outcome([ResetWrite(w.clock.now)], Ok(reply), Cancel(id))
  }

  /** The free slots of the first of the next seven days that has any. */
  function NextWeekSlots(slots: seq<SlotRow>, doctorId: string, c: Clock): Option<seq<Slot>> {
    FirstNonEmpty(DayProbe(slots, doctorId, c), 1)
  }

  /** The slots offered for a picked doctor and the offset of their day: the
      resolved date when it has free slots (offset 0), else the first of the
      next seven days that has some, else none. */
  function OfferedSlots(slots: seq<SlotRow>, doctorId: string, date: string, c: Clock): Option<seq<Slot>> {
    var open := AvailableSlots(slots, doctorId, date);
    if |open| > 0 then Some(open) else NextWeekSlots(slots, doctorId, c)
  }

  /** The doctor-choice branch of `handleSelectingDoctor`. */
  function DoctorChoiceStep(intent: Intent, ctx: Context, slots: seq<SlotRow>, c: Clock): Outcome {
    var pick := if ctx.searchResults.None? then None else Pick(intent, |ctx.searchResults.value|);
    if pick.None? then Stay(R.NumberPrompt(if ctx.searchResults.Some? then |ctx.searchResults.value| else 5))
    else
      var doctor := ctx.searchResults.value[pick.value];
      var date := ResolveDate(if ctx.searchParams.Some? then ctx.searchParams.value.date else None, c);
      var offered := OfferedSlots(slots, doctor.id, date, c);
      if offered.None? then Outcome([ResetWrite(c.now)], Ok(R.NoSlots(doctor.name)), NoEffect)
      else Move(SelectingSlot, ctx.(selectedDoctor := Some(doctor), availableSlots := offered), c.now,
        R.SlotList(doctor, offered.value))
  }

  /** `handleSelectingDoctor` */
  function DoctorStep(intent: Intent, ctx: Context, user: UserRow, appts: seq<Appointment>, slots: seq<SlotRow>, w: World): (o: Outcome)
    ensures o.effect.NoEffect? || o.effect.Cancel?
  {
    if IsCancelFlow(ctx) then CancelChoiceStep(intent, user, appts, w)
    else DoctorChoiceStep(intent, ctx, slots, w.clock)
  }

  // ---------------------------------------------------------------------------
  // Slot selection, confirmation and records

  /** `handleSelectingSlot`. Without offered slots the handler throws on
      `slots.length`; without a selected doctor it throws while building the
      prompt, after the state has been written. */
  function SlotStep(intent: Intent, ctx: Context, c: Clock): (o: Outcome)
    ensures o.effect == NoEffect
  {
    if ctx.availableSlots.None? then Outcome([], Err("slots is undefined"), NoEffect)
    else
      var offered := ctx.availableSlots.value;
      var pick := Pick(intent, |offered|);
      if pick.None? then Stay(R.NumberPrompt(|offered|))
      else
        var slot := offered[pick.value];
        var write := SetState(ConfirmingBooking, ctx.(selectedSlot := Some(slot)), None, c.now);
        if ctx.selectedDoctor.None? then Outcome([write], Err("doctor is undefined"), NoEffect)
        else Outcome([write], Ok(R.BookingConfirmPrompt(ctx.selectedDoctor.value, slot)), NoEffect)
  }

  const SlotTaken := "Slot may have just been taken."

  /** `appointment_id.slice(0, 8).toUpperCase()` */
  function ShortCode(appointmentId: string): string {
    ToUpper(Take(appointmentId, 8))
  }

  /** `handleConfirmingBooking`. A missing doctor or slot throws before the
      booking; a successful result with neither a confirmation code nor an
      appointment id throws after the reset. */
  function ConfirmStep(intent: Intent, ctx: Context, user: UserRow, w: World): (o: Outcome)
    ensures o.effect.NoEffect? || o.effect.Book?
  {
    var now := w.clock.now;
    if intent.kind == No then Outcome([ResetWrite(now)], Ok(R.CancelFlowMessage), NoEffect)
    else if intent.kind != Yes then Stay(R.ConfirmPrompt)
    else if ctx.selectedDoctor.None? || ctx.selectedSlot.None? then Outcome([], Err("doctor or slot is undefined"), NoEffect)
    else
      var doctor := ctx.selectedDoctor.value;
      var slot := ctx.selectedSlot.value;
      var req := BookingRequest(user.id, doctor.id, slot.id, slot.date, slot.time, "whatsapp");
      var result := BookingService.BookAppointment(w.rpc(req));
      if !result.success then
        Outcome([ResetWrite(now)], Ok(R.BookingFailed(result.error.GetOr(SlotTaken))), Book(req))
      else if result.confirmationCode.Some? then
        Outcome([ResetWrite(now)], Ok(R.BookingSuccess(doctor, slot, result.confirmationCode.value)), Book(req))
      else if result.appointmentId.Some? then
        Outcome([ResetWrite(now)], Ok(R.BookingSuccess(doctor, slot, ShortCode(result.appointmentId.value))), Book(req))
      else Outcome([ResetWrite(now)], Err("appointment_id is undefined"), Book(req))
  }

  const DefaultAppUrl := "https://mediconnect.com"

  /** The one-time code, `Math.floor(100000 + Math.random() * 900000)`. A
      draw of 900000 or more cannot come from `Math.random`; it is taken
      modulo 900000 so that every draw names a code. */
  function Otp(w: World): (n: nat)
    ensures 100000 <= n <= 999999
  {
    100000 + w.otpDraw % 900000
  }

  /** How long an access request stays valid: five minutes, in milliseconds. */
  const AccessWindow := 5 * 60 * 1000

  /** The access request logged for a record, with the encoded code and the
      instant it expires as its metadata. */
  function AccessRequest(user: UserRow, rec: RecordSummary, w: World): AuditEntry {
    AuditEntry(user.id, "patient", "medical_record.access_requested", "medical_record", rec.id,
               w.btoa(NatToString(Otp(w))), w.instantIso(w.clock.now + AccessWindow))
  }

  /** The secure link sent for a record. */
  function RecordUrl(w: World): string {
    w.appUrl.GetOr(DefaultAppUrl) + "/view-record?token=" + w.token
  }

  /** `handleSelectingRecord`. Without a listed record set it throws on
      `records.length`. */
  function RecordStep(intent: Intent, ctx: Context, user: UserRow, w: World): (o: Outcome)
    ensures o.effect.NoEffect? || o.effect.Audit?
  {
    if ctx.records.None? then Outcome([], Err("records is undefined"), NoEffect)
    else
      var records := ctx.records.value;
      var pick := Pick(intent, |records|);
      if pick.None? then Stay(R.NumberPrompt(|records|))
      else
        var rec := records[pick.value];
        Outcome([ResetWrite(w.clock.now)],
          Ok(R.SecureRecordLink(rec.title.GetOr(rec.recordType), RecordUrl(w), NatToString(Otp(w)))),
          Audit(AccessRequest(user, rec, w)))
  }

  // ---------------------------------------------------------------------------
  // A whole turn

  /** The registration states of the `switch`. */
  function RegistrationDispatch(st: ConvState, ctx: Context, m: Incoming, t: Tables, w: World): (o: Outcome)
    requires InRegistration(st)
    ensures o.effect.NoEffect? || o.effect.Register?
  {
    var now := w.clock.now;
    match st
    case RegistrationName => NameStep(m.body, now)
    case RegistrationAge => AgeStep(m.body, ctx, now)
    case RegistrationLanguage => LanguageStep(m.body, ctx, now)
    case RegistrationLocation => LocationStep(m.from, m.body, m.latitude, m.longitude, ctx, t.users, w)
  }

  /** The states of a registered user; `updating_profile` and `idle` fall to
      the idle handler. */
  function SessionDispatch(st: ConvState, ctx: Context, intent: Intent, user: UserRow, t: Tables, w: World): (o: Outcome)
    requires !InRegistration(st)
    ensures !o.effect.Register?
  {
    match st
    case SelectingDoctor => DoctorStep(intent, ctx, user, t.appointments, t.slots, w)
    case SelectingSlot => SlotStep(intent, ctx, w.clock)
    case ConfirmingBooking => ConfirmStep(intent, ctx, user, w)
    case SelectingRecord => RecordStep(intent, ctx, user, w)
    case Idle => IdleStep(intent, user, t.appointments, t.slots, w)
    case UpdatingProfile => IdleStep(intent, user, t.appointments, t.slots, w)
  }

  /** The `switch` on the current state. Outside registration the user
      exists. */
  function Dispatch(st: ConvState, ctx: Context, m: Incoming, intent: Intent, user: Option<UserRow>,
                    t: Tables, w: World): Outcome
    requires InRegistration(st) || user.Some?
  {
    if InRegistration(st) then RegistrationDispatch(st, ctx, m, t, w)
    else SessionDispatch(st, ctx, intent, user.value, t, w)
  }

  /** The `catch`: a handler that throws has the conversation reset and
      answers with the generic error text. */
  function Caught(o: Outcome, now: int): (r: Outcome)
    ensures r.reply.Ok?
    ensures r.effect == o.effect
    ensures o.reply.Ok? ==> r == o
    ensures o.reply.Err? ==> r.writes == o.writes + [ResetWrite(now)] && r.reply == Ok(R.ErrorMessage)
  {
    if o.reply.Err? then Outcome(o.writes + [ResetWrite(now)], Ok(R.ErrorMessage), o.effect) else o
  }

  /** The user registered with the sender's number, if any. */
  function UserOf(t: Tables, phone: string): Option<UserRow> {
    if phone in t.users then Some(t.users[phone]) else None
  }

  /** A handler's reply, translated when the user prefers a language other
      than English (an empty preference counts as none). */
  function InLanguage(reply: R.Reply, user: Option<UserRow>): R.Reply {
    var lang := if user.Some? then user.value.preferredLanguage else "English";
    if lang != "" && lang != "English" then R.Translated(reply, lang) else reply
  }

  /** `intent.intent === 'cancel_flow' || msg.body.toLowerCase() === 'cancel'` */
  predicate CancelRequested(m: Incoming, intent: Intent) {
    intent.kind == CancelFlow || ToLower(m.body) == "cancel"
  }

  /** The row `getOrCreateConversation` inserts for a new sender. */
  function FreshRow(w: World, phone: string): ConvRow {
    ConvRow(w.conversationId, None, phone, Some(Idle), Some(EmptyContext), w.clock.now, None)
  }

  /** The conversation as the handlers see it, after the stale check. */
  function Effective(row: ConvRow, now: int): (cv: Conversation)
    ensures cv.id == row.id && cv.userId == row.userId
  {
    var c := AsConversation(row);
    if IsStale(c, now) then c.(state := Idle, context := EmptyContext) else c
  }

  /** The writes the stale check makes. */
  function StaleWrites(row: ConvRow, now: int): seq<Write> {
    if IsStale(AsConversation(row), now) then [ResetWrite(now)] else []
  }

  datatype Turn = Turn(writes: seq<Write>, reply: R.Reply, effect: Effect)

  /** What one message does once the conversation has been through the stale
      check: a sender with no user outside registration is sent to
      registration; a cancel word or intent resets; anything else goes to the
      state's handler, whose failure is caught and whose reply is translated. */
  function Answer(cv: Conversation, m: Incoming, intent: Intent, t: Tables, w: World): Turn {
    var now := w.clock.now;
    var user := UserOf(t, m.from);
    if user.None? && !InRegistration(cv.state) then
      Turn([SetState(RegistrationName, EmptyContext, None, now)], R.WelcomeNewUser, NoEffect)
    else if CancelRequested(m, intent) then
      Turn([ResetWrite(now)], R.CancelFlowMessage, NoEffect)
    else
      var o := Caught(Dispatch(cv.state, cv.context, m, intent, user, t, w), now);
      Turn(o.writes, InLanguage(o.reply.value, user), o.effect)
  }

  /** `processMessage` for the sender's conversation row `row`. */
  function Respond(row: ConvRow, m: Incoming, intent: Intent, t: Tables, w: World): Turn {
    var a := Answer(Effective(row, w.clock.now), m, intent, t, w);
    Turn(StaleWrites(row, w.clock.now) + a.writes, a.reply, a.effect)
  }

  /** The conversation after a turn. */
  function After(row: ConvRow, turn: Turn): Conversation {
    AsConversation(ApplyRow(row, turn.writes))
  }

  // ---------------------------------------------------------------------------
  // The handlers

  /** The `audit_logs` table. */
  class AuditLog {
    var entries: seq<AuditEntry>

    constructor()
      ensures entries == []
    {
      entries := [];
    }

    method Insert(e: AuditEntry)
      modifies this
      ensures entries == old(entries) + [e]
    {
      entries := entries + [e];
    }
  }

  function TablesOf(users: UserStore, booking: BookingService.BookingStore, audit: AuditLog): Tables
    reads users, booking, audit
  {
    Tables(users.users, booking.appointments, booking.slots, audit.entries)
  }

  /** `handleRegistrationName` */
  method HandleRegistrationName(conv: ConversationStore, convId: string, text: string, now: int)
    returns (r: Result<R.Reply>)
    requires conv.Valid()
    modifies conv
    ensures conv.Valid() && conv.messages == old(conv.messages)
    ensures conv.rows == ApplyWrites(old(conv.rows), convId, NameStep(text, now).writes)
    ensures r == NameStep(text, now).reply
  {
    var name := Trim(text);
    if |name| < 2 {
      return Ok(R.FullNamePrompt);
    }
    conv.Update(convId, RegistrationAge, EmptyContext.(name := Some(name)), None, now);
    ApplyOne(old(conv.rows), convId, SetState(RegistrationAge, EmptyContext.(name := Some(name)), None, now));
    return Ok(R.AskForAge(name));
  }

  /** `handleRegistrationAge` */
  method HandleRegistrationAge(conv: ConversationStore, convId: string, text: string, ctx: Context, now: int)
    returns (r: Result<R.Reply>)
    requires conv.Valid()
    modifies conv
    ensures conv.Valid() && conv.messages == old(conv.messages)
    ensures conv.rows == ApplyWrites(old(conv.rows), convId, AgeStep(text, ctx, now).writes)
    ensures r == AgeStep(text, ctx, now).reply
  {
    var age := ParseInt(Trim(text));
    if age.None? || age.value < 1 || age.value > 120 {
      return Ok(R.AgePrompt);
    }
    conv.Update(convId, RegistrationLanguage, ctx.(age := age), None, now);
    ApplyOne(old(conv.rows), convId, SetState(RegistrationLanguage, ctx.(age := age), None, now));
    return Ok(R.AskForLanguage);
  }

  /** `handleRegistrationLanguage` */
  method HandleRegistrationLanguage(conv: ConversationStore, convId: string, text: string, ctx: Context, now: int)
    returns (r: Result<R.Reply>)
    requires conv.Valid()
    modifies conv
    ensures conv.Valid() && conv.messages == old(conv.messages)
    ensures conv.rows == ApplyWrites(old(conv.rows), convId, LanguageStep(text, ctx, now).writes)
    ensures r == LanguageStep(text, ctx, now).reply
  {
    var languages := Languages;
    var sel := ParseInt(Trim(text));
    if sel.None? || sel.value < 1 || sel.value > 4 {
      return Ok(R.LanguagePrompt);
    }
    var language := languages[sel.value - 1];
    conv.Update(convId, RegistrationLocation, ctx.(language := Some(language)), None, now);
    ApplyOne(old(conv.rows), convId, SetState(RegistrationLocation, ctx.(language := Some(language)), None, now));
    return Ok(R.AskForLocation);
  }

  /** `handleRegistrationLocation` */
  method HandleRegistrationLocation(conv: ConversationStore, users: UserStore, convId: string, m: Incoming,
                                    ctx: Context, w: World)
    returns (r: Result<R.Reply>)
    requires conv.Valid() && users.Valid()
    modifies conv, users
    ensures conv.Valid() && users.Valid() && conv.messages == old(conv.messages)
    ensures var o := LocationStep(m.from, m.body, m.latitude, m.longitude, ctx, old(users.users), w);
      && conv.rows == ApplyWrites(old(conv.rows), convId, o.writes)
      && r == o.reply
      && o.effect.Register?
      && users.users == Registered(old(users.users), o.effect.user, w)
  {
    var city: string;
    var lat := m.latitude;
    var lng := m.longitude;
    if Falsy(lat) || Falsy(lng) {
      var g := GeocodeLocation(m.body);
      city := g.city;
      lat := g.latitude;
      lng := g.longitude;
    } else {
      city := m.body;
    }
    var d := NewUser(m.from, ctx.name, ctx.age, ctx.language, Some(city), lat, lng, ctx.name);
    var created := users.CreateUser(d, w.userId, w.userInsertOk);
    if created.Err? {
      return Err("Failed to create user");
    }
    var user := created.value;
    conv.Update(convId, Idle, EmptyContext, Some(user.id), w.clock.now);
    ApplyOne(old(conv.rows), convId, SetState(Idle, EmptyContext, Some(user.id), w.clock.now));
    return Ok(R.RegistrationComplete(user.name.GetOr("there")));
  }

  /** The search branch of `handleIdleState`. */
  method HandleSearch(conv: ConversationStore, convId: string, intent: Intent, slots: seq<SlotRow>, w: World)
    returns (r: Result<R.Reply>)
    requires conv.Valid()
    modifies conv
    ensures conv.Valid() && conv.messages == old(conv.messages)
    ensures conv.rows == ApplyWrites(old(conv.rows), convId, SearchStep(intent, slots, w).writes)
    ensures r == SearchStep(intent, slots, w).reply
  {
    var c := w.clock;
    var date := ResolveDate(intent.date, c);
    var results := SearchDoctors(DoctorReply(w.doctorTable, w.doctorQueryFailed, intent), slots, Some(date), c);
    var ctx := EmptyContext.(searchResults := Some(results), searchParams := Some(intent));
    conv.Update(convId, SelectingDoctor, ctx, None, c.now);
    ApplyOne(old(conv.rows), convId, SetState(SelectingDoctor, ctx, None, c.now));
    return Ok(R.DoctorList(results));
  }

  /** The records branch of `handleIdleState`. */
  method HandleRecords(conv: ConversationStore, convId: string, user: UserRow, w: World)
    returns (r: Result<R.Reply>)
    requires conv.Valid()
    modifies conv
    ensures conv.Valid() && conv.messages == old(conv.messages)
    ensures conv.rows == ApplyWrites(old(conv.rows), convId, RecordsStep(user, w).writes)
    ensures r == RecordsStep(user, w).reply
  {
    var records := UserMedicalRecords(w.records, user.id);
    var ctx := EmptyContext.(records := Some(records));
    conv.Update(convId, SelectingRecord, ctx, None, w.clock.now);
    ApplyOne(old(conv.rows), convId, SetState(SelectingRecord, ctx, None, w.clock.now));
    return Ok(R.RecordsList(records));
  }

  /** The cancellation branch of `handleIdleState`. */
  method HandleCancelStart(conv: ConversationStore, convId: string, user: UserRow, appts: seq<Appointment>, c: Clock)
    returns (r: Result<R.Reply>)
    requires conv.Valid()
    modifies conv
    ensures conv.Valid() && conv.messages == old(conv.messages)
    ensures conv.rows == ApplyWrites(old(conv.rows), convId, CancelStartStep(user, appts, c).writes)
    ensures r == CancelStartStep(user, appts, c).reply
  {
    var upcoming := Upcoming(appts, user.id, c);
    if |upcoming| == 0 {
      return Ok(R.NothingToCancel);
    }
    conv.Update(convId, SelectingDoctor, CancelFlowContext, None, c.now);
    ApplyOne(old(conv.rows), convId, SetState(SelectingDoctor, CancelFlowContext, None, c.now));
    return Ok(R.CancelList(upcoming));
  }

  /** `handleIdleState` */
  method HandleIdle(conv: ConversationStore, convId: string, intent: Intent, user: UserRow,
                    appts: seq<Appointment>, slots: seq<SlotRow>, w: World)
    returns (r: Result<R.Reply>)
    requires conv.Valid()
    modifies conv
    ensures conv.Valid() && conv.messages == old(conv.messages)
    ensures conv.rows == ApplyWrites(old(conv.rows), convId, IdleStep(intent, user, appts, slots, w).writes)
    ensures r == IdleStep(intent, user, appts, slots, w).reply
  {
    match intent.kind {
      case Greeting => r := Ok(R.Greeting);
      case Help => r := Ok(R.HelpMessage);
      case FindDoctor => r := HandleSearch(conv, convId, intent, slots, w);
      case BookAppointment => r := HandleSearch(conv, convId, intent, slots, w);
      case ViewRecords => r := HandleRecords(conv, convId, user, w);
      case CheckQueue => r := QueueStep(user, appts, w.clock).reply;
      case CheckStatus => r := QueueStep(user, appts, w.clock).reply;
      case CancelAppointment => r := HandleCancelStart(conv, convId, user, appts, w.clock);
      case ViewAppointments => r := AppointmentsStep(user, appts, w.clock).reply;
      case _ => r := Ok(R.Unclear);
    }
  }

  /** The `for` loop over the next seven days in `handleSelectingDoctor`:
      the slots of the first day, from tomorrow on, that has any. */
  method ProbeNextWeek(slots: seq<SlotRow>, doctorId: string, c: Clock) returns (offered: Option<seq<Slot>>)
    ensures offered == NextWeekSlots(slots, doctorId, c)
  {
    ghost var probe := DayProbe(slots, doctorId, c);
    var i := 0;
    while i < 7
      invariant 0 <= i <= 7
      invariant FirstNonEmpty(probe, 1) == FirstNonEmpty(probe, i + 1)
    {
      var later := SlotsOnDay(slots, doctorId, c, i + 1);
      assert later == probe(i + 1);
      if |later| > 0 {
        return Some(later);
      }
      i := i + 1;
    }
    return None;
  }

  /** The cancellation branch of `handleSelectingDoctor`. */
  method HandleCancelChoice(conv: ConversationStore, booking: BookingService.BookingStore, convId: string,
                            intent: Intent, user: UserRow, w: World)
    returns (r: Result<R.Reply>)
    requires conv.Valid()
    modifies conv, booking
    ensures conv.Valid() && conv.messages == old(conv.messages)
    ensures var o := CancelChoiceStep(intent, user, old(booking.appointments), w);
      && conv.rows == ApplyWrites(old(conv.rows), convId, o.writes)
      && r == o.reply
      && var t := Perform(Tables(map[], old(booking.appointments), old(booking.slots), []), o.effect, w);
         booking.appointments == t.appointments && booking.slots == t.slots
  {
    var c := w.clock;
    var upcoming := Upcoming(booking.appointments, user.id, c);
    var pick := Pick(intent, |upcoming|);
    if pick.None? {
      return Ok(R.InvalidSelection);
    }
    var id := upcoming[pick.value].id;
    var result := booking.CancelAppointment(id, CancelReason, BookingService.Patient, c, w.cancelUpdateOk);
    conv.Reset(convId, c.now);
    ApplyOne(old(conv.rows), convId, ResetWrite(c.now));
    if result.CancelOk? {
      return Ok(R.CancellationSuccess);
    }
    return Ok(R.CancellationFailed(result.error));
  }

  /** The doctor-choice branch of `handleSelectingDoctor`. */
  method HandleDoctorChoice(conv: ConversationStore, convId: string, intent: Intent, ctx: Context,
                            slots: seq<SlotRow>, c: Clock)
    returns (r: Result<R.Reply>)
    requires conv.Valid()
    modifies conv
    ensures conv.Valid() && conv.messages == old(conv.messages)
    ensures conv.rows == ApplyWrites(old(conv.rows), convId, DoctorChoiceStep(intent, ctx, slots, c).writes)
    ensures r == DoctorChoiceStep(intent, ctx, slots, c).reply
  {
    var pick := if ctx.searchResults.None? then None else Pick(intent, |ctx.searchResults.value|);
    if pick.None? {
      return Ok(R.NumberPrompt(if ctx.searchResults.Some? then |ctx.searchResults.value| else 5));
    }
    var doctor := ctx.searchResults.value[pick.value];
    var date := ResolveDate(if ctx.searchParams.Some? then ctx.searchParams.value.date else None, c);
    var offered := AvailableSlots(slots, doctor.id, date);
    if |offered| == 0 {
      var later := ProbeNextWeek(slots, doctor.id, c);
      if later.None? {
        conv.Reset(convId, c.now);
        ApplyOne(old(conv.rows), convId, ResetWrite(c.now));
        return Ok(R.NoSlots(doctor.name));
      }
      offered := later.value;
    }
    var next := ctx.(selectedDoctor := Some(doctor), availableSlots := Some(offered));
    conv.Update(convId, SelectingSlot, next, None, c.now);
    ApplyOne(old(conv.rows), convId, SetState(SelectingSlot, next, None, c.now));
    return Ok(R.SlotList(doctor, offered));
  }

  /** `handleSelectingDoctor` */
  method HandleSelectingDoctor(conv: ConversationStore, booking: BookingService.BookingStore, convId: string,
                               intent: Intent, ctx: Context, user: UserRow, w: World)
    returns (r: Result<R.Reply>)
    requires conv.Valid()
    modifies conv, booking
    ensures conv.Valid() && conv.messages == old(conv.messages)
    ensures var o := DoctorStep(intent, ctx, user, old(booking.appointments), old(booking.slots), w);
      && conv.rows == ApplyWrites(old(conv.rows), convId, o.writes)
      && r == o.reply
      && var t := Perform(Tables(map[], old(booking.appointments), old(booking.slots), []), o.effect, w);
         booking.appointments == t.appointments && booking.slots == t.slots
  {
    if IsCancelFlow(ctx) {
      r := HandleCancelChoice(conv, booking, convId, intent, user, w);
    } else {
      r := HandleDoctorChoice(conv, convId, intent, ctx, booking.slots, w.clock);
    }
  }

  /** `handleSelectingSlot` */
  method HandleSelectingSlot(conv: ConversationStore, convId: string, intent: Intent, ctx: Context, c: Clock)
    returns (r: Result<R.Reply>)
    requires conv.Valid()
    modifies conv
    ensures conv.Valid() && conv.messages == old(conv.messages)
    ensures conv.rows == ApplyWrites(old(conv.rows), convId, SlotStep(intent, ctx, c).writes)
    ensures r == SlotStep(intent, ctx, c).reply
  {
    if ctx.availableSlots.None? {
      return Err("slots is undefined");
    }
    var offered := ctx.availableSlots.value;
    var pick := Pick(intent, |offered|);
    if pick.None? {
      return Ok(R.NumberPrompt(|offered|));
    }
    var slot := offered[pick.value];
    conv.Update(convId, ConfirmingBooking, ctx.(selectedSlot := Some(slot)), None, c.now);
    ApplyOne(old(conv.rows), convId, SetState(ConfirmingBooking, ctx.(selectedSlot := Some(slot)), None, c.now));
    if ctx.selectedDoctor.None? {
      return Err("doctor is undefined");
    }
    return Ok(R.BookingConfirmPrompt(ctx.selectedDoctor.value, slot));
  }

  /** `handleConfirmingBooking` */
  method HandleConfirmingBooking(conv: ConversationStore, convId: string, intent: Intent, ctx: Context,
                                 user: UserRow, w: World)
    returns (r: Result<R.Reply>)
    requires conv.Valid()
    modifies conv
    ensures conv.Valid() && conv.messages == old(conv.messages)
    ensures conv.rows == ApplyWrites(old(conv.rows), convId, ConfirmStep(intent, ctx, user, w).writes)
    ensures r == ConfirmStep(intent, ctx, user, w).reply
  {
    var now := w.clock.now;
    if intent.kind == No {
      conv.Reset(convId, now);
      ApplyOne(old(conv.rows), convId, ResetWrite(now));
      return Ok(R.CancelFlowMessage);
    }
    if intent.kind != Yes {
      return Ok(R.ConfirmPrompt);
    }
    if ctx.selectedDoctor.None? || ctx.selectedSlot.None? {
      return Err("doctor or slot is undefined");
    }
    var doctor := ctx.selectedDoctor.value;
    var slot := ctx.selectedSlot.value;
    var result := BookingService.BookAppointment(w.rpc(BookingRequest(user.id, doctor.id, slot.id, slot.date, slot.time, "whatsapp")));
    conv.Reset(convId, now);
    ApplyOne(old(conv.rows), convId, ResetWrite(now));
    if !result.success {
      return Ok(R.BookingFailed(result.error.GetOr(SlotTaken)));
    }
    if result.confirmationCode.Some? {
      return Ok(R.BookingSuccess(doctor, slot, result.confirmationCode.value));
    }
    if result.appointmentId.None? {
      return Err("appointment_id is undefined");
    }
    return Ok(R.BookingSuccess(doctor, slot, ShortCode(result.appointmentId.value)));
  }

  /** `handleSelectingRecord` */
  method HandleSelectingRecord(conv: ConversationStore, audit: AuditLog, convId: string, intent: Intent,
                               ctx: Context, user: UserRow, w: World)
    returns (r: Result<R.Reply>)
    requires conv.Valid()
    modifies conv, audit
    ensures conv.Valid() && conv.messages == old(conv.messages)
    ensures var o := RecordStep(intent, ctx, user, w);
      && conv.rows == ApplyWrites(old(conv.rows), convId, o.writes)
      && r == o.reply
      && audit.entries == old(audit.entries) + (if o.effect.Audit? then [o.effect.entry] else [])
  {
    if ctx.records.None? {
      return Err("records is undefined");
    }
    var records := ctx.records.value;
    var pick := Pick(intent, |records|);
    if pick.None? {
      return Ok(R.NumberPrompt(|records|));
    }
    var rec := records[pick.value];
    audit.Insert(AccessRequest(user, rec, w));
    conv.Reset(convId, w.clock.now);
    ApplyOne(old(conv.rows), convId, ResetWrite(w.clock.now));
    return Ok(R.SecureRecordLink(rec.title.GetOr(rec.recordType), RecordUrl(w), NatToString(Otp(w))));
  }

  // ---------------------------------------------------------------------------
  // processMessage

  /** The registration cases of the `switch` in `processMessage`. */
  method HandleRegistration(conv: ConversationStore, users: UserStore, convId: string, st: ConvState, ctx: Context,
                            m: Incoming, w: World, ghost t: Tables)
    returns (r: Result<R.Reply>)
    requires conv.Valid() && users.Valid()
    requires InRegistration(st)
    requires t.users == users.users
    modifies conv, users
    ensures conv.Valid() && users.Valid() && conv.messages == old(conv.messages)
    ensures var o := RegistrationDispatch(st, ctx, m, t, w);
      && conv.rows == ApplyWrites(old(conv.rows), convId, o.writes)
      && r == o.reply
      && users.users == Perform(t, o.effect, w).users
  {
    var now := w.clock.now;
    match st {
      case RegistrationName =>
        r := HandleRegistrationName(conv, convId, m.body, now);
      case RegistrationAge =>
        r := HandleRegistrationAge(conv, convId, m.body, ctx, now);
      case RegistrationLanguage =>
        r := HandleRegistrationLanguage(conv, convId, m.body, ctx, now);
      case RegistrationLocation =>
        r := HandleRegistrationLocation(conv, users, convId, m, ctx, w);
    }
  }

  /** The cases of the `switch` in `processMessage` for a registered user. */
  method HandleSession(conv: ConversationStore, booking: BookingService.BookingStore, audit: AuditLog,
                       convId: string, st: ConvState, ctx: Context, intent: Intent, user: UserRow, w: World,
                       ghost t: Tables)
    returns (r: Result<R.Reply>)
    requires conv.Valid()
    requires !InRegistration(st)
    requires t.appointments == booking.appointments && t.slots == booking.slots && t.audit == audit.entries
    modifies conv, booking, audit
    ensures conv.Valid() && conv.messages == old(conv.messages)
    ensures var o := SessionDispatch(st, ctx, intent, user, t, w);
      && conv.rows == ApplyWrites(old(conv.rows), convId, o.writes)
      && r == o.reply
      && Tables(t.users, booking.appointments, booking.slots, audit.entries) == Perform(t, o.effect, w)
  {
    match st {
      case SelectingDoctor =>
        ghost var o := DoctorStep(intent, ctx, user, t.appointments, t.slots, w);
        r := HandleSelectingDoctor(conv, booking, convId, intent, ctx, user, w);
        PerformOnBooking(t, o.effect, w);
      case SelectingSlot =>
        r := HandleSelectingSlot(conv, convId, intent, ctx, w.clock);
      case ConfirmingBooking =>
        ghost var o := ConfirmStep(intent, ctx, user, w);
        r := HandleConfirmingBooking(conv, convId, intent, ctx, user, w);
        PerformOnBooking(t, o.effect, w);
      case SelectingRecord =>
        r := HandleSelectingRecord(conv, audit, convId, intent, ctx, user, w);
      case Idle =>
        r := HandleIdle(conv, convId, intent, user, booking.appointments, booking.slots, w);
      case UpdatingProfile =>
        r := HandleIdle(conv, convId, intent, user, booking.appointments, booking.slots, w);
    }
  }

  /** The `try` around the `switch` of `processMessage` and its `catch`. */
  method HandleCaught(conv: ConversationStore, users: UserStore, booking: BookingService.BookingStore, audit: AuditLog,
                      cv: Conversation, m: Incoming, intent: Intent, user: Option<UserRow>, w: World, ghost t: Tables)
    returns (reply: R.Reply)
    requires conv.Valid() && users.Valid()
    requires t == TablesOf(users, booking, audit)
    requires user == UserOf(t, m.from)
    requires InRegistration(cv.state) || user.Some?
    modifies conv, users, booking, audit
    ensures conv.Valid() && users.Valid() && conv.messages == old(conv.messages)
    ensures var o := Caught(Dispatch(cv.state, cv.context, m, intent, user, t, w), w.clock.now);
      && conv.rows == ApplyWrites(old(conv.rows), cv.id, o.writes)
      && reply == o.reply.value
      && TablesOf(users, booking, audit) == Perform(t, o.effect, w)
  {
    var now := w.clock.now;
    ghost var o := Dispatch(cv.state, cv.context, m, intent, user, t, w);
    var result;
    if InRegistration(cv.state) {
      result := HandleRegistration(conv, users, cv.id, cv.state, cv.context, m, w, t);
      PerformOnUsers(t, o.effect, w);
    } else {
      result := HandleSession(conv, booking, audit, cv.id, cv.state, cv.context, intent, user.value, w, t);
      PerformKeepsUsers(t, o.effect, w);
    }
    if result.Err? {
      ghost var handled := conv.rows;
      conv.Reset(cv.id, now);
      ApplyOne(handled, cv.id, ResetWrite(now));
      ApplyWritesAppend(old(conv.rows), cv.id, o.writes, [ResetWrite(now)]);
      reply := R.ErrorMessage;
    } else {
      reply := result.value;
    }
  }

  /** The body of `processMessage` after the conversation has been fetched,
      checked for staleness and the inbound message logged. */
  method Route(conv: ConversationStore, users: UserStore, booking: BookingService.BookingStore, audit: AuditLog,
               cv: Conversation, m: Incoming, intent: Intent, user: Option<UserRow>, w: World, ghost t: Tables)
    returns (reply: R.Reply)
    requires conv.Valid() && users.Valid()
    requires t == TablesOf(users, booking, audit)
    requires user == UserOf(t, m.from)
    modifies conv, users, booking, audit
    ensures conv.Valid() && users.Valid() && conv.messages == old(conv.messages)
    ensures var a := Answer(cv, m, intent, t, w);
      && conv.rows == ApplyWrites(old(conv.rows), cv.id, a.writes)
      && reply == a.reply
      && TablesOf(users, booking, audit) == Perform(t, a.effect, w)
  {
    var now := w.clock.now;
    if user.None? && !InRegistration(cv.state) {
      conv.Update(cv.id, RegistrationName, EmptyContext, None, now);
      ApplyOne(old(conv.rows), cv.id, SetState(RegistrationName, EmptyContext, None, now));
      return R.WelcomeNewUser;
    }
    if intent.kind == CancelFlow || ToLower(m.body) == "cancel" {
      conv.Reset(cv.id, now);
      ApplyOne(old(conv.rows), cv.id, ResetWrite(now));
      return R.CancelFlowMessage;
    }
    reply := HandleCaught(conv, users, booking, audit, cv, m, intent, user, w, t);
    var lang := if user.Some? then user.value.preferredLanguage else "English";
    if lang != "" && lang != "English" {
      reply := R.Translated(reply, lang);
    }
  }

  /** The first half of `processMessage`: the sender's conversation is
      fetched or created, reset when stale, and the inbound text logged. */
  method OpenConversation(conv: ConversationStore, m: Incoming, w: World) returns (r: Result<Conversation>)
    requires conv.Valid()
    requires forall p :: p in conv.rows ==> conv.rows[p].id != w.conversationId
    modifies conv
    ensures conv.Valid()
    ensures r.Err? <==> m.from !in old(conv.rows) && !w.conversationInsertOk
    ensures r.Err? ==> conv.rows == old(conv.rows) && conv.messages == old(conv.messages)
    ensures r.Ok? ==>
      var row := if m.from in old(conv.rows) then old(conv.rows)[m.from] else FreshRow(w, m.from);
      var rows0 := old(conv.rows)[m.from := row];
      && WellFormed(rows0)
      && r.value == Effective(row, w.clock.now)
      && conv.rows == ApplyWrites(rows0, row.id, StaleWrites(row, w.clock.now))
      && conv.messages == old(conv.messages) + [MessageRow(row.id, row.userId, Inbound, m.body, "text", None)]
  {
    var now := w.clock.now;
    var got := conv.GetOrCreate(m.from, w.conversationId, w.conversationInsertOk, now);
    if got.Err? {
      return Err(got.error);
    }
    ghost var rows0 := conv.rows;
    ghost var row := rows0[m.from];
    assert rows0 == old(conv.rows)[m.from := row];
    assert got.value == AsConversation(row);
    var cv := conv.CheckAndResetStale(got.value, now);
    if IsStale(got.value, now) {
      ApplyOne(rows0, row.id, ResetWrite(now));
    }
    conv.LogMessage(cv.id, cv.userId, Inbound, m.body, None);
    return Ok(cv);
  }

  /** The stale reset and then a turn's writes, applied to the sender's
      row, replace that row by the row with both applied. */
  lemma TurnRows(rows: map<string, ConvRow>, phone: string, row: ConvRow, stale: seq<Write>, writes: seq<Write>)
    requires WellFormed(rows[phone := row])
    ensures ApplyWrites(ApplyWrites(rows[phone := row], row.id, stale), row.id, writes)
         == rows[phone := ApplyRow(row, stale + writes)]
  {
    var rows0 := rows[phone := row];
    ApplyWritesAppend(rows0, row.id, stale, writes);
    ApplyWritesRow(rows0, phone, stale + writes);
    OverwriteTwice(rows, phone, row, ApplyRow(row, stale + writes));
  }

  /** `processMessage`: the sender's conversation is fetched or created, reset
      when stale, the inbound text logged, and the message answered. Only a
      failure to create the conversation escapes as an error. */
  method ProcessMessage(conv: ConversationStore, users: UserStore, booking: BookingService.BookingStore,
                        audit: AuditLog, m: Incoming, intent: Intent, w: World)
    returns (r: Result<R.Reply>)
    requires conv.Valid() && users.Valid()
    requires forall p :: p in conv.rows ==> conv.rows[p].id != w.conversationId
    modifies conv, users, booking, audit
    ensures conv.Valid() && users.Valid()
    ensures r.Err? <==> m.from !in old(conv.rows) && !w.conversationInsertOk
    ensures r.Err? ==>
      && conv.rows == old(conv.rows) && conv.messages == old(conv.messages)
      && TablesOf(users, booking, audit) == old(TablesOf(users, booking, audit))
    ensures r.Ok? ==>
      var row := if m.from in old(conv.rows) then old(conv.rows)[m.from] else FreshRow(w, m.from);
      var t := old(TablesOf(users, booking, audit));
      var a := Answer(Effective(row, w.clock.now), m, intent, t, w);
      && r == Ok(a.reply)
      && conv.rows == old(conv.rows)[m.from := ApplyRow(row, StaleWrites(row, w.clock.now) + a.writes)]
      && conv.messages == old(conv.messages) + [MessageRow(row.id, row.userId, Inbound, m.body, "text", None)]
      && TablesOf(users, booking, audit) == Perform(t, a.effect, w)
  {
    var now := w.clock.now;
    ghost var t := TablesOf(users, booking, audit);
    var fetched := OpenConversation(conv, m, w);
    if fetched.Err? {
      return Err(fetched.error);
    }
    var cv := fetched.value;
    ghost var row := if m.from in old(conv.rows) then old(conv.rows)[m.from] else FreshRow(w, m.from);
    ghost var rows0 := old(conv.rows)[m.from := row];
    ghost var stale := StaleWrites(row, now);
    var user := users.FindByPhone(m.from);
    var reply := Route(conv, users, booking, audit, cv, m, intent, user, w, t);
    ghost var a := Answer(cv, m, intent, t, w);
    TurnRows(old(conv.rows), m.from, row, stale, a.writes);
    return Ok(reply);
  }
}
