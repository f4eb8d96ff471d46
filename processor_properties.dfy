/** What one inbound message does to the sender's conversation, read back from
    the step functions of `processMessage`: the order of the checks at the top
    of the turn, the registration sequence, the rule for numbered replies,
    the slot fallback over the next seven days, confirmation and the
    cancellation flow. */
module ProcessorProperties {
  import opened Common
  import opened Domain
  import opened ConversationManager
  import opened SearchService
  import opened UserService
  import opened MessageProcessor
  import R = Replies
  import Responses
  import BookingService

  // ---------------------------------------------------------------------------
  // The top of the turn

  /** A sender without a user record, outside registration, is sent to the
      first registration step with the welcome text, whatever the message
      says, a cancel word included. */
  lemma UnregisteredIsWelcomed(row: ConvRow, m: Incoming, intent: Intent, t: Tables, w: World)
    requires UserOf(t, m.from).None?
    requires !InRegistration(Effective(row, w.clock.now).state)
    ensures var turn := Respond(row, m, intent, t, w);
      && turn.reply == R.WelcomeNewUser
      && turn.effect == NoEffect
      && After(row, turn).state == RegistrationName
      && After(row, turn).context == EmptyContext
  {
    var now := w.clock.now;
    var turn := Respond(row, m, intent, t, w);
    assert turn.writes == StaleWrites(row, now) + [SetState(RegistrationName, EmptyContext, None, now)];
    ReadBack(row, turn.writes);
  }

  /** Otherwise a cancel word (in any case) or a `cancel_flow` intent resets
      the conversation from any state, and no handler runs. */
  lemma CancelResetsFromAnyState(row: ConvRow, m: Incoming, intent: Intent, t: Tables, w: World)
    requires UserOf(t, m.from).Some? || InRegistration(Effective(row, w.clock.now).state)
    requires CancelRequested(m, intent)
    ensures var turn := Respond(row, m, intent, t, w);
      && turn.reply == R.CancelFlowMessage
      && turn.effect == NoEffect
      && After(row, turn).state == Idle
      && After(row, turn).context == EmptyContext
  {
    var now := w.clock.now;
    var turn := Respond(row, m, intent, t, w);
    assert turn.writes == StaleWrites(row, now) + [ResetWrite(now)];
    ReadBack(row, turn.writes);
  }

  /** A handler that throws leaves the conversation idle with an empty
      context, and the sender gets the generic error text (translated like
      any other reply). */
  lemma FailureResets(row: ConvRow, m: Incoming, intent: Intent, t: Tables, w: World)
    requires UserOf(t, m.from).Some? || InRegistration(Effective(row, w.clock.now).state)
    requires !CancelRequested(m, intent)
    requires var cv := Effective(row, w.clock.now);
      Dispatch(cv.state, cv.context, m, intent, UserOf(t, m.from), t, w).reply.Err?
    ensures var turn := Respond(row, m, intent, t, w);
      && turn.reply == InLanguage(R.ErrorMessage, UserOf(t, m.from))
      && After(row, turn).state == Idle
      && After(row, turn).context == EmptyContext
  {
    var now := w.clock.now;
    var cv := Effective(row, now);
    var o := Dispatch(cv.state, cv.context, m, intent, UserOf(t, m.from), t, w);
    var turn := Respond(row, m, intent, t, w);
    assert turn.writes == StaleWrites(row, now) + (o.writes + [ResetWrite(now)]);
    ReadBack(row, turn.writes);
  }

  /** A handler that answers without writing leaves the conversation in the
      state and context the stale check left it in. */
  lemma RepromptKeepsConversation(row: ConvRow, m: Incoming, intent: Intent, t: Tables, w: World)
    requires UserOf(t, m.from).Some? || InRegistration(Effective(row, w.clock.now).state)
    requires !CancelRequested(m, intent)
    requires var cv := Effective(row, w.clock.now);
      var o := Dispatch(cv.state, cv.context, m, intent, UserOf(t, m.from), t, w);
      o.reply.Ok? && o.writes == []
    ensures var turn := Respond(row, m, intent, t, w);
      && After(row, turn).state == Effective(row, w.clock.now).state
      && After(row, turn).context == Effective(row, w.clock.now).context
  {
    var now := w.clock.now;
    var turn := Respond(row, m, intent, t, w);
    assert turn.writes == StaleWrites(row, now);
    ReadBack(row, turn.writes);
  }

  /** A handler that answers after writing leaves the conversation in the
      state and context of its last write. */
  lemma MoveTakesLastWrite(row: ConvRow, m: Incoming, intent: Intent, t: Tables, w: World, o: Outcome)
    requires UserOf(t, m.from).Some? || InRegistration(Effective(row, w.clock.now).state)
    requires !CancelRequested(m, intent)
    requires o == Dispatch(Effective(row, w.clock.now).state, Effective(row, w.clock.now).context, m, intent,
                           UserOf(t, m.from), t, w)
    requires o.reply.Ok? && |o.writes| > 0 && o.writes[|o.writes| - 1].SetState?
    ensures After(row, Respond(row, m, intent, t, w)).state == o.writes[|o.writes| - 1].state
    ensures After(row, Respond(row, m, intent, t, w)).context == o.writes[|o.writes| - 1].context
  {
    var now := w.clock.now;
    var turn := Respond(row, m, intent, t, w);
    assert turn.writes == StaleWrites(row, now) + o.writes;
    assert turn.writes[|turn.writes| - 1] == o.writes[|o.writes| - 1];
    ReadBack(row, turn.writes);
  }

  // ---------------------------------------------------------------------------
  // Registration

  /** The registration step that follows `st`; the last one leads to idle. */
  function NextRegistration(st: ConvState): ConvState
    requires InRegistration(st)
  {
    match st
    case RegistrationName => RegistrationAge
    case RegistrationAge => RegistrationLanguage
    case RegistrationLanguage => RegistrationLocation
    case RegistrationLocation => Idle
  }

  /** An age reply in 1..120. */
  predicate ValidAge(text: string) {
    var n := ParseInt(Trim(text));
    n.Some? && 1 <= n.value <= 120
  }

  /** A language reply among the four numbered choices. */
  predicate ValidLanguage(text: string) {
    var n := ParseInt(Trim(text));
    n.Some? && 1 <= n.value <= 4
  }

  /** The answers that let registration move on: a trimmed name of two or
      more characters, an age in 1..120, a language number in 1..4, and a
      location whose user insert succeeds. */
  predicate Accepted(st: ConvState, m: Incoming, t: Tables, w: World)
    requires InRegistration(st)
  {
    match st
    case RegistrationName => |Trim(m.body)| >= 2
    case RegistrationAge => ValidAge(m.body)
    case RegistrationLanguage => ValidLanguage(m.body)
    case RegistrationLocation => w.userInsertOk && m.from !in t.users
  }

  /** Registration moves one step forward exactly on an accepted answer and
      writes nothing otherwise; a rejected name, age or language re-prompts. */
  lemma RegistrationAdvancesInOrder(st: ConvState, ctx: Context, m: Incoming, t: Tables, w: World)
    requires InRegistration(st)
    ensures var o := RegistrationDispatch(st, ctx, m, t, w);
      && (Accepted(st, m, t, w) <==> |o.writes| == 1)
      && (Accepted(st, m, t, w) ==> o.writes[0].SetState? && o.writes[0].state == NextRegistration(st) && o.reply.Ok?)
      && (!Accepted(st, m, t, w) ==> o.writes == [])
      && (!Accepted(st, m, t, w) && st != RegistrationLocation ==> o.reply.Ok?)
  {
  }

  /** The name step starts the context afresh with the trimmed name; the age
      and language steps add their field and keep every other one. */
  lemma RegistrationBuildsContext(st: ConvState, ctx: Context, m: Incoming, t: Tables, w: World)
    requires InRegistration(st) && st != RegistrationLocation
    requires Accepted(st, m, t, w)
    ensures var c := RegistrationDispatch(st, ctx, m, t, w).writes[0].context;
      && (st == RegistrationName ==> c == EmptyContext.(name := Some(Trim(m.body))))
      && (st == RegistrationAge ==> c == ctx.(age := ParseInt(Trim(m.body))))
      && (st == RegistrationLanguage ==>
            c == ctx.(language := Some(Languages[ParseInt(Trim(m.body)).value - 1])))
  {
  }

  /** The four language numbers stand for English, Hindi, Telugu and Tamil, in
      that order. */
  lemma LanguageNumbers(ctx: Context, now: int)
    ensures var o := LanguageStep("1", ctx, now); |o.writes| == 1 && o.writes[0].context.language == Some("English")
    ensures var o := LanguageStep("2", ctx, now); |o.writes| == 1 && o.writes[0].context.language == Some("Hindi")
    ensures var o := LanguageStep("3", ctx, now); |o.writes| == 1 && o.writes[0].context.language == Some("Telugu")
    ensures var o := LanguageStep("4", ctx, now); |o.writes| == 1 && o.writes[0].context.language == Some("Tamil")
  {
    ParsesDigit("1", 1);
    ParsesDigit("2", 2);
    ParsesDigit("3", 3);
    ParsesDigit("4", 4);
  }

  /** A lone digit trims to itself and parses to its value. */
  lemma ParsesDigit(s: string, n: int)
    requires |s| == 1 && '0' <= s[0] <= '9' && n == s[0] as int - '0' as int
    ensures ParseInt(Trim(s)) == Some(n)
  {
    assert TrimStart(s[1..]) == s[1..];
    assert TrimStart(s) == s;
    assert s[..|s| - 1] == "";
    assert TrimEnd(s) == s;
    assert DigitRun(s[1..], 10) == 0;
    assert DigitRun(s, 10) == 1;
    assert s[..1] == s;
    assert s[..0] == "";
    assert DigitsValue(s, 10) == n;
  }

  // ---------------------------------------------------------------------------
  // Numbered replies

  /** The length of the list a selecting state picks from, when there is one:
      the freshly fetched upcoming appointments in the cancellation flow, the
      doctors found, the slots offered or the records listed. */
  function ListLength(st: ConvState, ctx: Context, user: UserRow, t: Tables, w: World): Option<nat> {
    match st
    case SelectingDoctor =>
      if IsCancelFlow(ctx) then Some(|Upcoming(t.appointments, user.id, w.clock)|)
      else if ctx.searchResults.Some? then Some(|ctx.searchResults.value|)
      else None
    case SelectingSlot => if ctx.availableSlots.Some? then Some(|ctx.availableSlots.value|) else None
    case SelectingRecord => if ctx.records.Some? then Some(|ctx.records.value|) else None
    case _ => None
  }

  /** In every selecting state a number outside 1..n (zero and unparsable
      replies included) re-prompts and changes nothing. */
  lemma OutOfRangeChangesNothing(st: ConvState, ctx: Context, intent: Intent, user: UserRow, t: Tables, w: World)
    requires ListLength(st, ctx, user, t, w).Some?
    requires Pick(intent, ListLength(st, ctx, user, t, w).value).None?
    ensures !InRegistration(st)
    ensures var o := SessionDispatch(st, ctx, intent, user, t, w);
      o.writes == [] && o.effect == NoEffect && o.reply.Ok?
  {
    assert st in {SelectingDoctor, SelectingSlot, SelectingRecord};
    if st == SelectingDoctor {
      assert DoctorStep(intent, ctx, user, t.appointments, t.slots, w).writes == [];
    }
  }

  /** A slot reply n in range stores slot n (counting from 1) and asks for
      confirmation. */
  lemma SlotPickStoresSlot(intent: Intent, ctx: Context, c: Clock)
    requires ctx.availableSlots.Some?
    requires Pick(intent, |ctx.availableSlots.value|).Some?
    ensures var n := SelectionNumber(intent).value;
      var o := SlotStep(intent, ctx, c);
      && 1 <= n <= |ctx.availableSlots.value|
      && o.writes == [SetState(ConfirmingBooking, ctx.(selectedSlot := Some(ctx.availableSlots.value[n - 1])), None, c.now)]
  {
  }

  /** A record reply n in range logs an access request for record n and
      resets the conversation. The code sent is six digits; the entry
      carries its encoding and expires five minutes after now. */
  lemma RecordPickLogsAccess(intent: Intent, ctx: Context, user: UserRow, w: World)
    requires ctx.records.Some?
    requires Pick(intent, |ctx.records.value|).Some?
    ensures var n := SelectionNumber(intent).value;
      var o := RecordStep(intent, ctx, user, w);
      && 1 <= n <= |ctx.records.value|
      && o.writes == [ResetWrite(w.clock.now)]
      && o.effect == Audit(AccessRequest(user, ctx.records.value[n - 1], w))
      && o.effect.entry.entityId == ctx.records.value[n - 1].id
      && o.reply.Ok? && o.reply.value.SecureRecordLink?
      && |o.reply.value.otp| == 6
      && o.effect.entry.otpHash == w.btoa(o.reply.value.otp)
      && o.effect.entry.expiresAt == w.instantIso(w.clock.now + 300000)
  {
    NatToStringLength(Otp(w), 5);
  }

  /** A check_queue or check_status intent in idle takes the queue branch. */
  lemma IdleQueueStep(intent: Intent, user: UserRow, appts: seq<Appointment>, slots: seq<SlotRow>, w: World)
    requires intent.kind == CheckQueue || intent.kind == CheckStatus
    ensures IdleStep(intent, user, appts, slots, w) == QueueStep(user, appts, w.clock)
  {
  }

  /** A queue check for today's appointment answers with `getQueueStatus` as
      it is: when others are queued the count of patients ahead is missing,
      and whatever the queue the reply reads "0 patients ahead". */
  lemma QueueCheckShowsNoneAhead(intent: Intent, user: UserRow, appts: seq<Appointment>, slots: seq<SlotRow>,
                                 w: World)
    requires intent.kind == CheckQueue || intent.kind == CheckStatus
    requires var a := BookingService.TodayAppointment(appts, user.id, w.clock); a.Some? && a.value.doctor.Some?
    ensures var a := BookingService.TodayAppointment(appts, user.id, w.clock).value;
      var o := IdleStep(intent, user, appts, slots, w);
      && o.writes == []
      && o.reply.Ok? && o.reply.value.QueueStatus?
      && (|BookingService.DayQueue(appts, a.doctor.value.id, a.date)| > 0 ==> o.reply.value.info.patientsAhead.None?)
      && Contains(Responses.QueueStatusText(o.reply.value.appointmentTime, o.reply.value.info), "0 patients ahead")
  {
    var a := BookingService.TodayAppointment(appts, user.id, w.clock).value;
    var q := BookingService.QueueStatus(appts, a.doctor.value.id, a.date, w.clock.now);
    IdleQueueStep(intent, user, appts, slots, w);
    assert QueueStep(user, appts, w.clock) == Stay(R.QueueStatus(a.time, q));
    assert |BookingService.DayQueue(appts, a.doctor.value.id, a.date)| > 0 ==> q.patientsAhead.None? by {
      if |BookingService.DayQueue(appts, a.doctor.value.id, a.date)| > 0 {
        BookingService.QueueStatusOmitsPatientsAhead(appts, a.doctor.value.id, a.date, w.clock.now);
      }
    }
    assert Contains(Responses.QueueStatusText(a.time, q), "0 patients ahead") by {
      QueueReplyReadsNoneAhead(a.time, q);
    }
  }

  /** A queue reply whose count is missing or 0 reads "0 patients ahead". */
  lemma QueueReplyReadsNoneAhead(time: string, q: QueueInfo)
    requires q.patientsAhead.None? || q.patientsAhead == Some(0)
    ensures Contains(Responses.QueueStatusText(time, q), "0 patients ahead")
  {
    assert q.patientsAhead.GetOr(0) == 0;
    Responses.QueueShowsPatientsAhead(time, q);
    Responses.NoPatientsAhead();
  }

  // ---------------------------------------------------------------------------
  // Cancellation flow

  /** `cancel_appointment` in idle stays idle when nothing is upcoming, and
      otherwise lists the upcoming appointments and enters the cancellation
      branch of doctor selection. */
  lemma CancelFlowStarts(intent: Intent, user: UserRow, appts: seq<Appointment>, slots: seq<SlotRow>, w: World)
    requires intent.kind == CancelAppointment
    ensures var o := IdleStep(intent, user, appts, slots, w);
      && (|Upcoming(appts, user.id, w.clock)| == 0 ==> o.writes == [])
      && (|Upcoming(appts, user.id, w.clock)| > 0 ==>
            && o.writes == [SetState(SelectingDoctor, CancelFlowContext, None, w.clock.now)]
            && IsCancelFlow(o.writes[0].context))
  {
  }

  /** In the cancellation branch a number n in range cancels the n-th
      upcoming appointment, fetched again, and resets the conversation
      whether or not the cancellation succeeded. */
  lemma CancelPickCancels(intent: Intent, user: UserRow, appts: seq<Appointment>, w: World)
    requires Pick(intent, |Upcoming(appts, user.id, w.clock)|).Some?
    ensures var n := SelectionNumber(intent).value;
      var upcoming := Upcoming(appts, user.id, w.clock);
      var o := CancelChoiceStep(intent, user, appts, w);
      && 1 <= n <= |upcoming|
      && o.writes == [ResetWrite(w.clock.now)]
      && o.effect == Cancel(upcoming[n - 1].id)
  {
    var upcoming := Upcoming(appts, user.id, w.clock);
    var pick := Pick(intent, |upcoming|);
    assert pick.value == SelectionNumber(intent).value - 1;
    var o := CancelChoiceStep(intent, user, appts, w);
    assert o.writes == [ResetWrite(w.clock.now)] && o.effect == Cancel(upcoming[pick.value].id);
  }

  // ---------------------------------------------------------------------------
  // Doctor choice and the slot fallback

  /** The slots offered for a doctor: those of the resolved date when it has
      any; otherwise those of the first of the next seven days that has some,
      no earlier day of the seven having any; and none exactly when all seven
      days are empty too. */
  lemma FallbackTakesFirstOpenDay(slots: seq<SlotRow>, doctorId: string, date: string, c: Clock)
    ensures |AvailableSlots(slots, doctorId, date)| > 0 ==>
      OfferedSlots(slots, doctorId, date, c) == Some(AvailableSlots(slots, doctorId, date))
    ensures |AvailableSlots(slots, doctorId, date)| == 0 ==>
      (OfferedSlots(slots, doctorId, date, c).None? <==> forall d :: 1 <= d <= 7 ==> |SlotsOnDay(slots, doctorId, c, d)| == 0)
    ensures |AvailableSlots(slots, doctorId, date)| == 0 && OfferedSlots(slots, doctorId, date, c).Some? ==>
      exists d :: 1 <= d <= 7
        && OfferedSlots(slots, doctorId, date, c).value == SlotsOnDay(slots, doctorId, c, d)
        && |SlotsOnDay(slots, doctorId, c, d)| > 0
        && forall e :: 1 <= e < d ==> |SlotsOnDay(slots, doctorId, c, e)| == 0
  {
    var probe := DayProbe(slots, doctorId, c);
    FirstNonEmptyIsFirst(probe, 1);
    forall d | 1 <= d <= 7
      ensures probe(d) == SlotsOnDay(slots, doctorId, c, d)
    {
    }
  }

  /** A picked doctor whose offer is empty resets the conversation and tells
      the sender there are no slots; otherwise the doctor and the offered
      slots are stored and slot selection begins. */
  lemma DoctorPickStoresOffer(intent: Intent, ctx: Context, slots: seq<SlotRow>, c: Clock)
    requires ctx.searchResults.Some?
    requires Pick(intent, |ctx.searchResults.value|).Some?
    ensures var doctor := ctx.searchResults.value[SelectionNumber(intent).value - 1];
      var date := ResolveDate(if ctx.searchParams.Some? then ctx.searchParams.value.date else None, c);
      var offered := OfferedSlots(slots, doctor.id, date, c);
      var o := DoctorChoiceStep(intent, ctx, slots, c);
      && (offered.None? ==> o.writes == [ResetWrite(c.now)] && o.reply == Ok(R.NoSlots(doctor.name)))
      && (offered.Some? ==>
            o.writes == [SetState(SelectingSlot, ctx.(selectedDoctor := Some(doctor), availableSlots := offered), None, c.now)])
  {
  }

  // ---------------------------------------------------------------------------
  // Confirmation

  /** "No" resets with the cancel text, any intent but "yes" re-prompts and
      changes nothing, and "yes" with a doctor and a slot books and then
      resets whatever the booking procedure answers. */
  lemma ConfirmationRules(intent: Intent, ctx: Context, user: UserRow, w: World)
    ensures var o := ConfirmStep(intent, ctx, user, w);
      && (intent.kind == No ==> o.writes == [ResetWrite(w.clock.now)] && o.reply == Ok(R.CancelFlowMessage))
      && (intent.kind != No && intent.kind != Yes ==> o.writes == [] && o.reply == Ok(R.ConfirmPrompt))
      && (intent.kind == Yes && ctx.selectedDoctor.Some? && ctx.selectedSlot.Some? ==>
            && o.writes == [ResetWrite(w.clock.now)]
            && o.effect.Book?
            && o.effect.request.slotId == ctx.selectedSlot.value.id
            && o.effect.request.doctorId == ctx.selectedDoctor.value.id)
  {
  }
}
