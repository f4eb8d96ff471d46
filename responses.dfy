/** The replies of the WhatsApp engine: 12-hour times, "Today"/"Tomorrow",
    the fixed messages and the numbered list, queue and failure messages. */
module Responses {
  import opened Common
  import opened Domain

  // ---------------------------------------------------------------------------
  // Times and dates

  /** The text before the first ':' of a `HH:MM:SS` time. */
  function HourPart(time: string): string {
    SplitOn(time, ':')[0]
  }

  /** The text between the first and the second ':'; a destructured element
      that does not exist prints as "undefined". */
  function MinutePart(time: string): string {
    var parts := SplitOn(time, ':');
    if |parts| > 1 then parts[1] else "undefined"
  }

  /** `h % 12` in JavaScript, where the remainder takes the sign of the
      dividend. */
  function JsRem12(h: int): (r: int)
    ensures -12 < r < 12
    ensures (h - r) % 12 == 0
    ensures h >= 0 ==> r >= 0
    ensures h < 0 ==> r <= 0
  {
    if h >= 0 then h % 12 else -((-h) % 12)
  }

  /** The hour a 12-hour clock shows for an hour of the 24-hour clock. */
  function ClockHour(h: int): int
    requires 0 <= h <= 23
  {
    if h == 0 then 12 else if h <= 12 then h else h - 12
  }

  /** `formatTime` */
  function FormatTime(time: string): string {
    var hour := ParseInt(HourPart(time));
    var ampm := if hour.Some? && hour.value >= 12 then "PM" else "AM";
    var hour12 := if hour.None? then 12 else (var m := JsRem12(hour.value); if m == 0 then 12 else m);
    IntToString(hour12) + ":" + MinutePart(time) + " " + ampm
  }

  /** Hour 0 is 12 AM, 1..11 are AM, 12 is 12 PM and 13..23 are (h - 12) PM;
      the minutes are copied verbatim. An hour that does not parse
      (`NaN % 12 || 12`) shows as 12 AM. */
  lemma FormatTimeClock(time: string)
    ensures var h := ParseInt(HourPart(time));
      h.Some? && 0 <= h.value <= 23 ==>
        FormatTime(time) == NatToString(ClockHour(h.value)) + ":" + MinutePart(time) + " " + (if h.value < 12 then "AM" else "PM")
    ensures ParseInt(HourPart(time)).None? ==> FormatTime(time) == "12:" + MinutePart(time) + " AM"
  {
    var h := ParseInt(HourPart(time));
    if h.Some? && 0 <= h.value <= 23 {
      var m := JsRem12(h.value);
      assert m == h.value % 12;
      var hour12 := if m == 0 then 12 else m;
      assert hour12 == ClockHour(h.value);
      assert IntToString(hour12) == NatToString(ClockHour(h.value));
    } else if h.None? {
      assert NatToString(12) == "12";
    }
  }

  /** `formatDate`: today's and tomorrow's ISO dates read "Today" and
      "Tomorrow"; any other date takes the clock's locale rendering. */
  function FormatDate(date: string, c: Clock): string {
    if date == TodayIso(c) then "Today"
    else if date == TomorrowIso(c) then "Tomorrow"
    else c.localeDate(date)
  }

  lemma FormatDateRelative(c: Clock, date: string)
    ensures FormatDate(TodayIso(c), c) == "Today"
    ensures TomorrowIso(c) != TodayIso(c) ==> FormatDate(TomorrowIso(c), c) == "Tomorrow"
    ensures date != TodayIso(c) && date != TomorrowIso(c) ==> FormatDate(date, c) == c.localeDate(date)
  {
  }

  // ---------------------------------------------------------------------------
  // Fixed messages

  const Greeting :=
    "👋 Hi! I'm your MediConnect health assistant.\n\n"
    + "I can help you:\n"
    + "🔍 Find doctors by specialty\n"
    + "📅 Book appointments\n"
    + "📋 View your medical records\n"
    + "🏥 Check queue status\n\n"
    + "Just tell me what you need! For example:\n"
    + "• \"I need a cardiologist\"\n"
    + "• \"Book appointment with Dr. Sharma\"\n"
    + "• \"My records\"\n"
    + "• \"Help\""

  const WelcomeNewUser :=
    "👋 Welcome to MediConnect!\n\n"
    + "I'll help you book doctor appointments across hospitals in "
    + "your city.\n\n"
    + "Let's get you set up in 30 seconds.\n\n"
    + "*What's your name?*"

  const AskForLanguage :=
    "Almost done!\n\n"
    + "Which language do you prefer?\n\n"
    + "1\U{FE0F}\U{20E3} English\n"
    + "2\U{FE0F}\U{20E3} हिंदी (Hindi)\n"
    + "3\U{FE0F}\U{20E3} తెలుగు (Telugu)\n"
    + "4\U{FE0F}\U{20E3} தமிழ் (Tamil)\n\n"
    + "Reply with 1, 2, 3, or 4"

  const AskForLocation :=
    "Last step — share your location so I can find hospitals near "
    + "you.\n\n"
    + "📍 *Option 1:* Use WhatsApp's location sharing button\n"
    + "📝 *Option 2:* Just type your area/city (e.g. \"Banjara Hills, "
    + "Hyderabad\")"

  const NoDoctorsFound :=
    "😕" + " Sorry, I couldn't find any doctors matching your request.\n\n"
    + "Try:\n"
    + "• A different specialty\n"
    + "• Broader location\n"
    + "• \"Help\" for more options"

  const NoRecords :=
    "📋 You don't have any medical records yet.\n\n"
    + "Your records will appear here after your first consultation."

  const NoAppointmentToday :=
    "📅 You don't have any appointments today.\n\n"
    + "Say *\"I need a doctor\"* to book one!"

  const CancellationSuccess :=
    "✅ *Appointment Cancelled*\n\n"
    + "Your appointment has been cancelled and the slot is now free.\n\n"
    + "Need to rebook? Just say *\"I need a doctor\"*"

  const HelpMessage :=
    "❓ *How can I help?*\n\n"
    + "📚 *Quick commands:*\n"
    + "• *\"I need a [specialty]\"* — Find doctors\n"
    + "• *\"My appointments\"* — View upcoming\n"
    + "• *\"Cancel appointment\"* — Cancel booking\n"
    + "• *\"My records\"* — Medical records\n"
    + "• *\"Queue status\"* — Today's queue\n"
    + "• *\"Update profile\"* — Change your info\n\n"
    + "📞 *Human support:*\n"
    + "Email: support@mediconnect.com"

  const Unclear :=
    "🤔 I didn't quite understand that.\n\n"
    + "Try saying:\n"
    + "• \"I need a cardiologist\"\n"
    + "• \"Book appointment\"\n"
    + "• \"My records\"\n"
    + "• \"Help\""

  const ErrorMessage :=
    "😕 Something went wrong on my end. Please try again in a "
    + "moment.\n\n"
    + "Type *\"help\"* if the issue persists."

  const CancelFlowMessage :=
    "↩\U{FE0F} Okay, cancelled. Back to the main menu.\n\n"
    + "What would you like to do? Type *\"help\"* to see options."

  const AskForAgeTail := "*! 😊\n\nHow old are you? _(just the number, e.g. 28)_"

  function AskForAge(name: string): string {
    "Nice to meet you, *" + name + AskForAgeTail
  }

  const RegistrationCompleteTail :=
    "*!\n\n"
    + "You can now:\n"
    + "🔍 Say *\"I need a cardiologist\"* to find doctors\n"
    + "📅 Book appointments instantly\n"
    + "📋 Say *\"my records\"* to view medical records\n"
    + "🏥 Say *\"queue status\"* before your appointment\n\n"
    + "What would you like to do?"

  function RegistrationComplete(name: string): string {
    "✅ You're all set, *" + name + RegistrationCompleteTail
  }

  const NoSlotsTail :=
    " has no available slots in the next 30 days.\n\n"
    + "Would you like to:\n"
    + "1\U{FE0F}\U{20E3} See other doctors\n"
    + "2\U{FE0F}\U{20E3} Try a different date\n\n"
    + "Reply with 1 or 2"

  function NoSlots(doctorName: string): string {
    "😕 Dr. " + doctorName + NoSlotsTail
  }

  // ---------------------------------------------------------------------------
  // Numbered lists

  /** What a `forEach((x, i) => msg += entry(i + 1, x))` loop appends: the
      entries for 1..|xs| in order. */
  function Numbered<T>(xs: seq<T>, entry: (nat, T) -> string): string
    decreases |xs|
  {
    if |xs| == 0 then "" else Numbered(xs[..|xs| - 1], entry) + entry(|xs|, xs[|xs| - 1])
  }

  /** The `forEach` loop itself, appending to `msg0`. */
  method AppendNumbered<T>(msg0: string, xs: seq<T>, entry: (nat, T) -> string) returns (msg: string)
    ensures msg == msg0 + Numbered(xs, entry)
  {
    msg := msg0;
    var i := 0;
    while i < |xs|
      invariant 0 <= i <= |xs|
      invariant msg == msg0 + Numbered(xs[..i], entry)
    {
      assert xs[..i + 1][..i] == xs[..i];
      msg := msg + entry(i + 1, xs[i]);
      i := i + 1;
    }
    assert xs[..i] == xs;
  }

  /** Every element appears in the list under its 1-based number. */
  lemma {:induction false} NumberedContains<T>(xs: seq<T>, entry: (nat, T) -> string, k: nat)
    requires 1 <= k <= |xs|
    ensures Contains(Numbered(xs, entry), entry(k, xs[k - 1]))
  {
    var n := |xs|;
    var prefix := Numbered(xs[..n - 1], entry);
    if k == n {
      ContainsMiddle(prefix, entry(n, xs[n - 1]), "");
      assert prefix + entry(n, xs[n - 1]) + "" == Numbered(xs, entry);
    } else {
      NumberedContains(xs[..n - 1], entry, k);
      assert xs[..n - 1][k - 1] == xs[k - 1];
      ContainsExtend(prefix, entry(n, xs[n - 1]), entry(k, xs[k - 1]));
    }
  }

  /** `${n}\U{FE0F}\U{20E3}`: the number followed by the keycap combining marks. */
  function Keycap(n: nat): string {
    NatToString(n) + "\U{FE0F}\U{20E3}"
  }

  // ---------------------------------------------------------------------------
  // Doctor list

  /** `${rating}` for a rating held in tenths: 4.5 prints "4.5", 4.0 prints "4". */
  function RatingText(tenths: int): (r: string)
    ensures tenths % 10 == 0 ==> r == IntToString(tenths / 10)
  {
    var a := if tenths < 0 then -tenths else tenths;
    var sign := if tenths < 0 then "-" else "";
    if a % 10 == 0 then sign + NatToString(a / 10)
    else sign + NatToString(a / 10) + "." + [DigitChar(a % 10)]
  }

  /** `${doctor.hospital?.name}`, which prints "undefined" without a hospital. */
  function HospitalName(h: Option<HospitalInfo>): string {
    if h.Some? then h.value.name else "undefined"
  }

  /** The star in front of the specialization. */
  function PromotionMark(h: Option<HospitalInfo>): (r: string)
    ensures r != "" <==> h.Some? && h.value.promotionLevel.Some?
  {
    if h.Some? && h.value.promotionLevel.Some? then "⭐ " else ""
  }

  function NextSlotLine(doc: Doctor, c: Clock): string {
    if doc.nextSlot.Some? then
      "\n   📅 Next: " + FormatDate(doc.nextSlot.value.date, c) + " at " + FormatTime(doc.nextSlot.value.time)
    else "\n   ❌ No slots available soon"
  }

  function DoctorEntryHead(k: nat, doc: Doctor): string {
    "*" + NatToString(k) + ". Dr. " + doc.name + "*\n"
  }

  function DoctorEntryRest(doc: Doctor, c: Clock): string {
    "   " + PromotionMark(doc.hospital) + doc.specialization + " | ⭐ " + RatingText(doc.ratingTenths) + "\n"
    + "   🏥 " + HospitalName(doc.hospital) + "\n"
    + "   💰 ₹" + IntToString(doc.fee) + NextSlotLine(doc, c) + "\n\n"
  }

  /** The four lines of one search result. */
  function DoctorEntry(k: nat, doc: Doctor, c: Clock): string {
    DoctorEntryHead(k, doc) + DoctorEntryRest(doc, c)
  }

  function DoctorListHeader(n: nat): string {
    "Found *" + NatToString(n) + " doctor" + (if n > 1 then "s" else "") + "*:\n\n"
  }

  function DoctorListFooter(n: nat): string {
    "Reply with a number (1-" + NatToString(n) + ") to book"
  }

  function DoctorEntries(docs: seq<Doctor>, c: Clock): string {
    Numbered(docs, (k, d) => DoctorEntry(k, d, c))
  }

  /** `doctorListMessage` */
  function DoctorListText(docs: seq<Doctor>, c: Clock): string {
    if |docs| == 0 then NoDoctorsFound
    else DoctorListHeader(|docs|) + DoctorEntries(docs, c) + DoctorListFooter(|docs|)
  }

  method DoctorListMessage(docs: seq<Doctor>, c: Clock) returns (msg: string)
    ensures msg == DoctorListText(docs, c)
  {
    if |docs| == 0 {
      return NoDoctorsFound;
    }
    msg := DoctorListHeader(|docs|);
    msg := AppendNumbered(msg, docs, (k, d) => DoctorEntry(k, d, c));
    msg := msg + DoctorListFooter(|docs|);
  }

  /** The empty list has its own reply, and no non-empty list produces it. */
  lemma DoctorListEmpty(docs: seq<Doctor>, c: Clock)
    ensures DoctorListText(docs, c) == NoDoctorsFound <==> |docs| == 0
  {
    if |docs| > 0 {
      var header := DoctorListHeader(|docs|);
      var rest := DoctorEntries(docs, c) + DoctorListFooter(|docs|);
      assert DoctorListText(docs, c) == header + rest;
      assert header[0] == 'F';
      assert NoDoctorsFound[0] != 'F';
    }
  }

  /** A non-empty list starts with whatever its header starts with. */
  lemma DoctorListKeepsHeader(docs: seq<Doctor>, c: Clock, start: string)
    requires |docs| > 0
    requires StartsWith(DoctorListHeader(|docs|), start)
    ensures StartsWith(DoctorListText(docs, c), start)
  {
    StartsWithExtend(DoctorListHeader(|docs|), DoctorEntries(docs, c), start);
    StartsWithExtend(DoctorListHeader(|docs|) + DoctorEntries(docs, c), DoctorListFooter(|docs|), start);
  }

  /** The header counts "1 doctor" or "n doctors". */
  lemma DoctorListHeaderCount(docs: seq<Doctor>, c: Clock)
    requires |docs| > 0
    ensures |docs| == 1 ==> StartsWith(DoctorListText(docs, c), "Found *1 doctor*")
    ensures |docs| > 1 ==> StartsWith(DoctorListText(docs, c), "Found *" + NatToString(|docs|) + " doctors*")
  {
    var n := |docs|;
    var start := if n == 1 then "Found *1 doctor*" else "Found *" + NatToString(n) + " doctors*";
    HeaderCount(n);
    DoctorListKeepsHeader(docs, c, start);
  }

  lemma HeaderCount(n: nat)
    requires n > 0
    ensures n == 1 ==> StartsWith(DoctorListHeader(n), "Found *1 doctor*")
    ensures n > 1 ==> StartsWith(DoctorListHeader(n), "Found *" + NatToString(n) + " doctors*")
  {
    var start := "Found *" + NatToString(n) + (if n == 1 then " doctor*" else " doctors*");
    assert DoctorListHeader(n) == start + ":\n\n";
    StartsWithAppend(start, ":\n\n");
    if n == 1 {
      assert NatToString(1) == "1";
    }
  }

  /** Each result appears under its number 1..n. */
  lemma DoctorListNumbersEntries(docs: seq<Doctor>, c: Clock, k: nat)
    requires 1 <= k <= |docs|
    ensures Contains(DoctorListText(docs, c), "*" + NatToString(k) + ". Dr. " + docs[k - 1].name + "*\n")
  {
    var body := DoctorEntries(docs, c);
    var head := DoctorEntryHead(k, docs[k - 1]);
    NumberedContains(docs, (j, d) => DoctorEntry(j, d, c), k);
    ContainsPrefix(head, DoctorEntryRest(docs[k - 1], c));
    ContainsTransitive(body, DoctorEntry(k, docs[k - 1], c), head);
    ContainsExtend(body, DoctorListHeader(|docs|), head);
    ContainsExtend(DoctorListHeader(|docs|) + body, DoctorListFooter(|docs|), head);
  }

  /** The footer offers the range 1-n. */
  lemma DoctorListFooterRange(docs: seq<Doctor>, c: Clock)
    requires |docs| > 0
    ensures EndsWith(DoctorListText(docs, c), "Reply with a number (1-" + NatToString(|docs|) + ") to book")
  {
    var front := DoctorListHeader(|docs|) + DoctorEntries(docs, c);
    var footer := DoctorListFooter(|docs|);
    assert (front + footer)[|front + footer| - |footer|..] == footer;
  }

  // ---------------------------------------------------------------------------
  // Slot list and booking

  function SlotEntry(k: nat, slot: Slot, c: Clock): string {
    Keycap(k) + " " + FormatDate(slot.date, c) + " at " + FormatTime(slot.time) + "\n"
  }

  function SlotListHeader(doctor: Doctor): string {
    "*Dr. " + doctor.name + "* — " + doctor.specialization + "\n"
    + "🏥 " + HospitalName(doctor.hospital) + "\n"
    + "⭐ " + RatingText(doctor.ratingTenths) + " | 💰 ₹" + IntToString(doctor.fee) + "\n\n*Available slots:*\n\n"
  }

  /** `slotListMessage` */
  function SlotListText(doctor: Doctor, slots: seq<Slot>, c: Clock): string {
    SlotListHeader(doctor) + Numbered(slots, (k, s) => SlotEntry(k, s, c)) + "\nReply with slot number"
  }

  method SlotListMessage(doctor: Doctor, slots: seq<Slot>, c: Clock) returns (msg: string)
    ensures msg == SlotListText(doctor, slots, c)
  {
    msg := SlotListHeader(doctor);
    msg := AppendNumbered(msg, slots, (k, s) => SlotEntry(k, s, c));
    msg := msg + "\nReply with slot number";
  }

  /** Each offered slot is listed under its keycap number. */
  lemma SlotListNumbersSlots(doctor: Doctor, slots: seq<Slot>, c: Clock, k: nat)
    requires 1 <= k <= |slots|
    ensures Contains(SlotListText(doctor, slots, c), Keycap(k) + " " + FormatDate(slots[k - 1].date, c) + " at " + FormatTime(slots[k - 1].time) + "\n")
  {
    var entry := (j, s) => SlotEntry(j, s, c);
    NumberedContains(slots, entry, k);
    ContainsMiddle(SlotListHeader(doctor), Numbered(slots, entry), "\nReply with slot number");
    ContainsTransitive(SlotListText(doctor, slots, c), Numbered(slots, entry), entry(k, slots[k - 1]));
  }

  function BookingConfirmPrompt(doctor: Doctor, slot: Slot, c: Clock): string {
    "*Confirm your booking?*\n\n👨\U{200D}⚕\U{FE0F} Dr. " + doctor.name + "\n"
    + "🏥 " + HospitalName(doctor.hospital) + "\n"
    + "📅 " + FormatDate(slot.date, c) + " at " + FormatTime(slot.time) + "\n"
    + "💰 ₹" + IntToString(doctor.fee) + "\n\nReply *YES* to confirm or *NO* to cancel"
  }

  /** `doctor.hospital?.address ?? doctor.hospital?.city ?? ''` */
  function HospitalAddress(h: Option<HospitalInfo>): string {
    if h.Some? && h.value.address.Some? then h.value.address.value
    else if h.Some? && h.value.city.Some? then h.value.city.value
    else ""
  }

  function BookingDetails(doctor: Doctor, slot: Slot, c: Clock): string {
    "✅ *Appointment Confirmed!*\n\n📋 *Your Details:*\n👨\U{200D}⚕\U{FE0F} " + doctor.name + " - " + doctor.specialization + "\n"
    + "🏥 " + HospitalName(doctor.hospital) + "\n"
    + "📍 " + HospitalAddress(doctor.hospital) + "\n"
    + "📅 " + FormatDate(slot.date, c) + " at " + FormatTime(slot.time) + "\n"
    + "💰 Fee: ₹" + IntToString(doctor.fee) + "\n"
    + "🔖 Code: *"
  }

  const BookingSuccessTail :=
    "*\n\n"
    + "I'll remind you 1 day before and 1 hour before your "
    + "appointment.\n\n"
    + "Reply *\"queue status\"* on the day to check your position."

  function BookingSuccess(doctor: Doctor, slot: Slot, code: string, c: Clock): string {
    BookingDetails(doctor, slot, c) + code + BookingSuccessTail
  }

  /** The confirmation names the booking code. */
  lemma BookingSuccessShowsCode(doctor: Doctor, slot: Slot, code: string, c: Clock)
    ensures Contains(BookingSuccess(doctor, slot, code, c), code)
  {
    ContainsMiddle(BookingDetails(doctor, slot, c), code, BookingSuccessTail);
  }

  // ---------------------------------------------------------------------------
  // Failure messages

  const BookingFailedPrefix := "❌ Booking failed: "
  const BookingFailedSuffix := "\n\nPlease try again or choose a different slot."
  const CancellationFailedPrefix := "❌ Could not cancel: "

  function BookingFailed(reason: string): string {
    BookingFailedPrefix + reason + BookingFailedSuffix
  }

  function CancellationFailed(reason: string): string {
    CancellationFailedPrefix + reason
  }

  /** The reason a booking-failure reply carries, if it is one. */
  function BookingFailedReason(msg: string): Option<string> {
    var p, s := |BookingFailedPrefix|, |BookingFailedSuffix|;
    if p + s <= |msg| && msg[..p] == BookingFailedPrefix && msg[|msg| - s..] == BookingFailedSuffix
    then Some(msg[p..|msg| - s])
    else None
  }

  /** The reason a cancellation-failure reply carries, if it is one. */
  function CancellationFailedReason(msg: string): Option<string> {
    var p := |CancellationFailedPrefix|;
    if p <= |msg| && msg[..p] == CancellationFailedPrefix then Some(msg[p..]) else None
  }

  /** Both failure replies embed the reason verbatim: it can be read back. */
  lemma FailureReasonsRoundTrip(reason: string)
    ensures BookingFailedReason(BookingFailed(reason)) == Some(reason)
    ensures CancellationFailedReason(CancellationFailed(reason)) == Some(reason)
  {
    var m := BookingFailed(reason);
    assert m[..|BookingFailedPrefix|] == BookingFailedPrefix;
    assert m[|m| - |BookingFailedSuffix|..] == BookingFailedSuffix;
    assert m[|BookingFailedPrefix|..|m| - |BookingFailedSuffix|] == reason;
    var n := CancellationFailed(reason);
    assert n[..|CancellationFailedPrefix|] == CancellationFailedPrefix;
    assert n[|CancellationFailedPrefix|..] == reason;
  }

  // ---------------------------------------------------------------------------
  // Medical records

  /** `rec.title ?? rec.record_type` */
  function RecordLabel(rec: RecordSummary): string {
    if rec.title.Some? then rec.title.value else rec.recordType
  }

  function RecordEntry(k: nat, rec: RecordSummary, c: Clock): string {
    Keycap(k) + " " + RecordLabel(rec) + "\n"
    + "   📅 " + c.recordDate(rec.createdAt) + " — 🏥 " + rec.hospitalName + "\n\n"
  }

  function RecordEntries(recs: seq<RecordSummary>, c: Clock): string {
    Numbered(recs, (k, r) => RecordEntry(k, r, c))
  }

  /** `recordsListMessage` */
  const RecordsHeader := "📋 *Your Medical Records:*\n\n"
  const RecordsFooter := "Reply with number to view securely 🔒"

  function RecordsListText(recs: seq<RecordSummary>, c: Clock): string {
    if |recs| == 0 then NoRecords else RecordsHeader + RecordEntries(recs, c) + RecordsFooter
  }

  method RecordsListMessage(recs: seq<RecordSummary>, c: Clock) returns (msg: string)
    ensures msg == RecordsListText(recs, c)
  {
    if |recs| == 0 {
      return NoRecords;
    }
    msg := AppendNumbered(RecordsHeader, recs, (k, r) => RecordEntry(k, r, c));
    msg := msg + RecordsFooter;
  }

  /** An empty records list has its own reply rather than an empty list. */
  lemma RecordsListEmpty(recs: seq<RecordSummary>, c: Clock)
    ensures RecordsListText(recs, c) == NoRecords <==> |recs| == 0
  {
    if |recs| > 0 {
      StartsWithAppend(RecordsHeader, RecordEntries(recs, c));
      StartsWithExtend(RecordsHeader + RecordEntries(recs, c), RecordsFooter, RecordsHeader);
      assert RecordsListText(recs, c)[2] == RecordsHeader[2] == '*';
      assert NoRecords[2] == 'Y';
    }
  }

  /** A non-empty records list lists every record under its number. */
  lemma RecordsListHasEach(recs: seq<RecordSummary>, c: Clock, k: nat)
    requires 1 <= k <= |recs|
    ensures Contains(RecordsListText(recs, c), RecordEntry(k, recs[k - 1], c))
  {
    var entry := RecordEntry(k, recs[k - 1], c);
    NumberedContains(recs, (j, r) => RecordEntry(j, r, c), k);
    ContainsExtend(RecordEntries(recs, c), RecordsHeader, entry);
    ContainsExtend(RecordsHeader + RecordEntries(recs, c), RecordsFooter, entry);
  }

  function SecureRecordLink(title: string, url: string, otp: string): string {
    "🔒 *Secure Access*\n\nTo view your *" + title + "*:\n\n👆 Tap this link:\n" + url + "\n\n🔑 Your OTP: *" + otp + "*\n\n⏰ Expires in 5 minutes"
  }

  // ---------------------------------------------------------------------------
  // Queue status

  /** The last line: late when the delay is over 15 minutes. */
  function QueueStatusLine(delay: int): string {
    if delay > 15 then "⚠\U{FE0F} Doctor is running ~" + IntToString(delay) + " mins late" else "✅ Roughly on schedule"
  }

  /** `${n} patient${n !== 1 ? 's' : ''} ahead` */
  function PatientsAhead(n: int): string {
    IntToString(n) + (if n != 1 then " patients ahead" else " patient ahead")
  }

  function QueueHead(appointmentTime: string): string {
    "📊 *Queue Status*\n\nYour appointment: " + FormatTime(appointmentTime) + "\n\n├─ 👥 "
  }

  /** `queueStatusMessage`; a number the result leaves out prints as 0. */
  function QueueStatusText(appointmentTime: string, q: QueueInfo): string {
    QueueHead(appointmentTime)
    + PatientsAhead(q.patientsAhead.GetOr(0))
    + "\n├─ ⏱\U{FE0F} Est. wait: "
    + IntToString(q.estimatedWait.GetOr(0))
    + " mins\n└─ "
    + QueueStatusLine(q.currentDelay.GetOr(0))
    + "\n\nI'll notify you when you're next."
  }

  /** A delay over 15 minutes shows the late line and any other delay the
      on-schedule line. */
  lemma QueueStatusDelay(appointmentTime: string, q: QueueInfo)
    ensures var delay := q.currentDelay.GetOr(0);
      var msg := QueueStatusText(appointmentTime, q);
      && (delay > 15 ==> Contains(msg, "⚠\U{FE0F} Doctor is running ~" + IntToString(delay) + " mins late"))
      && (delay <= 15 ==> Contains(msg, "✅ Roughly on schedule"))
  {
    var front := QueueHead(appointmentTime)
      + PatientsAhead(q.patientsAhead.GetOr(0))
      + "\n├─ ⏱\U{FE0F} Est. wait: "
      + IntToString(q.estimatedWait.GetOr(0))
      + " mins\n└─ ";
    ContainsMiddle(front, QueueStatusLine(q.currentDelay.GetOr(0)), "\n\nI'll notify you when you're next.");
  }

  lemma QueueShowsPatientsAhead(appointmentTime: string, q: QueueInfo)
    ensures Contains(QueueStatusText(appointmentTime, q), PatientsAhead(q.patientsAhead.GetOr(0)))
  {
    var p := PatientsAhead(q.patientsAhead.GetOr(0));
    var a := QueueHead(appointmentTime) + p;
    ContainsSuffix(QueueHead(appointmentTime), p);
    ContainsExtend(a, "\n├─ ⏱\U{FE0F} Est. wait: ", p);
    var b := a + "\n├─ ⏱\U{FE0F} Est. wait: ";
    ContainsExtend(b, IntToString(q.estimatedWait.GetOr(0)), p);
    var d := b + IntToString(q.estimatedWait.GetOr(0));
    ContainsExtend(d, " mins\n└─ ", p);
    ContainsExtend(d + " mins\n└─ ", QueueStatusLine(q.currentDelay.GetOr(0)), p);
    ContainsExtend(d + " mins\n└─ " + QueueStatusLine(q.currentDelay.GetOr(0)), "\n\nI'll notify you when you're next.", p);
  }

  /** "patient" is plural for every count but 1, and a missing count reads
      "0 patients ahead". */
  lemma QueueStatusPatients(appointmentTime: string, q: QueueInfo)
    ensures var n := q.patientsAhead.GetOr(0);
      Contains(QueueStatusText(appointmentTime, q), IntToString(n) + (if n == 1 then " patient ahead" else " patients ahead"))
    ensures q.patientsAhead.None? ==> Contains(QueueStatusText(appointmentTime, q), "0 patients ahead")
  {
    QueueShowsPatientsAhead(appointmentTime, q);
    if q.patientsAhead.None? {
      NoPatientsAhead();
    }
  }

  lemma NoPatientsAhead()
    ensures PatientsAhead(0) == "0 patients ahead"
  {
    assert IntToString(0) == "0";
  }

  // ---------------------------------------------------------------------------
  // Cancellation list

  /** `appt.doctor?.name ?? fallback` */
  function DoctorNameOr(appt: Appointment, fallback: string): string {
    if appt.doctor.Some? then appt.doctor.value.name else fallback
  }

  function CancelEntry(k: nat, appt: Appointment, c: Clock): string {
    Keycap(k) + " " + FormatDate(appt.date, c) + " at " + FormatTime(appt.time) + "\n"
    + "   Dr. " + DoctorNameOr(appt, "Unknown") + "\n\n"
  }

  /** `appointmentsListForCancel` */
  function CancelListText(appts: seq<Appointment>, c: Clock): string {
    "📅 *Your Upcoming Appointments:*\n\n" + Numbered(appts, (k, a) => CancelEntry(k, a, c)) + "Reply with number to cancel, or *BACK* to go back"
  }

  /** Each upcoming appointment is listed under its keycap number with its
      date, time and doctor, "Unknown" standing in for a missing doctor. */
  lemma CancelListNumbersAppointments(appts: seq<Appointment>, c: Clock, k: nat)
    requires 1 <= k <= |appts|
    ensures Contains(CancelListText(appts, c),
      Keycap(k) + " " + FormatDate(appts[k - 1].date, c) + " at " + FormatTime(appts[k - 1].time) + "\n"
      + "   Dr. " + (if appts[k - 1].doctor.Some? then appts[k - 1].doctor.value.name else "Unknown") + "\n\n")
  {
    var entry := (j, a) => CancelEntry(j, a, c);
    NumberedContains(appts, entry, k);
    ContainsMiddle("📅 *Your Upcoming Appointments:*\n\n", Numbered(appts, entry), "Reply with number to cancel, or *BACK* to go back");
    ContainsTransitive(CancelListText(appts, c), Numbered(appts, entry), entry(k, appts[k - 1]));
  }

  method CancelListMessage(appts: seq<Appointment>, c: Clock) returns (msg: string)
    ensures msg == CancelListText(appts, c)
  {
    msg := "📅 *Your Upcoming Appointments:*\n\n";
    msg := AppendNumbered(msg, appts, (k, a) => CancelEntry(k, a, c));
    msg := msg + "Reply with number to cancel, or *BACK* to go back";
  }
}
