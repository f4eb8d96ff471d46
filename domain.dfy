/** The records the WhatsApp booking engine passes around: conversation
    states, the extracted intent, doctors, slots, records and the rows of the
    appointments and slot tables it reads and writes. */
module Domain {
  import opened Common

  // ---------------------------------------------------------------------------
  // Conversation

  datatype ConvState =
    | Idle
    | RegistrationName
    | RegistrationAge
    | RegistrationLanguage
    | RegistrationLocation
    | SelectingDoctor
    | SelectingSlot
    | ConfirmingBooking
    | UpdatingProfile
    | SelectingRecord

  /** The value stored in `current_state`. */
  function StateName(s: ConvState): string {
    match s
    case Idle => "idle"
    case RegistrationName => "registration_name"
    case RegistrationAge => "registration_age"
    case RegistrationLanguage => "registration_language"
    case RegistrationLocation => "registration_location"
    case SelectingDoctor => "selecting_doctor"
    case SelectingSlot => "selecting_slot"
    case ConfirmingBooking => "confirming_booking"
    case UpdatingProfile => "updating_profile"
    case SelectingRecord => "selecting_record"
  }

  /** The four registration steps; the engine tests them as
      `state.startsWith('registration')`, which `InRegistrationByName` shows
      is the same test. */
  predicate InRegistration(s: ConvState) {
    s.RegistrationName? || s.RegistrationAge? || s.RegistrationLanguage? || s.RegistrationLocation?
  }

  /** Exactly the registration steps have a stored name that starts with
      `registration`. */
  lemma InRegistrationByName(s: ConvState)
    ensures InRegistration(s) <==> StartsWith(StateName(s), "registration")
  {
    var n := StateName(s);
    assert n[0] == 'r' <==> InRegistration(s);
  }

  datatype IntentKind =
    | FindDoctor
    | BookAppointment
    | ViewRecords
    | CancelAppointment
    | CheckQueue
    | CheckStatus
    | ViewAppointments
    | UpdateProfile
    | AddFamily
    | Favorites
    | Help
    | Greeting
    | Yes
    | No
    | NumberReply
    | CancelFlow
    | Unclear

  /** What the language model extracted from one message. */
  datatype Intent = Intent(
    kind: IntentKind,
    specialty: Option<string>,
    location: Option<string>,
    date: Option<string>,
    hospitalPreference: Option<string>,
    language: Option<string>,
    number: Option<int>,
    rawText: Option<string>)

  /** `{ intent: kind }` with every other field absent. */
  function BareIntent(kind: IntentKind): Intent {
    Intent(kind, None, None, None, None, None, None, None)
  }

  datatype Slot = Slot(id: string, date: string, time: string)

  datatype PromotionLevel = Promoted | Premium

  datatype HospitalInfo = HospitalInfo(
    id: string,
    name: string,
    address: Option<string>,
    city: Option<string>,
    tier: Option<int>,
    isPromoted: bool,
    promotionLevel: Option<PromotionLevel>)

  /** A search result: the doctor row, its hospital (absent when the join found
      nothing) and, once enriched, the next free slot. The rating is held in
      tenths (4.5 is 45). */
  datatype Doctor = Doctor(
    id: string,
    name: string,
    specialization: string,
    qualifications: Option<string>,
    experienceYears: Option<int>,
    fee: int,
    ratingTenths: int,
    languages: seq<string>,
    hospital: Option<HospitalInfo>,
    nextSlot: Option<Slot>)

  datatype RecordSummary = RecordSummary(
    id: string,
    title: Option<string>,
    recordType: string,
    createdAt: string,
    hospitalName: string)

  /** The JSON `context` column; every field is optional. */
  datatype Context = Context(
    searchResults: Option<seq<Doctor>>,
    selectedDoctor: Option<Doctor>,
    availableSlots: Option<seq<Slot>>,
    selectedSlot: Option<Slot>,
    records: Option<seq<RecordSummary>>,
    name: Option<string>,
    age: Option<int>,
    language: Option<string>,
    searchParams: Option<Intent>)

  /** `{}` */
  const EmptyContext := Context(None, None, None, None, None, None, None, None, None)

  // ---------------------------------------------------------------------------
  // Database rows

  datatype ApptStatus = Confirmed | Cancelled | Completed | NoShow | CheckedIn | InConsultation

  datatype DoctorRef = DoctorRef(id: string, name: string, specialization: string)

  datatype HospitalRef = HospitalRef(id: string, name: string, address: Option<string>, city: Option<string>)

  /** A row of `appointments` with the doctor and hospital joins resolved
      (`None` when the join found nothing). Instants are milliseconds. */
  datatype Appointment = Appointment(
    id: string,
    userId: Option<string>,
    doctorId: string,
    doctor: Option<DoctorRef>,
    hospital: Option<HospitalRef>,
    date: string,
    time: string,
    status: ApptStatus,
    slotId: Option<string>,
    patientName: Option<string>,
    patientPhone: Option<string>,
    consultationStartedAt: Option<int>,
    cancelledAt: Option<int>,
    cancellationReason: Option<string>,
    reminderSent24h: bool,
    reminderSent1h: bool)

  /** The patient in the consulting room, as `getQueueStatus` reports it. */
  datatype ConsultingPatient = ConsultingPatient(patientName: Option<string>, startedAt: Option<int>)

  /** What `getQueueStatus` returns. The empty-queue result and the busy-queue
      result carry different fields; a field the result leaves out is `None`. */
  datatype QueueInfo = QueueInfo(
    patientsAhead: Option<int>,
    estimatedWait: Option<int>,
    currentDelay: Option<int>,
    inConsultation: Option<ConsultingPatient>,
    checkedInCount: Option<int>,
    waitingCount: Option<int>)

  /** A row of `appointment_slots`. */
  datatype SlotRow = SlotRow(id: string, doctorId: string, date: string, time: string, available: bool)

  // ---------------------------------------------------------------------------
  // Clock

  /** The wall clock as the engine sees it: `now` in milliseconds, today as a
      day number, the `toISOString().split('T')[0]` rendering of a day number,
      the instant of a local date and time (`new Date(date + 'T' + time)`),
      and the two `toLocaleDateString` renderings the replies use (weekday,
      month and day for slots; day, month and year for records). */
  datatype Clock = Clock(
    now: int,
    today: int,
    iso: int -> string,
    instant: (string, string) -> int,
    localeDate: string -> string,
    recordDate: string -> string)

  function TodayIso(c: Clock): string { c.iso(c.today) }

  /** `getDay()` of a day number counted from 1 January 1970, a Thursday:
      0 is Sunday, 6 is Saturday. */
  function Weekday(day: int): (r: int)
    ensures 0 <= r < 7
  {
    (day + 4) % 7
  }
  function TomorrowIso(c: Clock): string { c.iso(c.today + 1) }

  /** One hour and two hours in milliseconds. */
  const HourMs := 60 * 60 * 1000
  const TwoHoursMs := 2 * 60 * 60 * 1000
}
