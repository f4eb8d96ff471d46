/** What the engine answers, as a value: each reply of `processMessage` and
    its handlers is one of these, named after the message it is, and
    `Render` writes it out as the text the handlers build. The handlers
    choose the reply; the wording lives here and in the response module. */
module Replies {
  import opened Common
  import D = Domain
  import Rs = Responses

  datatype Reply =
    // the fixed messages of the response module
    | Greeting
    | HelpMessage
    | Unclear
    | WelcomeNewUser
    | ErrorMessage
    | CancelFlowMessage
    | AskForLanguage
    | AskForLocation
    | NoAppointmentToday
    | CancellationSuccess
    // the response module's messages built from data
    | AskForAge(name: string)
    | RegistrationComplete(name: string)
    | NoSlots(doctorName: string)
    | DoctorList(doctors: seq<D.Doctor>)
    | SlotList(doctor: D.Doctor, slots: seq<D.Slot>)
    | BookingConfirmPrompt(doctor: D.Doctor, slot: D.Slot)
    | BookingSuccess(doctor: D.Doctor, slot: D.Slot, code: string)
    | BookingFailed(reason: string)
    | CancellationFailed(reason: string)
    | RecordsList(records: seq<D.RecordSummary>)
    | SecureRecordLink(title: string, url: string, otp: string)
    | QueueStatus(appointmentTime: string, info: D.QueueInfo)
    | CancelList(appointments: seq<D.Appointment>)
    // the messages the message processor writes inline
    | FullNamePrompt
    | AgePrompt
    | LanguagePrompt
    | NumberPrompt(count: nat)
    | InvalidSelection
    | ConfirmPrompt
    | NothingToCancel
    | NoUpcoming
    | UpcomingList(appointments: seq<D.Appointment>)
    // a reply passed through the translator into the user's language
    | Translated(reply: Reply, language: string)

  const UpcomingHeader := "📅 *Your Upcoming Appointments:*\n\n"

  /** One entry of the `view_appointments` list. */
  function UpcomingEntry(k: nat, a: D.Appointment): string {
    NatToString(k) + ". " + a.date + " at " + a.time + "\n"
    + "   Dr. " + Rs.DoctorNameOr(a, "-") + " @ " + (if a.hospital.Some? then a.hospital.value.name else "-") + "\n\n"
  }

  function UpcomingText(appts: seq<D.Appointment>): string {
    UpcomingHeader + Rs.Numbered(appts, UpcomingEntry)
  }

  /** The `forEach` loop of the `view_appointments` branch. */
  method UpcomingMessage(appts: seq<D.Appointment>) returns (msg: string)
    ensures msg == UpcomingText(appts)
  {
    msg := Rs.AppendNumbered(UpcomingHeader, appts, UpcomingEntry);
  }

  /** The text of a reply, with the clock that dates and times are shown
      against and the translator `translate(text, language)`. */
  function Render(r: Reply, c: D.Clock, translate: (string, string) -> string): string {
    match r
    case Greeting => Rs.Greeting
    case HelpMessage => Rs.HelpMessage
    case Unclear => Rs.Unclear
    case WelcomeNewUser => Rs.WelcomeNewUser
    case ErrorMessage => Rs.ErrorMessage
    case CancelFlowMessage => Rs.CancelFlowMessage
    case AskForLanguage => Rs.AskForLanguage
    case AskForLocation => Rs.AskForLocation
    case NoAppointmentToday => Rs.NoAppointmentToday
    case CancellationSuccess => Rs.CancellationSuccess
    case AskForAge(name) => Rs.AskForAge(name)
    case RegistrationComplete(name) => Rs.RegistrationComplete(name)
    case NoSlots(name) => Rs.NoSlots(name)
    case DoctorList(docs) => Rs.DoctorListText(docs, c)
    case SlotList(doctor, slots) => Rs.SlotListText(doctor, slots, c)
    case BookingConfirmPrompt(doctor, slot) => Rs.BookingConfirmPrompt(doctor, slot, c)
    case BookingSuccess(doctor, slot, code) => Rs.BookingSuccess(doctor, slot, code, c)
    case BookingFailed(reason) => Rs.BookingFailed(reason)
    case CancellationFailed(reason) => Rs.CancellationFailed(reason)
    case RecordsList(recs) => Rs.RecordsListText(recs, c)
    case SecureRecordLink(title, url, otp) => Rs.SecureRecordLink(title, url, otp)
    case QueueStatus(time, info) => Rs.QueueStatusText(time, info)
    case CancelList(appts) => Rs.CancelListText(appts, c)
    case FullNamePrompt => "Please enter your full name."
    case AgePrompt => "Please enter a valid age (number only, e.g. 28)."
    case LanguagePrompt => "Please reply with 1, 2, 3, or 4."
    case NumberPrompt(n) => "Please reply with a number between 1 and " + NatToString(n) + "."
    case InvalidSelection => "Invalid selection. Please reply with a valid number."
    case ConfirmPrompt => "Please reply *YES* to confirm or *NO* to cancel."
    case NothingToCancel => "📅 You have no upcoming appointments to cancel."
    case NoUpcoming => "📅 No upcoming appointments."
    case UpcomingList(appts) => UpcomingText(appts)
    case Translated(inner, language) => translate(Render(inner, c, translate), language)
  }
}
