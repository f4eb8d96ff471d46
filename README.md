# MediConnect in Dafny

MediConnect has two parts: a WhatsApp booking assistant for patients and a web app for hospitals and the platform's operators. This project models the logic of both in Dafny and proves what that logic promises.

**The WhatsApp engine** (Supabase edge functions):
- `processMessage` drives a per-phone conversation through registration, doctor search, slot choice, booking confirmation, medical-record access and cancellation. The conversation, message, user, appointment, slot and audit tables it writes are class state (`ConversationStore`, `UserStore`, `BookingStore`, `AuditLog`).
- The services behind it are modelled too: booking and cancellation, doctor search and ranking, slot inventory, replies, user lookup and geocoding, and Twilio sending with signature validation.
- Two scheduled jobs are classes with their counters: `regenerate-slots` keeps thirty days of slots ahead, and `send-reminders` sends the 24-hour and 1-hour reminders with one-shot flags.

**The web app:**
- Data layers: `hms.ts` (doctor creation with its slots, the partial update payload, appointment filters, analytics, doctor performance) and `super-admin.ts` (subdomain slug, new-hospital defaults, promotion updates, doctor counts, revenue and monthly aggregations).
- Page logic: the toast store, both onboarding forms, the "add doctor" form, the hospital list search and status toggle, the appointments page filters, badge and actions, the two dashboard layouts' titles and initials, and the route guard.

**How the model is built:**
- One module per source file. `Common` holds shared helpers: Option, the ASCII part of JavaScript's string functions, decimal text and code-point order. `Domain` holds the engine's records, `Replies` the engine's answers as values. The wording of each answer is `Replies.Render`.
- Code that updates rows or counters step by step is a `class` with methods. Each method is proved against a function over its state, and the lemmas about those functions carry the properties.
- The clock, the language model's reading of a message, the result of each remote call and every random draw are inputs.
- Days are day numbers; weekday is `(day + 4) % 7`, with day 0 being 1970-01-01. Times of day are minutes or milliseconds.

## Model

| member | source | states |
|---|---|---|
| ConversationManager.AsConversation | mediconnect/supabase/functions/_shared/conversation-manager.ts:23-28 | a stored row reads back with its id, phone and user; a missing context is empty and a missing state is idle |
| ConversationManager.UpdateKeepsWellFormed | mediconnect/supabase/functions/_shared/conversation-manager.ts:64-67 | an update by id never changes an id or a phone, so rows stay keyed by phone with unique ids |
| ConversationManager.UpdateTouchesOneRow | mediconnect/supabase/functions/_shared/conversation-manager.ts:64-67 | with unique ids, `.update(...).eq('id', id)` changes exactly the row with that id |
| ConversationManager.UpdateMissingId | mediconnect/supabase/functions/_shared/conversation-manager.ts:64-67 | an update for an id no row has changes nothing |
| ConversationManager.SetStateEffect | mediconnect/supabase/functions/_shared/conversation-manager.ts:55-62 | `updateConversation` writes the given state and context, stamps the time, marks the bot as last sender (`last_message_from`), writes the user id exactly when it is non-empty and otherwise keeps the stored user |
| ConversationManager.ResetEffect | mediconnect/supabase/functions/_shared/conversation-manager.ts:73-81 | `resetConversation` leaves the user and the last sender untouched and reads back as idle with an empty context and a fresh stamp |
| ConversationManager.StaleBoundary | mediconnect/supabase/functions/_shared/conversation-manager.ts:108-114 | an idle conversation is never stale; one exactly an hour old is not stale; a busy one a millisecond older is |
| ConversationManager.ConversationStore.constructor | mediconnect/supabase/functions/_shared/conversation-manager.ts:4-11 | an empty conversations table and message log |
| ConversationManager.ConversationStore.GetOrCreate | mediconnect/supabase/functions/_shared/conversation-manager.ts:16-44 | an existing phone's row is returned unchanged in the table; otherwise an idle row with an empty context is inserted under the id the database assigns; a failed insert throws and changes nothing |
| ConversationManager.ConversationStore.Update | mediconnect/supabase/functions/_shared/conversation-manager.ts:49-68 | the table becomes the update by id of the old table with `updateConversation`'s write |
| ConversationManager.ConversationStore.Reset | mediconnect/supabase/functions/_shared/conversation-manager.ts:73-82 | the table becomes the update by id with the idle/empty-context write |
| ConversationManager.ConversationStore.LogMessage | mediconnect/supabase/functions/_shared/conversation-manager.ts:87-102 | exactly one text row with the given direction, body and optional sid is appended; conversations are untouched |
| ConversationManager.ConversationStore.CheckAndResetStale | mediconnect/supabase/functions/_shared/conversation-manager.ts:107-120 | a stale conversation is reset in the table and returned with only state and context changed; any other is returned as is and the table is unchanged |
| UserService.NewUserRow | mediconnect/supabase/functions/_shared/user-service.ts:42-52 | the inserted row carries the phone and name, the language defaults to English, and each missing optional field is null |
| UserService.UserStore.constructor | mediconnect/supabase/functions/_shared/user-service.ts:3-12 | an empty users table |
| UserService.UserStore.FindByPhone | mediconnect/supabase/functions/_shared/user-service.ts:17-25 | the user registered with that phone, or none when no row has it |
| UserService.UserStore.CreateUser | mediconnect/supabase/functions/_shared/user-service.ts:30-58 | a new phone gets `NewUserRow` under the assigned id; a failed insert (including a second user for the same phone) throws and changes nothing |
| UserService.GeocodeLocation | mediconnect/supabase/functions/_shared/user-service.ts:71-99 | the city is always the text as typed; the coordinates are the table's entry for the lowercased, trimmed text, or null |
| UserService.CityAliases | mediconnect/supabase/functions/_shared/user-service.ts:81-85 | bangalore and bengaluru, and delhi and new delhi, give the same coordinates |
| UserService.GeocodeIgnoresCase | mediconnect/supabase/functions/_shared/user-service.ts:91 | an upper-cased text finds the same coordinates |
| UserService.Summary | mediconnect/supabase/functions/_shared/user-service.ts:115-121 | each record keeps its id, title, type and date; a record without a hospital reads "Unknown Hospital" |
| UserService.NewerFirstIsStrict | mediconnect/supabase/functions/_shared/user-service.ts:112 | the `created_at` descending order is a strict order |
| UserService.UserMedicalRecordsSpec | mediconnect/supabase/functions/_shared/user-service.ts:104-122 | at most ten of the user's own records, newest first, each summarised |
| UserService.PickedRecords | mediconnect/supabase/functions/_shared/user-service.ts:105-113 | the query selects only the user's rows, newest first, as many as there are up to ten |
| BookingService.BookAppointment | mediconnect/supabase/functions/_shared/booking-service.ts:14-40 | an RPC error becomes a failure with the fixed text "Booking failed. Please try again."; otherwise the procedure's result is passed through |
| BookingService.FindById | mediconnect/supabase/functions/_shared/booking-service.ts:51-55 | the first row with that id, or none when no row has it |
| BookingService.CancelErrorsDistinct | mediconnect/supabase/functions/_shared/booking-service.ts:57-89 | the five failure texts of `cancelAppointment` differ from one another |
| BookingService.CancelNoticeBoundary | mediconnect/supabase/functions/_shared/booking-service.ts:68-77 | the two-hour rule is strict: exactly two hours ahead is refused, a millisecond later is allowed |
| BookingService.CancelChecksInOrder | mediconnect/supabase/functions/_shared/booking-service.ts:57-77 | not found, completed and already cancelled are reported before the notice rule |
| BookingService.UpdateAppointment | mediconnect/supabase/functions/_shared/booking-service.ts:80-87 | every row with the id takes the write; the others are unchanged |
| BookingService.FreeSlot | mediconnect/supabase/functions/_shared/booking-service.ts:92-97 | the slot with that id becomes available; every other slot is unchanged |
| BookingService.BookingStore.constructor | mediconnect/supabase/functions/_shared/booking-service.ts:51-55 | the appointment and slot tables as given |
| BookingService.BookingStore.CancelAppointment | mediconnect/supabase/functions/_shared/booking-service.ts:45-100 | a refusal changes nothing; a failed update changes nothing and reports the failure; otherwise the appointment is cancelled with the reason prefixed by who cancelled, and its slot, if any, is freed |
| BookingService.CancelledReadsBack | mediconnect/supabase/functions/_shared/booking-service.ts:80-87 | after a cancellation the appointment reads back cancelled with "`by`: `reason`", and every other appointment is unchanged |
| BookingService.EarlierTimeIsStrict | mediconnect/supabase/functions/_shared/booking-service.ts:118 | ordering by `appointment_time` is a strict order |
| BookingService.EarlierSlotIsStrict | mediconnect/supabase/functions/_shared/booking-service.ts:141-142 | ordering by date then time is a strict order |
| BookingService.TodayAppointmentSpec | mediconnect/supabase/functions/_shared/booking-service.ts:105-123 | there is a result exactly when the user has an active appointment today, and none is earlier than the one returned |
| BookingService.UpcomingSpec | mediconnect/supabase/functions/_shared/booking-service.ts:128-146 | only the user's confirmed appointments dated today or later, by date then time, at most `limit` |
| BookingService.FirstInConsultation | mediconnect/supabase/functions/_shared/booking-service.ts:165 | the first appointment in consultation, if any, and none before it is |
| BookingService.QueueStatusSpec | mediconnect/supabase/functions/_shared/booking-service.ts:151-187 | an empty queue gives all zeros; otherwise the waiting estimate is 30 minutes per checked-in patient and the delay is never negative (0 when nobody is in consultation) |
| BookingService.QueueStatusOmitsPatientsAhead | mediconnect/supabase/functions/_shared/booking-service.ts:171-186 | the busy-queue result has no patients-ahead count |
| BookingService.QueueStatusForSpec | mediconnect/supabase/functions/_shared/booking-service.ts:151-187 | with the count filled in: the waiting patients booked strictly earlier, never more than the queue, and zero for the first appointment of the day |
| WhatsAppSender.ChannelAddress | mediconnect/supabase/functions/_shared/whatsapp-sender.ts:10-13 | `whatsapp:` is added in front only when it is not there yet |
| WhatsAppSender.ChannelAddressIdempotent | mediconnect/supabase/functions/_shared/whatsapp-sender.ts:10 | addressing a number twice is addressing it once |
| WhatsAppSender.ChannelAddressKeepsNumber | mediconnect/supabase/functions/_shared/whatsapp-sender.ts:10 | removing the prefix gives back a number that did not carry it |
| WhatsAppSender.SendWhatsApp | mediconnect/supabase/functions/_shared/whatsapp-sender.ts:9-46 | the message SID on success; null on an HTTP error, a thrown exchange or a missing sid |
| WhatsAppSender.SendAddressesChannel | mediconnect/supabase/functions/_shared/whatsapp-sender.ts:26-30 | the form addresses both numbers on the WhatsApp channel and carries the body unchanged |
| WhatsAppSender.LexLessIsStrict | mediconnect/supabase/functions/_shared/whatsapp-sender.ts:59 | the order `sort()` uses is a strict order |
| WhatsAppSender.SortedKeys | mediconnect/supabase/functions/_shared/whatsapp-sender.ts:59 | the keys, each once, in ascending order |
| WhatsAppSender.ValidationText | mediconnect/supabase/functions/_shared/whatsapp-sender.ts:59-63 | the url followed by each key and its value in ascending key order |
| WhatsAppSender.SortedUnique | mediconnect/supabase/functions/_shared/whatsapp-sender.ts:59 | two ascending sequences with the same elements are equal |
| WhatsAppSender.SortedHeads | mediconnect/supabase/functions/_shared/whatsapp-sender.ts:59 | two ascending sequences with the same elements start alike |
| WhatsAppSender.ValidationTextOrderFree | mediconnect/supabase/functions/_shared/whatsapp-sender.ts:59-63 | the string does not depend on the order in which parameters were added |
| WhatsAppSender.KeyValuesHasEach | mediconnect/supabase/functions/_shared/whatsapp-sender.ts:61-63 | every key is followed by its value in the concatenation |
| WhatsAppSender.ValidationTextHasEach | mediconnect/supabase/functions/_shared/whatsapp-sender.ts:59-63 | the string starts with the url and holds every key followed by its value |
| WhatsAppSender.KeyValuesStep | mediconnect/supabase/functions/_shared/whatsapp-sender.ts:61-63 | one more key appends that key and its value |
| WhatsAppSender.BuildValidationText | mediconnect/supabase/functions/_shared/whatsapp-sender.ts:59-63 | the loop builds exactly `ValidationText` |
| WhatsAppSender.ValidateSignature | mediconnect/supabase/functions/_shared/whatsapp-sender.ts:52-82 | true exactly when the signature equals the signing function's value on the validation string |
| SearchService.SlotBeforeIsStrict | mediconnect/supabase/functions/_shared/search-service.ts:98-99 | ordering slots by date, then time, is a strict order |
| SearchService.TimeBeforeIsStrict | mediconnect/supabase/functions/_shared/search-service.ts:125 | ordering slots by time is a strict order |
| SearchService.NextAvailableSlotSpec | mediconnect/supabase/functions/_shared/search-service.ts:88-110 | there is a next slot exactly when the doctor has a free slot on or after the date, and it is the earliest of those by date and time |
| SearchService.AsSlots | mediconnect/supabase/functions/_shared/search-service.ts:130-134 | each row becomes a slot option with its id, date and time, one for one |
| SearchService.AvailableSlotsSpec | mediconnect/supabase/functions/_shared/search-service.ts:115-135 | at most ten slots, each a free slot of that doctor on exactly that date, earliest first; fewer than ten only when no other slot matches |
| SearchService.PickedSlots | mediconnect/supabase/functions/_shared/search-service.ts:119-126 | the query selects the doctor's free rows on the date, earliest first, at most ten |
| SearchService.OutranksIsStrict | mediconnect/supabase/functions/_shared/search-service.ts:57-80 | the comparator `scoreB - scoreA` orders by strictly higher score first |
| SearchService.PremiumOutranksUnpromoted | mediconnect/supabase/functions/_shared/search-service.ts:62-77 | with a tier in 1..3 and a rating in 0..5, a premium doctor outranks an unpromoted one whatever the tier, rating and slot |
| SearchService.PromotionCanTieTier | mediconnect/supabase/functions/_shared/search-service.ts:62-77 | a promoted tier-3 doctor rated 0 without a slot scores the same as an unpromoted tier-1 doctor rated 5 with one |
| SearchService.Enrich | mediconnect/supabase/functions/_shared/search-service.ts:48-54 | each doctor, in order, with its next free slot on or after the date |
| SearchService.SearchDoctorsSpec | mediconnect/supabase/functions/_shared/search-service.ts:8-83 | a failed query gives no doctors; otherwise at most five enriched rows of the first fifty, by descending score, and no row left out scores higher than one kept |
| SearchService.TopKeepsBest | mediconnect/supabase/functions/_shared/search-service.ts:82 | the first n of a ranked list keep its order, and nothing after them scores higher |
| SearchService.PremiumNeverBelowUnpromoted | mediconnect/supabase/functions/_shared/search-service.ts:57-82 | with plausible tiers and ratings, no unpromoted doctor is listed above a premium one |
| SearchService.PlausibleRanked | mediconnect/supabase/functions/_shared/search-service.ts:57-82 | every listed doctor is one of the queried rows, so plausibility carries over |
| SearchService.DayTimesMembers | mediconnect/supabase/functions/_shared/search-service.ts:166 | a minute is emitted exactly when it lies in [start, end) and is a whole number of durations past the start |
| SearchService.DaySlots | mediconnect/supabase/functions/_shared/search-service.ts:169-173 | one slot per emitted minute, for that doctor and date, in order |
| SearchService.DayPlan | mediconnect/supabase/functions/_shared/search-service.ts:153-175 | a day has slots only when its weekday is a working day; all of them belong to the doctor and that date |
| SearchService.PlannedSlotsOnWorkingDays | mediconnect/supabase/functions/_shared/search-service.ts:153-175 | every planned slot belongs to the doctor and to one of the first `days` days whose weekday is a working day |
| SearchService.DayPlanTimes | mediconnect/supabase/functions/_shared/search-service.ts:166-174 | on a working day every time start, start + d, … strictly before the end is planned |
| SearchService.DaySlotsStep | mediconnect/supabase/functions/_shared/search-service.ts:166 | one step of the inner loop adds the slot at the current minute |
| SearchService.PlannedSlotsStep | mediconnect/supabase/functions/_shared/search-service.ts:153 | one step of the outer loop adds the next day's plan |
| SearchService.PushDay | mediconnect/supabase/functions/_shared/search-service.ts:166-174 | the inner loop appends exactly the day's slots strictly before the end |
| SearchService.PushWorkingDay | mediconnect/supabase/functions/_shared/search-service.ts:154-174 | one pass of the outer loop appends exactly that day's plan |
| SearchService.PushDays | mediconnect/supabase/functions/_shared/search-service.ts:153-175 | the outer loop appends exactly the plan of days 0 … days − 1 |
| SearchService.BuildSlots | mediconnect/supabase/functions/_shared/search-service.ts:149-175 | the slot rows are exactly the planned slots of the working hours |
| SearchService.InsertAbsentMembers | mediconnect/supabase/functions/_shared/search-service.ts:182-185 | after an ignore-duplicates upsert a key is present exactly when it was before or is in the batch, and no key is duplicated |
| SearchService.InsertAbsentAppend | mediconnect/supabase/functions/_shared/search-service.ts:179-186 | upserting two batches is upserting their concatenation, so batching by 100 changes nothing |
| SearchService.InsertAbsentPresent | mediconnect/supabase/functions/_shared/search-service.ts:182-185 | upserting rows that are all present changes nothing |
| SearchService.RegenerationIsIdempotent | mediconnect/supabase/functions/_shared/search-service.ts:177-187 | running the same generation twice leaves the table as running it once |
| SearchService.SlotInventory.constructor | mediconnect/supabase/functions/_shared/search-service.ts:182-185 | the slot keys as given |
| SearchService.SlotInventory.Upsert | mediconnect/supabase/functions/_shared/search-service.ts:180-185 | the keys become the old keys with the batch's absent rows added |
| SearchService.SlotInventory.GenerateSlots | mediconnect/supabase/functions/_shared/search-service.ts:141-188 | the keys become the old keys with every planned slot added, batch by batch |
| SearchService.ResolveDate | mediconnect/supabase/functions/_shared/search-service.ts:193-208 | absent, empty or "today" gives today, "tomorrow" the next day, any other text itself |
| SearchService.ResolveDateIdempotent | mediconnect/supabase/functions/_shared/search-service.ts:193-208 | resolving a resolved date changes nothing when the clock's dates are not the words themselves |
| SearchService.FilterDoctors | mediconnect/supabase/functions/_shared/search-service.ts:14-38 | the query keeps, in table order, exactly the doctors of active rows whose specialization contains the extracted specialty, ignoring case |
| SearchService.DoctorReply | mediconnect/supabase/functions/_shared/search-service.ts:40-45 | the query fails exactly when the database reports an error; otherwise it returns the filtered doctors |
| SearchService.SearchListsOnlyMatches | mediconnect/supabase/functions/_shared/search-service.ts:14-45 | every doctor the search lists is, apart from its next free slot, the doctor of an active row matching the specialty |
| RegenerateSlots.Authorized | mediconnect/supabase/functions/regenerate-slots/index.ts:11-15 | a request without an Authorization header is refused; with the service key configured, it is let through exactly when the header contains the key |
| RegenerateSlots.AuthorizedWithoutKey | mediconnect/supabase/functions/regenerate-slots/index.ts:12-13 | when the service key is not configured, any request carrying an Authorization header at all is let through |
| RegenerateSlots.HourMinutes | mediconnect/supabase/functions/regenerate-slots/index.ts:121-123 | each slot minute becomes its zero-padded `HH:MM` text, one per minute, in order |
| RegenerateSlots.FitTimesStep | mediconnect/supabase/functions/regenerate-slots/index.ts:120-125 | one loop iteration: a slot that fits emits its start time and the loop continues one duration later |
| RegenerateSlots.SlotLoop | mediconnect/supabase/functions/regenerate-slots/index.ts:117-126 | whenever the loop ends (a positive duration, or a first slot already past the end), it returns exactly the `HH:MM` times of the slots from the start minute that end by the end minute, and none for a duration of zero or less |
| RegenerateSlots.GenerateTimeSlots | mediconnect/supabase/functions/regenerate-slots/index.ts:113-127 | whenever the loop ends (a positive duration, non-numeric times, or a first slot already past the end), it returns exactly the `HH:MM` times of the slots from the start that end by the end of the working hours |
| RegenerateSlots.FitTimesMembers | mediconnect/supabase/functions/regenerate-slots/index.ts:117-125 | a minute is emitted iff it is at or after the start, a whole number of durations past it, and the slot starting there ends by the end time |
| RegenerateSlots.FitTimesShortDay | mediconnect/supabase/functions/regenerate-slots/index.ts:120 | hours shorter than one slot produce no slot |
| RegenerateSlots.LoopNeverEnds | mediconnect/supabase/functions/regenerate-slots/index.ts:120-125 | with a duration of zero or less, once the loop condition holds it holds after any number of iterations |
| RegenerateSlots.GenerateTimeSlotsGuarded | mediconnect/supabase/functions/regenerate-slots/index.ts:113-127 | a guarded generator ends on every input: no slot for a duration of zero or less, otherwise the times of `generateTimeSlots` |
| RegenerateSlots.EndConditionsCompared | mediconnect/supabase/functions/regenerate-slots/index.ts:120 | every time this job generates is one the booking search's generator (search-service.ts line 166, `m < endMinutes`) also generates; the only extra times there are those whose slot runs past the end |
| RegenerateSlots.GeneratorsDisagree | mediconnect/supabase/functions/regenerate-slots/index.ts:120 | for 09:00-17:00 with 45-minute slots the search's generator offers 16:30, ending 17:15, and this job does not |
| RegenerateSlots.ScheduleDefaults | mediconnect/supabase/functions/regenerate-slots/index.ts:61-64 | a doctor with no schedule columns works Monday to Friday, 09:00 to 17:00, in 30-minute slots |
| RegenerateSlots.ScheduleTimes | mediconnect/supabase/functions/regenerate-slots/index.ts:61-73 | the doctor's times are those `generateTimeSlots` gives on its hours (or the defaults) whenever that loop ends |
| RegenerateSlots.DateRows | mediconnect/supabase/functions/regenerate-slots/index.ts:74-81 | one row per time of day, each with the doctor's id, the given date and that time |
| RegenerateSlots.RegenDay | mediconnect/supabase/functions/regenerate-slots/index.ts:70-82 | a day gives rows only when its weekday is a working day, and every row has the doctor's id and that day's date |
| RegenerateSlots.RegenDaysInRange | mediconnect/supabase/functions/regenerate-slots/index.ts:68-84 | every row of days `from`..`until-1` is the doctor's and lies on one of its working days in that range |
| RegenerateSlots.DoctorRowsInRange | mediconnect/supabase/functions/regenerate-slots/index.ts:47-59 | the start day is before the 30-day horizon whenever rows exist, and every row lies on a working day in `[startFrom, today + 30)` |
| RegenerateSlots.PushTimes | mediconnect/supabase/functions/regenerate-slots/index.ts:74-81 | the inner `for` loop appends exactly the day's rows to what was collected |
| RegenerateSlots.PushDay | mediconnect/supabase/functions/regenerate-slots/index.ts:70-82 | one day of the cursor appends exactly that day's rows: the times on a working day, nothing otherwise |
| RegenerateSlots.RegenDaysStep | mediconnect/supabase/functions/regenerate-slots/index.ts:68-84 | one more day of the cursor appends exactly that day's rows |
| RegenerateSlots.CollectRows | mediconnect/supabase/functions/regenerate-slots/index.ts:66-84 | the cursor loop collects exactly the rows of the working days from the start day up to the horizon |
| RegenerateSlots.InsertedFrom | mediconnect/supabase/functions/regenerate-slots/index.ts:86-96 | the rows inserted by the batches from index `i` are between `i` and all of them |
| RegenerateSlots.FailsFrom | mediconnect/supabase/functions/regenerate-slots/index.ts:88-95 | when no batch is refused, every row is inserted |
| RegenerateSlots.Outcome | mediconnect/supabase/functions/regenerate-slots/index.ts:36-102 | a doctor never has more rows inserted than it was due |
| RegenerateSlots.RunErrors | mediconnect/supabase/functions/regenerate-slots/index.ts:99-102 | a run never counts more errors than doctors |
| RegenerateSlots.RunStep | mediconnect/supabase/functions/regenerate-slots/index.ts:35-103 | one more doctor appends exactly its inserted rows and adds one error exactly when its processing failed |
| RegenerateSlots.OutcomeInRange | mediconnect/supabase/functions/regenerate-slots/index.ts:47-96 | the rows inserted for a doctor are its own and lie on its working days in its missing range |
| RegenerateSlots.RunRowsLast | mediconnect/supabase/functions/regenerate-slots/index.ts:35-103 | the rows of a run are those over all doctors but the last, then the last doctor's |
| RegenerateSlots.RunRowsEarlier | mediconnect/supabase/functions/regenerate-slots/index.ts:35-103 | a row of the run over all doctors but the last keeps its place in the run over all of them |
| RegenerateSlots.RunRowsOfLast | mediconnect/supabase/functions/regenerate-slots/index.ts:35-103 | the rows of a run after those of all doctors but the last are the last doctor's, on its working days in its missing range |
| RegenerateSlots.SlotRegeneration.constructor | mediconnect/supabase/functions/regenerate-slots/index.ts:17 | the statistics start at zero over the given slot table |
| RegenerateSlots.SlotRegeneration.InsertBatches | mediconnect/supabase/functions/regenerate-slots/index.ts:86-96 | batches of 200 are inserted in order until one is refused; the table grows by the inserted prefix, `slots_created` by its length, and the result says whether a batch was refused |
| RegenerateSlots.SlotRegeneration.RegenerateDoctor | mediconnect/supabase/functions/regenerate-slots/index.ts:36-102 | one doctor the job gets past: the table grows by its inserted rows, and it counts as processed or as an error, never both |
| RegenerateSlots.SlotRegeneration.FillDays | mediconnect/supabase/functions/regenerate-slots/index.ts:66-98 | for a doctor not yet covered to the horizon, the table grows by the inserted prefix of its rows, `slots_created` by its length, and the doctor counts as processed unless a batch was refused, then as an error |
| RegenerateSlots.SlotRegeneration.Run | mediconnect/supabase/functions/regenerate-slots/index.ts:35-103 | over all doctors the job gets past, the table grows by every doctor's inserted rows in order, `slots_created` by their number, processed plus errors by the number of doctors, and no inserted row has the doctor and date of a row already in the table |
| RegenerateSlots.RunRowsInRange | mediconnect/supabase/functions/regenerate-slots/index.ts:35-103 | every row a run inserts belongs to one of the doctors, whose index it returns, and lies on one of its working days in its missing range |
| RegenerateSlots.RunKeepsExistingSlots | mediconnect/supabase/functions/regenerate-slots/index.ts:37-59 | when `latest` is the doctor's latest slot date from today on in the table, no row a run inserts has the doctor and the date of a row already there |
| RegenerateSlots.RunAddsNoExistingSlot | mediconnect/supabase/functions/regenerate-slots/index.ts:37-59 | when `latest` answers the latest-slot query for every doctor, no row of a run has the doctor and the date of any row already in the table |
| SendReminders.WithFlag | mediconnect/supabase/functions/send-reminders/index.ts:70-73 | setting a reminder flag sets that kind's flag, keeps the other kind's flag and changes nothing else on the row |
| SendReminders.MarkSent | mediconnect/supabase/functions/send-reminders/index.ts:70-73 | the update by id flags exactly the rows whose id was delivered to and leaves every other row as it was, keeping the table's length |
| SendReminders.MarkSentAgain | mediconnect/supabase/functions/send-reminders/index.ts:118-121 | flagging one more id after a set of ids is the same as flagging the enlarged set: setting a flag twice is harmless |
| SendReminders.DueDayBeforeUnflagged | mediconnect/supabase/functions/send-reminders/index.ts:39-48 | the 24-hour query selects exactly the confirmed appointments dated tomorrow whose 24-hour flag is unset |
| SendReminders.HourAheadAsWritten | mediconnect/supabase/functions/send-reminders/index.ts:81-83 | the upper bound the code computes is a time of day, `(now + 60 min) mod 24 h` |
| SendReminders.HourAhead | mediconnect/supabase/functions/send-reminders/index.ts:81 | the intended upper bound is exactly one hour after now |
| SendReminders.LateHourWindowEmpty | mediconnect/supabase/functions/send-reminders/index.ts:81-96 | from 23:00 on the as-written window is empty: no appointment is selected, not even one later the same evening |
| SendReminders.HourWindowCoversNextHour | mediconnect/supabase/functions/send-reminders/index.ts:85-96 | with the corrected bound every unreminded confirmed appointment of today starting within the next hour is selected |
| SendReminders.ReminderNamesTimeAndDoctor | mediconnect/supabase/functions/send-reminders/index.ts:62-65 | both reminder texts contain the appointment's time and the doctor's name, "Doctor" when there is none |
| SendReminders.DeliveredIdsMembers | mediconnect/supabase/functions/send-reminders/index.ts:67-77 | an id is flagged by a sweep iff some selected appointment with that id had a phone and its send returned a non-empty sid |
| SendReminders.SweepStep | mediconnect/supabase/functions/send-reminders/index.ts:50-78 | one more appointment adds its id to the flagged set and one to the sent count exactly when delivered, and one to the error count exactly when it had a phone and the send failed |
| SendReminders.FlagSetOnlyOnDelivery | mediconnect/supabase/functions/send-reminders/index.ts:60-77 | a row changes only if a selected appointment with its id was delivered to; skipped rows and failed sends keep their flags |
| SendReminders.NoSecondReminder | mediconnect/supabase/functions/send-reminders/index.ts:48 | a later sweep over the updated table never selects an appointment the earlier one reminded |
| SendReminders.NoSecondDayBeforeReminder | mediconnect/supabase/functions/send-reminders/index.ts:46-48 | a second 24-hour run never reminds a patient the first run reminded |
| SendReminders.NoSecondHourBeforeReminder | mediconnect/supabase/functions/send-reminders/index.ts:92-96 | a second 1-hour run never reminds a patient the first run reminded |
| SendReminders.RunRemindsOnce | mediconnect/supabase/functions/send-reminders/index.ts:39-96 | for any 1-hour window, a run flags every row whose 24-hour or 1-hour reminder went out, so no later run selects that row for that reminder again, on any day and in any window |
| SendReminders.CorrectedRunSelectsNextHour | mediconnect/supabase/functions/send-reminders/index.ts:85-96 | with the corrected bound a run's 1-hour sweep selects every unreminded confirmed appointment of today that starts within the next hour |
| SendReminders.LateRunSkipsHourSweep | mediconnect/supabase/functions/send-reminders/index.ts:81-96 | from 23:00 on the as-written 1-hour query selects nothing and the run leaves the table as the 24-hour sweep left it |
| SendReminders.ReminderJob.constructor | mediconnect/supabase/functions/send-reminders/index.ts:31 | the counters start at zero over the given appointments |
| SendReminders.ReminderJob.Sweep | mediconnect/supabase/functions/send-reminders/index.ts:50-78 | the loop flags exactly the delivered ids, adds the delivered count to its kind's counter only, and adds the failed sends with a phone to the errors |
| SendReminders.ReminderJob.Run | mediconnect/supabase/functions/send-reminders/index.ts:22-131 | as written: without the service key it answers 401 and changes nothing; otherwise it runs the 24-hour sweep, then the 1-hour sweep up to `(now + 60 min) mod 24 h` on the updated table, answers 200 and counts each sweep's sends and failures; from 23:00 on it sends no 1-hour reminder |
| SendReminders.ReminderJob.Sweeps | mediconnect/supabase/functions/send-reminders/index.ts:39-96 | both sweeps for a given 1-hour upper bound: the table is the table after both, and each counter grows by its sweep's sends and failures |
| SendReminders.ReminderJob.RunCorrected | mediconnect/supabase/functions/send-reminders/index.ts:22-131 | the handler with the 1-hour window ending one hour after now: 401 and no change without the key; otherwise both sweeps with that window and 200 |
| Domain.InRegistrationByName | mediconnect/supabase/functions/_shared/message-processor.ts:45 | the stored state name starts with `registration` exactly for the four registration steps |
| Domain.Weekday | mediconnect/supabase/functions/regenerate-slots/index.ts:70 | `getDay()` of a day number is a weekday 0..6 |
| Responses.JsRem12 | mediconnect/supabase/functions/_shared/response-generator.ts:7 | JavaScript's `h % 12`: strictly between -12 and 12, congruent to `h` modulo 12, and with the sign of `h` |
| Responses.FormatTimeClock | mediconnect/supabase/functions/_shared/response-generator.ts:3-9 | an hour 0..23 shows on the 12-hour clock (0 and 12 as 12) with AM before noon and PM after; an unparsable hour shows as 12 AM, since `NaN % 12 || 12` is 12 and `NaN >= 12` is false |
| Responses.FormatDateRelative | mediconnect/supabase/functions/_shared/response-generator.ts:11-21 | today's ISO date reads "Today", tomorrow's "Tomorrow", any other date the locale rendering |
| Responses.AppendNumbered | mediconnect/supabase/functions/_shared/response-generator.ts:105-115 | the `forEach` loop appends exactly the entries numbered 1..n, in order, to the message so far |
| Responses.NumberedContains | mediconnect/supabase/functions/_shared/response-generator.ts:105-115 | every element appears in the numbered text under its 1-based number |
| Responses.RatingText | mediconnect/supabase/functions/_shared/response-generator.ts:112 | a whole rating prints without a decimal part |
| Responses.PromotionMark | mediconnect/supabase/functions/_shared/response-generator.ts:106 | the star is shown exactly when the hospital has a promotion level |
| Responses.DoctorListMessage | mediconnect/supabase/functions/_shared/response-generator.ts:93-119 | the loop builds exactly the doctor-list text |
| Responses.DoctorListEmpty | mediconnect/supabase/functions/_shared/response-generator.ts:94-101 | the apology is the reply exactly for an empty list |
| Responses.DoctorListKeepsHeader | mediconnect/supabase/functions/_shared/response-generator.ts:103 | a non-empty list's reply starts with its header |
| Responses.DoctorListHeaderCount | mediconnect/supabase/functions/_shared/response-generator.ts:103 | the header counts "1 doctor" for one result and "n doctors" for more |
| Responses.HeaderCount | mediconnect/supabase/functions/_shared/response-generator.ts:103 | the header alone reads "1 doctor" or "n doctors" |
| Responses.DoctorListNumbersEntries | mediconnect/supabase/functions/_shared/response-generator.ts:111 | result k appears as "*k. Dr. name*" |
| Responses.DoctorListFooterRange | mediconnect/supabase/functions/_shared/response-generator.ts:117 | a non-empty list ends by offering the numbers 1-n |
| Responses.SlotListMessage | mediconnect/supabase/functions/_shared/response-generator.ts:133-145 | the loop builds exactly the slot-list text |
| Responses.SlotListNumbersSlots | mediconnect/supabase/functions/_shared/response-generator.ts:139-141 | slot k appears under keycap k with its date and time |
| Responses.BookingSuccessShowsCode | mediconnect/supabase/functions/_shared/response-generator.ts:161-176 | the confirmation contains the booking code |
| Responses.FailureReasonsRoundTrip | mediconnect/supabase/functions/_shared/response-generator.ts:178-180 | the booking-failure and cancellation-failure replies embed the reason so that it reads back unchanged |
| Responses.RecordsListMessage | mediconnect/supabase/functions/_shared/response-generator.ts:184-201 | the loop builds exactly the records-list text |
| Responses.RecordsListEmpty | mediconnect/supabase/functions/_shared/response-generator.ts:185-187 | the "no records yet" reply is given exactly for an empty list |
| Responses.RecordsListHasEach | mediconnect/supabase/functions/_shared/response-generator.ts:191-197 | record k appears under its number |
| Responses.QueueStatusDelay | mediconnect/supabase/functions/_shared/response-generator.ts:220-223 | a delay over 15 minutes shows the late line with the delay, any other the on-schedule line |
| Responses.QueueShowsPatientsAhead | mediconnect/supabase/functions/_shared/response-generator.ts:227 | the reply contains the patients-ahead line, with 0 for a missing count |
| Responses.QueueStatusPatients | mediconnect/supabase/functions/_shared/response-generator.ts:227 | "patient" is singular only for a count of 1; a missing count reads "0 patients ahead" |
| Responses.NoPatientsAhead | mediconnect/supabase/functions/_shared/response-generator.ts:227 | a count of 0 reads "0 patients ahead" |
| Responses.CancelListMessage | mediconnect/supabase/functions/_shared/response-generator.ts:239-251 | the loop builds exactly the cancellation list text |
| Responses.CancelListNumbersAppointments | mediconnect/supabase/functions/_shared/response-generator.ts:242-245 | the k-th upcoming appointment is listed under keycap k with its date, time and doctor's name, or "Unknown" when the doctor is missing |
| Replies.UpcomingMessage | mediconnect/supabase/functions/_shared/message-processor.ts:261-272 | the `view_appointments` loop builds exactly the numbered list of upcoming appointments under its header |
| Hms.Normalise | mediconnect/src/lib/hms.ts:237-240 | a joined relation given as an array becomes its first element (none when empty), an object is kept, and null stays none |
| Hms.NormaliseIdempotent | mediconnect/src/lib/hms.ts:182 | normalising what normalisation returned changes nothing |
| Hms.DoctorInsertDefaults | mediconnect/src/lib/hms.ts:309-343 | a doctor created with only a name and a specialization is stored with fee 0, no languages, Monday to Friday, 09:00-17:00, 30-minute slots and active; phone and email are never stored |
| Hms.DateSlots | mediconnect/src/lib/hms.ts:372-383 | one available slot per minute of the day, each with the doctor, the date and that minute's time |
| Hms.AllSameAppend | mediconnect/src/lib/hms.ts:357-384 | rows that agree pairwise with the search service's rows still agree after appending two agreeing runs |
| Hms.SameDay | mediconnect/src/lib/hms.ts:357-384 | one day of `createDoctor` gives the same slots as one day of the search service's `generateSlots` (search-service.ts lines 153-176), in the same order |
| Hms.SameSlotsAsGenerateSlots | mediconnect/src/lib/hms.ts:357-384 | over any number of days `createDoctor` and `generateSlots` produce the same slots, both stopping strictly before the end of the working hours |
| Hms.DateSlotsStep | mediconnect/src/lib/hms.ts:372-383 | one inner-loop iteration emits the current minute's slot and continues one duration later |
| Hms.PushDaySlots | mediconnect/src/lib/hms.ts:372-383 | the inner `for` loop appends exactly the slots of the day's grid to the slots collected so far |
| Hms.DoctorSlotsStep | mediconnect/src/lib/hms.ts:357-384 | one more day offset appends exactly that day's slots |
| Hms.PushDoctorDay | mediconnect/src/lib/hms.ts:358-384 | one outer-loop iteration turns the slots of the first k days into those of the first k+1 days |
| Hms.PushDoctorDays | mediconnect/src/lib/hms.ts:357-384 | the outer `for` loop collects exactly the slots of the day offsets 0..days-1 |
| Hms.GenerateDoctorSlots | mediconnect/src/lib/hms.ts:357-384 | the slot rows of `createDoctor` are exactly those of the 30 days from today with the parsed working hours |
| Hms.DoctorDayTimes | mediconnect/src/lib/hms.ts:361-383 | on a working day every grid minute from the start, strictly before the end, has an available slot, and every slot of that day is one of them |
| Hms.DoctorDayOff | mediconnect/src/lib/hms.ts:361 | a day that is not a working day gets no slots |
| Hms.SetIfDefined | mediconnect/src/lib/hms.ts:400-407 | one `if (data.x !== undefined)` sets the column exactly when the field is defined, keeping the columns already decided |
| Hms.UpdatePayload | mediconnect/src/lib/hms.ts:397-407 | the payload holds exactly the defined fields of the data, under their column names |
| Hms.PayloadColumns | mediconnect/src/lib/hms.ts:400-407 | phone and email are never in the payload; `qualification` is written as `qualifications`; the payload is empty exactly when nothing but a phone or an email is defined |
| Hms.PayloadPatches | mediconnect/src/lib/hms.ts:409-412 | writing the payload to a row is the patch of the row by the data |
| Hms.PatchProperties | mediconnect/src/lib/hms.ts:397-415 | a patch keeps the id, hospital and schedule, applying it twice is applying it once, and data with nothing but a phone or an email changes nothing |
| Hms.PatchWhere | mediconnect/src/lib/hms.ts:409-412 | the update by id keeps the table's length |
| Hms.DoctorTables.constructor | mediconnect/src/lib/hms.ts:309 | the doctor and slot tables start empty |
| Hms.DoctorTables.CreateDoctor | mediconnect/src/lib/hms.ts:309-395 | a refused doctor insert fails with no change; otherwise the doctor row is appended, and the slots are appended and the doctor returned unless the non-empty slot batch is refused, which fails with the doctor already stored |
| Hms.DoctorTables.UpdateDoctor | mediconnect/src/lib/hms.ts:397-415 | a refused update fails with no change; otherwise every row with the id is patched; the slots are never touched |
| Hms.LaterAppointmentIsStrict | mediconnect/src/lib/hms.ts:207-208 | newest-first by date then time is a strict order |
| Hms.ListRows | mediconnect/src/lib/hms.ts:231-252 | each selected row maps to one result row, in order |
| Hms.PickedAppointments | mediconnect/src/lib/hms.ts:194-227 | the query keeps min(n, 100) of the n matching rows of the hospital, each from the table and matching the filters, newest first |
| Hms.AppointmentsSpec | mediconnect/src/lib/hms.ts:190-253 | an error is raised exactly when the query fails; otherwise at most 100 matching rows, each a mapped matching row, newest first |
| Hms.FilterAlike | mediconnect/src/lib/hms.ts:211-225 | filters that accept the same rows give the same selection |
| Hms.EmptyFiltersIgnored | mediconnect/src/lib/hms.ts:211-225 | an empty filter value gives the same result as an omitted one |
| Hms.EarlierDayIsStrict | mediconnect/src/lib/hms.ts:594 | oldest-first by date is a strict order |
| Hms.AnalyticsRows | mediconnect/src/lib/hms.ts:598-604 | each selected analytics row maps to one result row, in order |
| Hms.PickedAnalytics | mediconnect/src/lib/hms.ts:589-594 | every row of the hospital dated on or after the start comes back, oldest first |
| Hms.HmsAnalyticsSpec | mediconnect/src/lib/hms.ts:586-605 | an error is raised exactly when the query fails; otherwise every row of the last thirty days comes back, oldest first, with null counters as 0 |
| Hms.EntryOf | mediconnect/src/lib/hms.ts:639 | the aggregation lookup finds the first entry with the doctor's id, or none |
| Hms.NoRowsFor | mediconnect/src/lib/hms.ts:630-653 | a doctor with no rows has no name and no revenue |
| Hms.TallyStep | mediconnect/src/lib/hms.ts:630-653 | one more row keeps the entries a faithful tally of the rows seen |
| Hms.AggregateTallied | mediconnect/src/lib/hms.ts:625-653 | the aggregation has one entry per doctor with a joined row, with its count, its fees summed (null as 0) and the first name seen |
| Hms.MoreAppointmentsIsStrict | mediconnect/src/lib/hms.ts:655 | more appointments first is a strict order on counts |
| Hms.DoctorPerformance | mediconnect/src/lib/hms.ts:607-656 | an error exactly when the query fails; otherwise the aggregate of the counted rows sorted by count descending |
| Hms.OnceEach | mediconnect/src/lib/hms.ts:655 | a list with distinct doctor ids holds each entry at most once |
| Hms.Twice | mediconnect/src/lib/hms.ts:655 | an entry at two positions occurs at least twice |
| Hms.Reordered | mediconnect/src/lib/hms.ts:655 | sorting keeps one entry per doctor and the same entries |
| Hms.DoctorPerformanceSpec | mediconnect/src/lib/hms.ts:607-656 | the result is sorted by count descending, has one entry per doctor, each entry summarises that doctor's rows, and every doctor with a row has an entry |
| SuperAdmin.SkipRun | mediconnect/src/lib/super-admin.ts:297 | skipping a run of non-slug characters shortens the text and leaves it starting with a slug character |
| SuperAdmin.Dashify | mediconnect/src/lib/super-admin.ts:297 | `replace(/[^a-z0-9]+/g, '-')` is empty exactly for empty text and starts with the first character, or a dash for a non-slug one |
| SuperAdmin.ConsSlugText | mediconnect/src/lib/super-admin.ts:297 | a slug character in front of slug text keeps it slug text, provided a dash is not put before a dash |
| SuperAdmin.DashifyShape | mediconnect/src/lib/super-admin.ts:297 | after the replacement the text holds only a-z, 0-9 and single dashes |
| SuperAdmin.SliceSlugText | mediconnect/src/lib/super-admin.ts:298-299 | any slice of slug text is slug text |
| SuperAdmin.SlugShape | mediconnect/src/lib/super-admin.ts:295-299 | the subdomain has at most 50 characters, only a-z, 0-9 and single dashes, never starts with a dash, and ends with one only when the 50-character cut fell just after a dash |
| SuperAdmin.DashifySlugText | mediconnect/src/lib/super-admin.ts:297 | slug text not ending in a dash is left unchanged by the replacement |
| SuperAdmin.SlugOfSlug | mediconnect/src/lib/super-admin.ts:295-299 | slugging a valid slug gives it back: the subdomain derivation is idempotent on its clean outputs |
| SuperAdmin.StripSlug | mediconnect/src/lib/super-admin.ts:298-299 | trimming dashes and cutting at 50 leave a valid slug unchanged |
| SuperAdmin.LowerOfLower | mediconnect/src/lib/super-admin.ts:296 | lower-casing text with no capitals changes nothing |
| SuperAdmin.DashifySlugPrefix | mediconnect/src/lib/super-admin.ts:297 | a prefix of slug characters passes through the replacement unchanged |
| SuperAdmin.SlugMayEndWithDash | mediconnect/src/lib/super-admin.ts:295-299 | a 49-letter word, a space and a letter give a subdomain ending with a dash, because the dashes are trimmed before the cut at 50 |
| SuperAdmin.OneYearLater | mediconnect/src/lib/super-admin.ts:292 | `new Date(y + 1, m, d)` is the same day next year, or 1 March when that day does not exist (29 February) |
| SuperAdmin.NewHospital | mediconnect/src/lib/super-admin.ts:290-318 | a new hospital is active, enabled and not promoted, starts now and ends a year later, has a slug subdomain (or a 50-character one ending with a dash), and keeps the plan and coordinates |
| SuperAdmin.TierPatch | mediconnect/src/lib/super-admin.ts:518-534 | "none" clears the promotion and a level sets it with that level; the flag and the level always agree |
| SuperAdmin.TogglePatch | mediconnect/src/lib/super-admin.ts:351-361 | the toggle sets the flag as asked, with level "promoted" when on and none when off |
| SuperAdmin.ToggleIsTier | mediconnect/src/lib/super-admin.ts:351-361 | toggling is choosing the tier "promoted" or "none" |
| SuperAdmin.NoOccurrences | mediconnect/src/lib/super-admin.ts:194 | a hospital has no doctors counted exactly when no doctor row names it |
| SuperAdmin.CountDoctors | mediconnect/src/lib/super-admin.ts:187-190 | the count map gives every hospital id the number of doctor rows naming it, and 0 for the others |
| SuperAdmin.AllHospitals | mediconnect/src/lib/super-admin.ts:177-196 | every hospital comes back in order with `doctor_count` equal to the number of its doctor rows |
| SuperAdmin.ReduceRevenueSum | mediconnect/src/lib/super-admin.ts:55-58 | the `reduce` adds every row's revenue, null as 0, to its seed |
| SuperAdmin.SumWithout | mediconnect/src/lib/super-admin.ts:55-58 | a sum is the sum without one row plus that row's revenue |
| SuperAdmin.SumSplit | mediconnect/src/lib/super-admin.ts:55-58 | a sum splits at any index |
| SuperAdmin.SumFirst | mediconnect/src/lib/super-admin.ts:55-58 | a sum is the first row's revenue plus the sum of the rest |
| SuperAdmin.MultisetWithout | mediconnect/src/lib/super-admin.ts:55-58 | removing the same row from two permutations leaves permutations |
| SuperAdmin.SumOfPermutation | mediconnect/src/lib/super-admin.ts:55-58 | the revenue sum does not depend on the order of the rows |
| SuperAdmin.MonthRevenueSpec | mediconnect/src/lib/super-admin.ts:41-58 | this month's revenue is the sum of the revenues of the rows dated within the month, whatever order the query returns them in |
| SuperAdmin.FilterMultiset | mediconnect/src/lib/super-admin.ts:41-45 | filtering keeps each row's multiplicity when it matches and drops it otherwise |
| SuperAdmin.FilterPermutation | mediconnect/src/lib/super-admin.ts:41-45 | filtering two permutations gives permutations |
| SuperAdmin.NoRowsNoRevenue | mediconnect/src/lib/super-admin.ts:482 | a hospital with no analytics rows has revenue 0 |
| SuperAdmin.RevenueByHospital | mediconnect/src/lib/super-admin.ts:469-476 | the revenue map gives every hospital id the sum of its rows' revenues, skipping rows without a hospital |
| SuperAdmin.RevenueRows | mediconnect/src/lib/super-admin.ts:478-483 | every hospital maps to one row with its id, name and revenue, 0 when it has none |
| SuperAdmin.HospitalRevenue | mediconnect/src/lib/super-admin.ts:458-485 | the result is the hospitals' revenue rows sorted by revenue |
| SuperAdmin.HospitalRevenueSpec | mediconnect/src/lib/super-admin.ts:478-484 | the sorted result is a permutation of the revenue rows, each with its hospital's revenue, in descending order of revenue |
| SuperAdmin.MonthsIn | mediconnect/src/lib/super-admin.ts:119-130 | the months seen are distinct and include every row's month |
| SuperAdmin.MonthsInOnlyRows | mediconnect/src/lib/super-admin.ts:119-130 | every month seen is the month of some row |
| SuperAdmin.NoRowsEmptyTotals | mediconnect/src/lib/super-admin.ts:122-134 | a month without rows has empty totals |
| SuperAdmin.GroupByMonth | mediconnect/src/lib/super-admin.ts:114-135 | the `Map` has exactly the months of the rows, in first-seen order, each with the bookings and revenue summed (null as 0) and the set of hospitals |
| SuperAdmin.MonthStats | mediconnect/src/lib/super-admin.ts:137-141 | each month becomes one stat with its totals and the number of its hospitals |
| SuperAdmin.MonthlyStats | mediconnect/src/lib/super-admin.ts:98-144 | the result is the monthly stats of the rows dated from twelve months ago |
| SuperAdmin.DistinctCount | mediconnect/src/lib/super-admin.ts:142 | a list without repeats holds each element at most once |
| SuperAdmin.DistinctPermutation | mediconnect/src/lib/super-admin.ts:142 | a permutation of a list without repeats has none |
| SuperAdmin.SortedStatsTotals | mediconnect/src/lib/super-admin.ts:137-142 | the sorted stats are one per month seen, each with that month's totals |
| SuperAdmin.SortedStatsStrict | mediconnect/src/lib/super-admin.ts:142 | the sorted stats run strictly from the newest month to the oldest |
| SuperAdmin.MonthlyStatsEntries | mediconnect/src/lib/super-admin.ts:137-143 | at most 12 stats, one per month seen, with their totals, newest first |
| SuperAdmin.MonthlyStatsKeepsNewest | mediconnect/src/lib/super-admin.ts:142-143 | a month left out is older than all 12 kept |
| SuperAdmin.MonthlyStatsSpec | mediconnect/src/lib/super-admin.ts:98-144 | at most 12 stats, each a month seen with its totals, strictly newest first, and any month left out is older than all 12 kept |
| SuperAdmin.MonthAnalytics | mediconnect/src/lib/super-admin.ts:442-447 | each month becomes one row with its bookings and revenue totals |
| SuperAdmin.PlatformAnalytics | mediconnect/src/lib/super-admin.ts:411-450 | the result is the platform analytics of the rows dated from twelve months ago |
| SuperAdmin.PlatformAnalyticsSpec | mediconnect/src/lib/super-admin.ts:426-449 | one row per month seen, with its totals, oldest first, and every row's month is represented |
| MessageProcessor.ReadBack | mediconnect/supabase/functions/_shared/conversation-manager.ts:49-82 | a conversation read back after the handler's writes has the state and context of the last write, idle and empty after a reset, and is unchanged without writes |
| MessageProcessor.Pick | mediconnect/supabase/functions/_shared/message-processor.ts:295-301 | a selection picks the (n-1)-th entry exactly when the number given (or parsed from the text) is between 1 and the list's length |
| MessageProcessor.NoNumberSelectsNothing | mediconnect/supabase/functions/_shared/message-processor.ts:295 | with neither a number nor text the parsed selection is `parseInt('0')`, which selects nothing |
| MessageProcessor.IdleStep | mediconnect/supabase/functions/_shared/message-processor.ts:202-280 | the idle handler never books, cancels, registers or audits; a queue check answers with the counts `getQueueStatus` returns as written |
| MessageProcessor.FirstNonEmpty | mediconnect/supabase/functions/_shared/message-processor.ts:328-338 | the probe over the next days returns only a non-empty slot list |
| MessageProcessor.FirstNonEmptyIsFirst | mediconnect/supabase/functions/_shared/message-processor.ts:322-338 | the probe returns the slots of the first of the next seven days that has any, or nothing when every one of them is empty |
| MessageProcessor.DoctorStep | mediconnect/supabase/functions/_shared/message-processor.ts:282-351 | the doctor-selection handler at most cancels an appointment |
| MessageProcessor.SlotStep | mediconnect/supabase/functions/_shared/message-processor.ts:355-378 | the slot-selection handler changes no other table |
| MessageProcessor.ConfirmStep | mediconnect/supabase/functions/_shared/message-processor.ts:382-417 | the confirmation handler at most books an appointment |
| MessageProcessor.RecordStep | mediconnect/supabase/functions/_shared/message-processor.ts:421-467 | the record-selection handler at most writes an audit entry, which carries the OTP hash and the expiry five minutes on |
| MessageProcessor.Otp | mediconnect/supabase/functions/_shared/message-processor.ts:445 | the one-time code is a six-digit number, from 100000 to 999999 |
| MessageProcessor.RegistrationDispatch | mediconnect/supabase/functions/_shared/message-processor.ts:70-84 | in a registration state the message can only register a user |
| MessageProcessor.SessionDispatch | mediconnect/supabase/functions/_shared/message-processor.ts:86-105 | outside registration the message never registers a user |
| MessageProcessor.Caught | mediconnect/supabase/functions/_shared/message-processor.ts:107-111 | a handler that throws is answered with the error message after a reset of the conversation, keeping its writes and effect; one that succeeds is unchanged |
| MessageProcessor.Effective | mediconnect/supabase/functions/_shared/conversation-manager.ts:107-120 | the stale check keeps the conversation's id and user |
| MessageProcessor.AuditLog.constructor | mediconnect/supabase/functions/_shared/message-processor.ts:448 | the audit log starts empty |
| MessageProcessor.AuditLog.Insert | mediconnect/supabase/functions/_shared/message-processor.ts:448-455 | an insert appends exactly the entry |
| MessageProcessor.HandleRegistrationName | mediconnect/supabase/functions/_shared/message-processor.ts:123-129 | the conversation rows take exactly the name step's writes and the reply is the name step's; the message log is untouched |
| MessageProcessor.HandleRegistrationAge | mediconnect/supabase/functions/_shared/message-processor.ts:131-143 | the rows take exactly the age step's writes and the reply is its reply |
| MessageProcessor.HandleRegistrationLanguage | mediconnect/supabase/functions/_shared/message-processor.ts:145-159 | the rows take exactly the language step's writes and the reply is its reply |
| MessageProcessor.HandleRegistrationLocation | mediconnect/supabase/functions/_shared/message-processor.ts:161-198 | the rows take the location step's writes, the reply is its reply, and the user table becomes the table with the new user registered |
| MessageProcessor.HandleSearch | mediconnect/supabase/functions/_shared/message-processor.ts:215-224 | a search writes the selecting-doctor state with the results and answers with the doctor list |
| MessageProcessor.HandleRecords | mediconnect/supabase/functions/_shared/message-processor.ts:226-231 | a records request writes the selecting-record state and answers with the records list |
| MessageProcessor.HandleCancelStart | mediconnect/supabase/functions/_shared/message-processor.ts:248-259 | a cancel request answers "no upcoming" with no write, or writes the cancellation context and lists the appointments |
| MessageProcessor.HandleIdle | mediconnect/supabase/functions/_shared/message-processor.ts:202-280 | the idle handler performs exactly the idle step's writes and reply, the queue reply built from the as-written queue counts |
| MessageProcessor.ProbeNextWeek | mediconnect/supabase/functions/_shared/message-processor.ts:320-338 | the loop over the next seven days returns exactly the first non-empty day's slots, or none |
| MessageProcessor.HandleCancelChoice | mediconnect/supabase/functions/_shared/message-processor.ts:293-308 | the cancellation choice performs the step's writes and reply, and the appointment and slot tables change exactly as the step's cancellation asks |
| MessageProcessor.HandleDoctorChoice | mediconnect/supabase/functions/_shared/message-processor.ts:310-350 | the doctor choice performs exactly the step's writes and reply |
| MessageProcessor.HandleSelectingDoctor | mediconnect/supabase/functions/_shared/message-processor.ts:282-351 | the doctor-selection handler performs the step's writes and reply and the booking tables change exactly by its effect |
| MessageProcessor.HandleSelectingSlot | mediconnect/supabase/functions/_shared/message-processor.ts:355-378 | the slot handler performs exactly the step's writes and reply |
| MessageProcessor.HandleConfirmingBooking | mediconnect/supabase/functions/_shared/message-processor.ts:382-417 | the confirmation handler performs exactly the step's writes and reply |
| MessageProcessor.HandleSelectingRecord | mediconnect/supabase/functions/_shared/message-processor.ts:421-467 | the record handler performs the step's writes and reply, and the audit log grows by the step's access entry, with its OTP hash and expiry, exactly when it has one |
| MessageProcessor.HandleRegistration | mediconnect/supabase/functions/_shared/message-processor.ts:70-84 | the registration dispatch performs the step's writes and reply, and the user table changes exactly by its effect |
| MessageProcessor.HandleSession | mediconnect/supabase/functions/_shared/message-processor.ts:86-105 | the session dispatch performs the step's writes and reply, and the booking and audit tables change exactly by its effect |
| MessageProcessor.HandleCaught | mediconnect/supabase/functions/_shared/message-processor.ts:68-111 | the `try` around the dispatch performs the caught outcome's writes, answers its reply, and the tables change exactly by its effect |
| MessageProcessor.Route | mediconnect/supabase/functions/_shared/message-processor.ts:44-118 | after the stale check: the registration redirect, the cancel word, or the dispatch, each with exactly the turn's writes, reply and effect |
| MessageProcessor.OpenConversation | mediconnect/supabase/functions/_shared/message-processor.ts:32-39 | opening fails exactly when a new sender's row cannot be inserted, with nothing changed; otherwise the sender's row exists, the stale check's writes are applied and the inbound message is logged once |
| MessageProcessor.ProcessMessage | mediconnect/supabase/functions/_shared/message-processor.ts:29-119 | the whole turn: it fails only when a new sender's conversation cannot be created, changing nothing; otherwise the sender's row takes the stale writes and the turn's writes, the message is logged, the reply is the turn's and the other tables change exactly by the turn's effect |
| ProcessorProperties.UnregisteredIsWelcomed | mediconnect/supabase/functions/_shared/message-processor.ts:44-48 | a sender with no user outside registration gets the welcome, nothing else changes, and the conversation moves to the name step with an empty context |
| ProcessorProperties.CancelResetsFromAnyState | mediconnect/supabase/functions/_shared/message-processor.ts:59-63 | the cancel word or intent, from any state, answers the cancel message and leaves the conversation idle with an empty context |
| ProcessorProperties.FailureResets | mediconnect/supabase/functions/_shared/message-processor.ts:107-111 | a handler that throws is answered with the error message, translated for the user, and the conversation is left idle with an empty context |
| ProcessorProperties.RepromptKeepsConversation | mediconnect/supabase/functions/_shared/message-processor.ts:297-313 | a handler that re-prompts without writing leaves the conversation's state and context as they were after the stale check |
| ProcessorProperties.MoveTakesLastWrite | mediconnect/supabase/functions/_shared/message-processor.ts:65-106 | after a handler's move the conversation has the state and context of its last write |
| ProcessorProperties.RegistrationAdvancesInOrder | mediconnect/supabase/functions/_shared/message-processor.ts:123-198 | a registration step writes once, moving to the next step, exactly when its input is accepted; a rejected input writes nothing and is re-prompted |
| ProcessorProperties.RegistrationBuildsContext | mediconnect/supabase/functions/_shared/message-processor.ts:123-159 | the name step starts a context with the trimmed name; the age and language steps add the parsed age and the chosen language to the context |
| ProcessorProperties.LanguageNumbers | mediconnect/supabase/functions/_shared/message-processor.ts:150-157 | replies 1 to 4 choose English, Hindi, Telugu and Tamil |
| ProcessorProperties.ParsesDigit | mediconnect/supabase/functions/_shared/message-processor.ts:150 | a single digit parses to its value |
| ProcessorProperties.OutOfRangeChangesNothing | mediconnect/supabase/functions/_shared/message-processor.ts:297-298 | a selection out of range in any list state writes nothing, changes no table and re-prompts |
| ProcessorProperties.SlotPickStoresSlot | mediconnect/supabase/functions/_shared/message-processor.ts:364-377 | a valid slot number stores that slot and moves to confirmation |
| ProcessorProperties.RecordPickLogsAccess | mediconnect/supabase/functions/_shared/message-processor.ts:429-460 | a valid record number logs an access request for that record, whose OTP hash is the base64 of the six-digit code sent in the link and whose expiry is five minutes after now, and resets the conversation |
| ProcessorProperties.CancelFlowStarts | mediconnect/supabase/functions/_shared/message-processor.ts:248-259 | a cancel request with no upcoming appointment writes nothing; otherwise it stores the cancellation context in the selecting-doctor state |
| ProcessorProperties.CancelPickCancels | mediconnect/supabase/functions/_shared/message-processor.ts:293-304 | a valid number in the cancellation flow cancels that upcoming appointment and resets the conversation |
| ProcessorProperties.FallbackTakesFirstOpenDay | mediconnect/supabase/functions/_shared/message-processor.ts:316-342 | the requested day's slots are offered when it has any; otherwise the first of the next seven days with slots, and nothing only when all seven are empty |
| ProcessorProperties.DoctorPickStoresOffer | mediconnect/supabase/functions/_shared/message-processor.ts:310-350 | a valid doctor number stores the doctor and the offered slots and moves to slot selection, or resets with the no-slots reply |
| ProcessorProperties.ConfirmationRules | mediconnect/supabase/functions/_shared/message-processor.ts:389-417 | "no" resets with the cancel message, anything but yes or no re-prompts with no write, and "yes" books the chosen slot with the chosen doctor and resets |
| ProcessorProperties.QueueCheckShowsNoneAhead | mediconnect/supabase/functions/_shared/message-processor.ts:233-245 | a queue check on a day whose queue is not empty writes nothing and answers with no patients-ahead count, which the reply renders as 0 patients ahead |
| ProcessorProperties.QueueReplyReadsNoneAhead | mediconnect/supabase/functions/_shared/response-generator.ts:213-231 | a queue reply with no patients-ahead count, or a count of 0, says 0 patients ahead |
| Toasts.Merge | mediconnect/src/hooks/use-toast.ts:66 | `{ ...t, ...patch }`: every field the patch gives wins, every other field is the toast's own |
| Toasts.UpdateAll | mediconnect/src/hooks/use-toast.ts:62-68 | the update keeps the list's length and ids, merges the patch into the toasts with its id and leaves the others as they were |
| Toasts.DismissAll | mediconnect/src/hooks/use-toast.ts:70-77 | dismissing closes exactly the toasts with the id and changes nothing else |
| Toasts.Reduce | mediconnect/src/hooks/use-toast.ts:54-88 | an unknown action leaves the list as it is, and no action takes a list of at most 5 toasts above 5 |
| Toasts.AddSpec | mediconnect/src/hooks/use-toast.ts:56-60 | a new toast goes first, followed by the previous toasts cut so that at most 5 remain |
| Toasts.UpdateUnknownId | mediconnect/src/hooks/use-toast.ts:62-68 | an update for an id no toast has changes nothing |
| Toasts.DismissIsUpdate | mediconnect/src/hooks/use-toast.ts:70-77 | dismissing is the update that sets `open` to false |
| Toasts.RemoveSpec | mediconnect/src/hooks/use-toast.ts:79-83 | after a removal no toast has the id, every other toast keeps its multiplicity, and the list does not grow |
| Toasts.RemoveAppend | mediconnect/src/hooks/use-toast.ts:82 | removal distributes over concatenation, so the order of the survivors is kept |
| Toasts.RemoveUnknownId | mediconnect/src/hooks/use-toast.ts:79-83 | removing an id no toast has changes nothing |
| Toasts.DismissThenRemove | mediconnect/src/hooks/use-toast.ts:120-124 | dismissing before removing leaves the same list as removing alone |
| Toasts.NatToStringValue | mediconnect/src/hooks/use-toast.ts:38 | `count.toString()` reads back as the count |
| Toasts.IdsDistinct | mediconnect/src/hooks/use-toast.ts:36-39 | distinct counts give distinct ids |
| Toasts.Broadcast | mediconnect/src/hooks/use-toast.ts:98 | every listener, in order, is called once with the new state |
| Toasts.RemoveFirst | mediconnect/src/hooks/use-toast.ts:141-144 | `splice(indexOf(l), 1)` removes one occurrence of a subscribed listener and leaves an unknown one's list alone |
| Toasts.ToastStore.constructor | mediconnect/src/hooks/use-toast.ts:34-93 | the counter starts at 0, with no toasts and no listeners |
| Toasts.ToastStore.GenerateId | mediconnect/src/hooks/use-toast.ts:36-39 | the counter advances by one modulo `MAX_SAFE_INTEGER` and the id is its decimal text, different from the previous id |
| Toasts.ToastStore.Dispatch | mediconnect/src/hooks/use-toast.ts:96-99 | the state becomes the reducer's result and every listener is notified of it |
| Toasts.ToastStore.Show | mediconnect/src/hooks/use-toast.ts:101-118 | `toast()` takes a fresh id and puts an open toast with the given options first in the list, notifying every listener |
| Toasts.ToastStore.Subscribe | mediconnect/src/hooks/use-toast.ts:139 | subscribing appends the listener |
| Toasts.ToastStore.Unsubscribe | mediconnect/src/hooks/use-toast.ts:140-145 | unsubscribing removes one occurrence of the listener |
| OnboardWizard.PhoneShape | mediconnect/src/pages/super-admin/OnboardHospital.tsx:33-35 | an accepted phone has 7 to 15 digits, optionally after a leading `+` |
| OnboardWizard.ParsePlan | mediconnect/src/pages/super-admin/OnboardHospital.tsx:39-43 | step 2 accepts exactly "basic", "growth" and "enterprise" |
| OnboardWizard.PlanRoundTrip | mediconnect/src/pages/super-admin/OnboardHospital.tsx:39-43 | a plan's value parses back to the plan, and only its value does |
| OnboardWizard.Rand | mediconnect/src/pages/super-admin/OnboardHospital.tsx:100 | `s[Math.floor(Math.random() * s.length)]` is a character of `s` |
| OnboardWizard.Drawn | mediconnect/src/pages/super-admin/OnboardHospital.tsx:102-115 | the drawn password has 14 characters |
| OnboardWizard.DrawnPrefix | mediconnect/src/pages/super-admin/OnboardHospital.tsx:102-110 | the first 8 characters are two uppercase letters, two lowercase letters, two digits and two specials |
| OnboardWizard.DrawnStep | mediconnect/src/pages/super-admin/OnboardHospital.tsx:113-115 | each fill-up iteration appends one character drawn from all the classes |
| OnboardWizard.InsertAt | mediconnect/src/pages/super-admin/OnboardHospital.tsx:117-121 | inserting a character adds exactly that character to the multiset |
| OnboardWizard.Shuffle | mediconnect/src/pages/super-admin/OnboardHospital.tsx:117-121 | the shuffle is a permutation: same length, same characters |
| OnboardWizard.TwoPositions | mediconnect/src/pages/super-admin/OnboardHospital.tsx:113-121 | a character counted twice occurs at two positions |
| OnboardWizard.TwiceCounted | mediconnect/src/pages/super-admin/OnboardHospital.tsx:113-121 | a character at two positions is counted at least twice |
| OnboardWizard.TwoOfPermutation | mediconnect/src/pages/super-admin/OnboardHospital.tsx:117-121 | having two characters of a class survives any permutation |
| OnboardWizard.UpperChars | mediconnect/src/pages/super-admin/OnboardHospital.tsx:95 | the uppercase pool holds only uppercase letters |
| OnboardWizard.LowerChars | mediconnect/src/pages/super-admin/OnboardHospital.tsx:96 | the lowercase pool holds only lowercase letters |
| OnboardWizard.DigitChars | mediconnect/src/pages/super-admin/OnboardHospital.tsx:97 | the digit pool holds only digits |
| OnboardWizard.SpecialChars | mediconnect/src/pages/super-admin/OnboardHospital.tsx:98 | the special pool holds only non-alphanumeric characters |
| OnboardWizard.ClassChars | mediconnect/src/pages/super-admin/OnboardHospital.tsx:95-98 | a character drawn from a class's pool belongs to that class |
| OnboardWizard.DrawnClasses | mediconnect/src/pages/super-admin/OnboardHospital.tsx:102-115 | before shuffling the password has at least two uppercase letters, two lowercase letters, two digits and two specials |
| OnboardWizard.GeneratePassword | mediconnect/src/pages/super-admin/OnboardHospital.tsx:94-122 | the generated password is a shuffle of the drawn one, has 14 characters with two of each class, and always passes the step-3 password rules |
| OnboardWizard.ShuffledPassword | mediconnect/src/pages/super-admin/OnboardHospital.tsx:48-53 | any shuffle of the drawn characters has two of each class and passes the step-3 rules: at least 10 characters, an uppercase letter, a digit and a special |
| OnboardWizard.Indicator | mediconnect/src/pages/super-admin/OnboardHospital.tsx:128-134 | three marks; a step is done exactly when its number is below the current one and active exactly when equal |
| OnboardWizard.IndicatorOfStep | mediconnect/src/pages/super-admin/OnboardHospital.tsx:491 | shown with `min(step, 3)`, exactly one mark is active, and on the summary step the first two are done and the third stays active |
| OnboardWizard.Wizard.constructor | mediconnect/src/pages/super-admin/OnboardHospital.tsx:446-447 | the wizard starts at step 1 with no data |
| OnboardWizard.Wizard.Next1 | mediconnect/src/pages/super-admin/OnboardHospital.tsx:29-37 | a valid step 1 merges its data and moves to step 2; an invalid one changes nothing |
| OnboardWizard.Wizard.Next2 | mediconnect/src/pages/super-admin/OnboardHospital.tsx:455-458 | a listed plan is merged and moves to step 3; anything else changes nothing |
| OnboardWizard.Wizard.Next3 | mediconnect/src/pages/super-admin/OnboardHospital.tsx:460-463 | a valid step 3 merges its data and moves to the summary; an invalid one changes nothing |
| OnboardWizard.Wizard.Back | mediconnect/src/pages/super-admin/OnboardHospital.tsx:526 | Back moves one step down and keeps the data entered |
| OnboardWizard.Wizard.Submit | mediconnect/src/pages/super-admin/OnboardHospital.tsx:465-472 | on the summary the submit makes exactly one call, `createHospital` with the entered hospital and plan, never one creating the admin account, and navigates to the hospital list exactly when it succeeds |
| OnboardWizard.Wizard.ReviewPayload | mediconnect/src/pages/super-admin/OnboardHospital.tsx:465-466 | on the summary the payload holds exactly the data entered, which passes the step-1 and step-3 rules |
| OnboardWizard.Wizard.SubmitCorrected | mediconnect/src/pages/super-admin/OnboardHospital.tsx:465-472 | the corrected submit creates the hospital, then the admin account with the entered step-3 data under the new hospital's id, and navigates only when both succeed |
| OnboardWizard.HospitalData | mediconnect/src/lib/super-admin.ts:290-324 | the `createHospital` argument carries the entered name, city, address, phone, email and plan, and no website or coordinates |
| OnboardWizard.AdminAccountNeverCreated | mediconnect/src/pages/super-admin/OnboardHospital.tsx:465-472 | the submit never asks for an admin account, and whatever was entered at step 3 neither changes its calls nor the hospital row inserted |
| OnboardWizard.CorrectedCreatesAdmin | mediconnect/src/pages/super-admin/OnboardHospital.tsx:465-472 | the corrected calls create the hospital first and an admin account exactly when a hospital id came back, with that id and the step-3 data |
| AdminOnboard.DefaultsSpec | mediconnect/src/pages/admin/OnboardHospital.tsx:46-57 | the form starts with plan "growth" and is not valid until filled in |
| AdminOnboard.SubdomainNotSlug | mediconnect/src/pages/admin/OnboardHospital.tsx:31-33 | the subdomain rule accepts "a--", which no created subdomain can be |
| AdminOnboard.HospitalData | mediconnect/src/pages/admin/OnboardHospital.tsx:63-70 | the hospital is created with the city as address, an empty phone, the admin's email as hospital email and the chosen plan |
| AdminOnboard.SubdomainIgnored | mediconnect/src/pages/admin/OnboardHospital.tsx:63-70 | the subdomain typed in the form changes nothing: the hospital's subdomain is derived from its name |
| AdminOnboard.ErrorNotice | mediconnect/src/pages/admin/OnboardHospital.tsx:90-94 | a failure shows a destructive "Error" toast with the error's message, or the default text when it has none |
| AdminOnboard.Requests | mediconnect/src/pages/admin/OnboardHospital.tsx:63-80 | the hospital is always requested; the admin only when the hospital came back, linked to its id |
| AdminOnboard.Outcome | mediconnect/src/pages/admin/OnboardHospital.tsx:72-94 | success exactly when both calls succeed, with the success toast; otherwise a destructive toast, the "Failed to create hospital" one when no hospital came back |
| AdminOnboard.OnboardPage.constructor | mediconnect/src/pages/admin/OnboardHospital.tsx:44 | the page starts idle with no calls, toasts or navigation |
| AdminOnboard.OnboardPage.OnSubmit | mediconnect/src/pages/admin/OnboardHospital.tsx:59-98 | a submit makes the requests, shows one toast, navigates to /admin/hospitals only on success, and always ends not loading |
| AddDoctor.Pad2Digits | mediconnect/src/pages/hms/AddDoctor.tsx:28 | two digits read as a number and padded give the same two characters back |
| AddDoctor.TimeOkSound | mediconnect/src/pages/hms/AddDoctor.tsx:28-29 | an accepted time is an hour 0-23 and a minute 00-59, as H:MM or HH:MM |
| AddDoctor.TimeOkComplete | mediconnect/src/pages/hms/AddDoctor.tsx:28-29 | every hour 0-23 and minute 00-59 is accepted as HH:MM, and as H:MM for a one-digit hour |
| AddDoctor.PadShape | mediconnect/src/pages/hms/AddDoctor.tsx:28-29 | padded minutes and hours have the shapes the time rule accepts |
| AddDoctor.DefaultsSpec | mediconnect/src/pages/hms/AddDoctor.tsx:50-61 | the defaults are a fee of 500, valid times and at least one working day; the form is invalid until a name and specialization are given |
| AddDoctor.UncheckSpec | mediconnect/src/pages/hms/AddDoctor.tsx:224-228 | unchecking removes every occurrence of the day and keeps every other day |
| AddDoctor.UncheckAfterCheck | mediconnect/src/pages/hms/AddDoctor.tsx:221-228 | checking then unchecking a day not yet chosen restores the list |
| AddDoctor.FilterAll | mediconnect/src/pages/hms/AddDoctor.tsx:225-227 | a filter every element passes keeps the list |
| AddDoctor.Payload | mediconnect/src/pages/hms/AddDoctor.tsx:66-76 | the object sent carries the times with ":00" appended, experience 0, 30-minute slots, the coerced fee and the chosen days |
| AddDoctor.BindCreateDoctor | mediconnect/src/lib/hms.ts:309-324 | `createDoctor(hospitalId, data)` called with fewer than two arguments fails |
| AddDoctor.AsWrittenAlwaysFails | mediconnect/src/pages/hms/AddDoctor.tsx:66-76 | the one-argument call made on submit always fails, so no valid form ever adds a doctor |
| AddDoctor.PayloadKeysLost | mediconnect/src/pages/hms/AddDoctor.tsx:69-75 | even with a hospital id, the object's keys are not the ones `createDoctor` reads: the times fall back to 09:00-17:00 and the qualification is lost |
| AddDoctor.SubmitData | mediconnect/src/pages/hms/AddDoctor.tsx:63-76 | the corrected data carries the form's times, 30-minute slots, experience 0, the qualification and the days under the keys `createDoctor` reads |
| AddDoctor.CorrectedCallSpec | mediconnect/src/pages/hms/AddDoctor.tsx:63-76 | the corrected call binds, and the stored doctor has the form's times, duration, fee and days and is active |
| AddDoctor.AddDoctorPage.constructor | mediconnect/src/pages/hms/AddDoctor.tsx:48 | the page starts idle with no toasts or navigation |
| AddDoctor.AddDoctorPage.Submit | mediconnect/src/pages/hms/AddDoctor.tsx:63-93 | a call that binds and succeeds shows "Doctor added" and navigates to /hms/doctors; anything else shows the error toast and stays; loading always ends |
| AddDoctor.AddDoctorPage.OnSubmit | mediconnect/src/pages/hms/AddDoctor.tsx:63-93 | as written, every valid submit shows the error toast and stays on the page |
| AddDoctor.AddDoctorPage.OnSubmitCorrected | mediconnect/src/pages/hms/AddDoctor.tsx:63-93 | with the corrected call the doctor is added and the page navigates exactly when the insert succeeds |
| HospitalList.Filtered | mediconnect/src/pages/super-admin/HospitalList.tsx:115-124 | the rows shown come from the loaded hospitals, and "Showing n of m" never has n above m (the count line is HospitalList.tsx line 294) |
| HospitalList.FilteredSpec | mediconnect/src/pages/super-admin/HospitalList.tsx:115-124 | no data shows nothing; a blank query shows every hospital unchanged; otherwise a hospital shows exactly when its lowercased name or city contains the lowercased, trimmed query |
| HospitalList.FilteredKeepsOrder | mediconnect/src/pages/super-admin/HospitalList.tsx:119-123 | the filter keeps the loaded order: it distributes over concatenation |
| HospitalList.SearchIgnoresCase | mediconnect/src/pages/super-admin/HospitalList.tsx:117 | typing the query in capitals shows the same hospitals |
| HospitalList.NextStatus | mediconnect/src/pages/super-admin/HospitalList.tsx:126-129 | the toggle always changes the status, and gives active exactly for a suspended hospital |
| HospitalList.ToggleTwice | mediconnect/src/pages/super-admin/HospitalList.tsx:127 | toggling twice restores an active or suspended hospital but turns a trial one active |
| HospitalList.ToggleRequest | mediconnect/src/pages/super-admin/HospitalList.tsx:128 | the request names the row's hospital and a status different from its own |
| AppointmentsPage.FiltersOf | mediconnect/src/pages/hms/Appointments.tsx:48-53 | the status filter is dropped exactly for "all", the date and search exactly when empty, and no doctor filter is sent |
| AppointmentsPage.AllStatusesListed | mediconnect/src/pages/hms/Appointments.tsx:48-53 | with "all", whether a row is listed does not depend on its status |
| AppointmentsPage.StatusSelected | mediconnect/src/pages/hms/Appointments.tsx:48-53 | with any other status, only rows with that status are listed |
| AppointmentsPage.EmptyFieldsAsRaw | mediconnect/src/pages/hms/Appointments.tsx:48-53 | sending `undefined` for empty texts lists the same rows as sending the empty texts |
| AppointmentsPage.VariantSpec | mediconnect/src/pages/hms/Appointments.tsx:215-224 | confirmed is the default badge, completed secondary, cancelled and no-show destructive, and every other status outline |
| AppointmentsPage.ReplaceFirst | mediconnect/src/pages/hms/Appointments.tsx:225 | replacing the first underscore keeps the length |
| AppointmentsPage.LabelSpec | mediconnect/src/pages/hms/Appointments.tsx:225 | the label has the status's length, its first underscore becomes a space and every other character is capitalised |
| AppointmentsPage.LabelExamples | mediconnect/src/pages/hms/Appointments.tsx:225 | "no_show" reads "NO SHOW", but only the first underscore goes: "a_b_c" reads "A B_C" |
| AppointmentsPage.Menu | mediconnect/src/pages/hms/Appointments.tsx:176-199 | four items, confirm, complete, no-show and cancel, each disabled exactly when the row already has its status |
| AppointmentsPage.MenuDisabled | mediconnect/src/pages/hms/Appointments.tsx:176-199 | at most one item is disabled, and one is exactly when the status is one the menu sets |
| AppointmentsPage.Choose | mediconnect/src/pages/hms/Appointments.tsx:176-199 | an enabled item sends a change for that appointment to a status different from its own; a disabled one sends nothing |
| Layout.Exact | mediconnect/src/components/hms/HmsLayout.tsx:48 | the exact lookup finds a title exactly when some key equals the path, and returns that key's title |
| Layout.FirstNested | mediconnect/src/components/hms/HmsLayout.tsx:49 | the nested lookup returns the first key the path is nested under, and none when there is no such key |
| Layout.PageTitleSpec | mediconnect/src/components/hms/HmsLayout.tsx:47-51 | for a table of unrelated keys, an exact key gives its title, a path under a key gives that key's title, and any other path the fallback (the same code is at SuperAdminLayout.tsx lines 38-44) |
| Layout.NestedNotExact | mediconnect/src/components/hms/HmsLayout.tsx:47-51 | a path nested under a key of an unrelated table is no key itself |
| Layout.NestedTwice | mediconnect/src/components/hms/HmsLayout.tsx:49 | two keys a path is nested under are equal or nested in each other |
| Layout.SiblingsNotNested | mediconnect/src/components/hms/HmsLayout.tsx:37-45 | distinct single-segment keys under one base are not nested in each other |
| Layout.FlatUnrelated | mediconnect/src/components/hms/HmsLayout.tsx:37-45 | a table of distinct single-segment keys under one base is unrelated |
| Layout.KeyOf | mediconnect/src/components/hms/HmsLayout.tsx:37-45 | a base followed by a segment without "/" is a key under that base |
| Layout.HmsKeysUnder | mediconnect/src/components/hms/HmsLayout.tsx:37-45 | every key of the hospital table is one segment under /hms/ |
| Layout.HmsKeysDistinct | mediconnect/src/components/hms/HmsLayout.tsx:37-45 | the hospital table's keys are distinct |
| Layout.SuperAdminKeysUnder | mediconnect/src/components/super-admin/SuperAdminLayout.tsx:30-36 | every key of the super-admin table is one segment under /super-admin/ |
| Layout.SuperAdminKeysDistinct | mediconnect/src/components/super-admin/SuperAdminLayout.tsx:30-36 | the super-admin table's keys are distinct |
| Layout.TablesUnrelated | mediconnect/src/components/hms/HmsLayout.tsx:37-45 | neither table has a key nested under another (the same code is at SuperAdminLayout.tsx lines 30-36) |
| Layout.NestedTitles | mediconnect/src/components/hms/HmsLayout.tsx:49 | any page below /hms/doctors/ is titled "Doctors", and any below /super-admin/hospitals/ "Hospitals" (the same code is at SuperAdminLayout.tsx line 42) |
| Layout.SectionRootTitle | mediconnect/src/components/super-admin/SuperAdminLayout.tsx:38-44 | the bare /super-admin path falls back to "Super Admin" |
| Layout.Head | mediconnect/src/components/hms/HmsLayout.tsx:56 | `part[0]` of an empty part contributes nothing; otherwise its first character |
| Layout.Initials | mediconnect/src/components/hms/HmsLayout.tsx:53-60 | the initials are at most two characters, capitalised and never a space (the same code is at SuperAdminLayout.tsx lines 46-53) |
| Layout.SplitFirst | mediconnect/src/components/hms/HmsLayout.tsx:55 | splitting on a space after a word without spaces gives that word and the split of the rest |
| Layout.InitialsSpec | mediconnect/src/components/hms/HmsLayout.tsx:53-60 | one word gives its capitalised first letter; two or more words the capitalised first letters of the first two (the same code is at SuperAdminLayout.tsx lines 46-53) |
| Layout.DisplayName | mediconnect/src/components/hms/HmsLayout.tsx:142 | the profile's name when it has one, the fallback otherwise (the same code is at SuperAdminLayout.tsx line 61) |
| Layout.HmsDefaultName | mediconnect/src/components/hms/HmsLayout.tsx:142 | with no profile name the hospital layout shows "Admin" with initials "A" |
| Layout.SuperAdminDefaultName | mediconnect/src/components/super-admin/SuperAdminLayout.tsx:61 | with no profile name the super-admin layout shows "Super Admin" with initials "SA" |
| ProtectedRoute.GuardSpec | mediconnect/src/components/ProtectedRoute.tsx:13-41 | while loading only the spinner shows; nobody signed in goes to /login remembering the path; a signed-in user sees the page exactly when no role list is given, no role is loaded or the role is listed; otherwise a super admin goes to /admin and a hospital admin to /unauthorized |
| ProtectedRoute.StaffBranchUnreachable | mediconnect/src/components/ProtectedRoute.tsx:34-36 | no role a user can have is a staff role, so the redirect to /hms/dashboard never happens |
| ProtectedRoute.SectionsUnchecked | mediconnect/src/App.tsx:56-63 | as written the role given to each section is a prop the guard does not read, so every signed-in user sees both sections (the second section is App.tsx lines 75-82) |
| ProtectedRoute.SectionsChecked | mediconnect/src/components/ProtectedRoute.tsx:31-39 | with the section's role passed as the allowed roles, a user sees a section exactly when it has that section's role, and the other role is redirected |

## Left out

- Calls to the language model (`extractIntent`, `detectLanguage`, `translateMessage`) are not modelled. The engine takes the extracted intent as an input and translation as a function parameter.
- The webhook handler (`whatsapp-webhook/index.ts`), its background task and concurrent messages from one phone are not modelled. Each turn runs alone.
- The `book_appointment_atomic` stored procedure is not part of this model. `BookingService.BookAppointment` takes its outcome as a parameter, and no double-booking property is claimed.
- HMAC-SHA1 and base64 in signature validation are a function parameter, as are the record-access token, `btoa` and the random draw behind the OTP. `Math.random` draws in `generatePassword` are parameters too: character draws are indexes, and the sort-shuffle is a sequence of insertion positions.
- Wall-clock and time-zone behaviour is modelled through parameters:
  - `new Date()` is a `now` parameter.
  - `toISOString().split('T')[0]` is an `iso` function parameter.
  - Local and UTC hours are not told apart.
- Locale formatting (`toLocaleDateString`) is a parameter of `Replies.Render`.
- Ratings are held in tenths (`ratingTenths`, an integer), so a rating with more than one decimal place is not modelled. Fees and revenue are integers. Fractional rupee amounts and `toFixed` are not modelled.
- Supabase query semantics are modelled as filters over in-memory rows:
  - `ilike '%text%'` is case-insensitive containment over ASCII (the doctor search's specialization filter and the patient-name search of `getAppointments`); a `%` or `_` inside the text, which the database reads as a wildcard, is matched literally;
  - `maybeSingle` and `single` are "first matching row";
  - a database error is modelled only where the source reads the query's `error` (a boolean or optional message passed in, as for inserts, updates and the HMS calls that throw); queries whose `error` the source discards are modelled as always succeeding (see the next line).
- Only the ASCII part of case mapping and trimming is modelled.
- Property lookups that reach JavaScript's prototype chain are not modelled. An example is `variantMap['constructor']` in the badge.
- `updateUserLanguage` (user-service.ts) and `updateHospitalStatus` (super-admin.ts) are one-line updates. They are not modelled beyond the request the hospital list's toggle builds.
- The parts of `hms.ts` that only select and map rows are not modelled: `getHmsDashboard`, `getDoctors`, `getDoctorById`, `getPatients`, `getPatientProfile` and `getTodayQueue`.
- The one-row status updates of `hms.ts` are not modelled: `updateAppointmentStatus` (any given status), `markPatientArrived` ("in_consultation") and `completeAppointment` ("completed"). Each sets one appointment's status by id and throws on a database error.
- `getRecentHospitals`, `getPromotedHospitals`, `getAllHospitalsForPromotion`, `getHospitalById`, `getHospitalStats` and the dashboard counts other than revenue in `super-admin.ts` are selects and counts; they are not modelled.
- `updateHospitalTier` (super-admin.ts) is a one-line update of a hospital's tier; it is not modelled.
- `createHospitalAdmin` (an edge function behind an HTTP call) is not modelled. The single-page onboarding form takes its outcome as a parameter; the wizard never calls it (see Findings).
- zod's `.email()` check is an `isEmail` parameter of the form validators.
- Toast auto-dismiss timers (`setTimeout`) and the `onOpenChange` callback are not modelled.
- React rendering, data-fetching hooks, authentication context, and login and redirect pages are not modelled. Only the decisions named in the table are.
- OnboardWizard.GeneratePassword: the shuffle's outcome is a parameter (insertion positions), so the distribution of `sort(() => Math.random() - 0.5)` is not captured; only that its result is a permutation.
- SearchService.FilterDoctors: the `hospitals.city` and `hospitals.name` filters of the doctor search (search-service.ts lines 30-38) are not applied. They filter the aliased, non-inner hospital embed, and whether that drops doctors, empties the embed or fails the request is database behaviour outside this model.
- UserService.UserStore.CreateUser: a second row for the same phone is refused as by a unique constraint on `users.phone`; the constraint itself lives in the database schema, which is not part of this model.
- Common.LexLess: compares code points, while `Array.prototype.sort` compares UTF-16 code units; the two differ only for text with characters beyond U+FFFF.
- Common.JsNumber: only integers (with optional sign and surrounding white space) are numbers; decimal fractions, exponents, hexadecimal and `Infinity` are read as `NaN`.
- SendReminders.ReminderJob.Sweep: the result of the flag update is not checked by the job, and the model sets the flag whenever the send succeeded; a failed update, which would let the next run remind again, is not modelled.
- Layout.Initials: `|r| <= 2` holds because only ASCII letters are upper-cased; JavaScript's `toUpperCase` turns "ß" into "SS", so a name starting with "ß" has three-character initials in the browser.
- Failed queries whose `error` the source never reads are not modelled: the model answers them from the rows as if they succeeded. In the source such a failure reads as "no rows" and the code goes on. These are `findUserByPhone` (mediconnect/supabase/functions/_shared/user-service.ts lines 18-24; a registered user is then greeted as new and moved to `registration_name`), the lookup in `getOrCreateConversation` (conversation-manager.ts lines 17-27; a second conversation row is inserted), the appointment reads of booking-service.ts (lines 108, 131 and 152), the slot reads and the batch upsert of search-service.ts (lines 92, 119 and 181), the medical-records read of user-service.ts (line 105), the writes of `updateConversation` and `resetConversation` (conversation-manager.ts lines 64-67 and 75-81), and the two reminder queries of send-reminders/index.ts (lines 39-48 and 85-96; a failure there sends no reminders).
- SearchService.SlotInventory.GenerateSlots: requires a positive slot duration. In the source (mediconnect/supabase/functions/_shared/search-service.ts line 166) the loop `m += slotDuration` never ends for a duration of zero or less when the day's start is before its end; the model does not describe that case.
- SearchService.BuildSlots: requires a positive slot duration, for the same reason as `GenerateSlots` (search-service.ts line 166): with a duration of zero or less and a non-empty day the source loop does not end.
- Hms.DoctorTables.CreateDoctor: requires a positive slot duration. The slot loop of `createDoctor` (mediconnect/src/lib/hms.ts line 372) never ends for a duration of zero or less when the working hours are non-empty; the duration defaults to 30 (line 322), the AddDoctor page passes 30, and the `useHms` hook passes its caller's value through unchecked.
- RegenerateSlots.SlotRegeneration.Run: runs only over doctors the job gets past (`Finishes`); for a doctor with a slot duration of zero or less whose hours fit one slot and who has a working day to fill, the job never ends (see Findings). The latest-slot query is answered against the table as it was before the run, which is the same as the code's per-doctor query because each doctor's rows are touched only by that doctor's iteration (doctor ids are the table's key).
- SendReminders.ReminderJob.Run: models the code as written, whose 1-hour window ends at `(now + 60 min) mod 24 h`; `RunCorrected` is the job with the window ending one hour after now.
- Toasts.ToastStore.GenerateId: the counter wraps at `MAX_SAFE_INTEGER` as in the source, but ids are compared as decimal text of the counter only.

## Findings

| source | as written | input that shows it | evidently intended | confidence | as-written member | corrected member |
|---|---|---|---|---|---|---|
| mediconnect/src/pages/hms/AddDoctor.tsx:66-76 | `createDoctor` is called with one object, but it takes `(hospitalId, data)`, so `data` is undefined and reading its fields throws | any valid form, e.g. the defaults with a name and specialization | call `createDoctor(hospitalId, data)` | high, not executed | AddDoctor.AsWrittenAlwaysFails | AddDoctor.CorrectedCallSpec |
| mediconnect/src/pages/hms/AddDoctor.tsx:69-75 | the object's keys (`qualifications`, `working_hours_start`, `working_hours_end`) are not the ones `createDoctor` reads (`qualification`, `slot_start_time`, `slot_end_time`) | start 10:00, end 14:00, qualification "MBBS" | the form's times and qualification are stored | high, not executed | AddDoctor.PayloadKeysLost | AddDoctor.SubmitData |
| mediconnect/src/pages/hms/AddDoctor.tsx:63-93 | every submit shows the error toast and stays on the page | any valid submit | the doctor is added and the page goes to /hms/doctors | high, not executed | AddDoctor.AddDoctorPage.OnSubmit | AddDoctor.AddDoctorPage.OnSubmitCorrected |
| mediconnect/supabase/functions/_shared/booking-service.ts:171-186 | the result for a non-empty queue has no `patients_ahead`, so the reply renders 0 patients ahead | a day with two confirmed appointments | the number of patients ahead is reported | medium, not executed | ProcessorProperties.QueueCheckShowsNoneAhead | BookingService.QueueStatusForSpec |
| mediconnect/supabase/functions/send-reminders/index.ts:81-96 | the window's upper bound is the time of day one hour on, which wraps past midnight, so from 23:00 on no 1-hour reminder is sent | now 23:10, an appointment today at 23:40 | the window covers the next hour | high, not executed | SendReminders.LateRunSkipsHourSweep | SendReminders.CorrectedRunSelectsNextHour |
| mediconnect/supabase/functions/regenerate-slots/index.ts:113-127 | `generateTimeSlots` loops forever when the slot duration is zero or less and the first slot fits, and the job calls it for any doctor with a working day to fill | `slot_duration` 0 with the default 09:00-17:00 hours | a non-positive duration yields no slots (or is rejected) | high, not executed | RegenerateSlots.LoopNeverEnds | RegenerateSlots.GenerateTimeSlotsGuarded |
| mediconnect/src/pages/super-admin/OnboardHospital.tsx:465-472 | the wizard collects an administrator at step 3 but its submit only calls `createHospital`, so no administrator account is created | any completed wizard | the administrator is created for the new hospital, as the single-page form does | high, not executed | OnboardWizard.AdminAccountNeverCreated | OnboardWizard.CorrectedCreatesAdmin |
| mediconnect/src/App.tsx:56-63 | the sections pass `requireRole`, which the guard does not read, so no role check runs | a signed-in hospital admin opening /super-admin/dashboard | the role is passed as `allowedRoles` | high, not executed | ProtectedRoute.SectionsUnchecked | ProtectedRoute.SectionsChecked |
