# HostelHub dashboard, modelled in Dafny

HostelHub is a single-page dashboard for running a hostel. Staff use it to
keep rooms, residents, bookings, payments, documents and notifications. Each
kind of record lives in an in-memory store, a service object over an array
that its methods read and rewrite. The pages and hooks filter, count and
summarise those stores for display. This project models:

- the six stores: rooms, residents, bookings, notifications, payments and
  documents;
- the rules the stores enforce, such as id numbering, not-found errors,
  upload validation, payment fees, refunds and statistics;
- the logic of the pages that decides what is listed, counted, validated or
  submitted: the dashboard statistics and overview, the notification
  generator, the payment form, the document upload panel, and the search,
  filter and count logic of the Residents, Rooms and Bookings pages.

Layout:

- Each store is a `class` whose records sit in a `seq` field. Its mutators
  are methods with `modifies`/`old` contracts. Its queries are `reads this`
  functions.
- Page logic that only computes is written as functions and lemmas.
- Loops in the source are methods with invariants, each proved equal to a
  specification function.

Conventions:

- Money is an integer number of cents.
- A calendar date is an integer day number. An instant such as `Date.now()`
  is an integer number of milliseconds, and `Clock.Midnight` links the two.
- Statuses and types are enumerations.
- Outcomes the source signals by throwing are `Result.Err` values carrying
  the thrown message. The exception is file validation: `ValidateFile` and
  a `Rejected` upload result carry a `FileError` value (unsupported type
  with the type, too large with the size, or forbidden extension) instead
  of the message text built at src/services/api/documentService.js:37, 41
  and 48.
- The clock, `Math.random()` and fresh ids are parameters of the operations
  that use them.

Helper modules:

- `Outcomes`: `Option` and `Result`.
- `Seqs`: filter, count, sum, tally and take over sequences, with their
  algebra.
- `Text`: lower-casing and whitespace over ASCII only, substring search
  and digit extraction.
- `Clock`: day numbers against instants.
- `Domain`: the records and the patch/merge functions that stand for
  object spreads.

## Model

| member | source | states |
|---|---|---|
| Bookings.BookingService.constructor | src/services/api/bookingService.js:5 | the store starts with the seed bookings |
| Bookings.BookingService.IndexOf | src/services/api/bookingService.js:15 | -1 exactly when no booking has the id; otherwise the first position holding it |
| Bookings.BookingService.GetById | src/services/api/bookingService.js:13-20 | succeeds iff some booking has the id and returns that booking; otherwise fails with "Booking not found" |
| Bookings.BookingService.Create | src/services/api/bookingService.js:22-31 | appends one booking with id max+1, which is above every existing id, and the given fields; nothing else changes |
| Bookings.BookingService.Update | src/services/api/bookingService.js:33-41 | unknown id: error and store unchanged; otherwise only that position is replaced by the merged record, which is returned |
| Bookings.BookingService.Delete | src/services/api/bookingService.js:43-51 | unknown id: error and store unchanged; otherwise exactly that booking is removed and returned |
| Bookings.BookingService.GetUpcomingBookings | src/services/api/bookingService.js:53-60 | the confirmed bookings whose check-in midnight is not before `now`, in store order, each copy kept as often as it occurs |
| Bookings.BookingService.GetTodayCheckIns | src/services/api/bookingService.js:62-68 | the confirmed bookings checking in today, in store order, each copy kept as often as it occurs |
| Bookings.BookingService.GetTodayCheckOuts | src/services/api/bookingService.js:70-76 | the confirmed bookings checking out today, in store order, each copy kept as often as it occurs |
| Bookings.BookingService.GetNotificationAlerts | src/services/api/bookingService.js:78-92 | the confirmed bookings with a check-in or check-out today or tomorrow, each copy kept as often as it occurs |
| Bookings.BookingService.AlertsContainToday | src/services/api/bookingService.js:62-92 | today's check-ins and check-outs are all among the alerts |
| Rooms.RoomService.constructor | src/services/api/roomService.js:5 | the store starts with the seed rooms |
| Rooms.RoomService.IndexOf | src/services/api/roomService.js:15 | -1 exactly when no room has the id; otherwise the first position holding it |
| Rooms.RoomService.GetById | src/services/api/roomService.js:13-20 | succeeds iff some room has the id and returns it; otherwise "Room not found" |
| Rooms.RoomService.Create | src/services/api/roomService.js:22-32 | appends one room with id max+1 and the given fields; nothing else changes |
| Rooms.RoomService.Update | src/services/api/roomService.js:34-42 | unknown id: error and store unchanged; otherwise only that room is replaced by the merge |
| Rooms.RoomService.Delete | src/services/api/roomService.js:44-52 | unknown id: error and store unchanged; otherwise exactly that room is removed |
| Rooms.RoomService.GetAvailableRooms | src/services/api/roomService.js:54-57 | the rooms whose status is available, in store order, each copy kept as often as it occurs |
| Rooms.RoomService.UpdateRoomStatus | src/services/api/roomService.js:59-67 | unknown id: error; otherwise only that room's status changes |
| Rooms.RoomService.GetMaintenanceAlerts | src/services/api/roomService.js:69-74 | the rooms under maintenance or cleaning, in store order, each copy kept as often as it occurs |
| Rooms.RoomService.AvailableAndAlertsDisjoint | src/services/api/roomService.js:54-74 | no room is both available and a maintenance alert |
| Residents.CheckedOutStaysCurrentOnlyAtMidnight | src/services/api/residentService.js:52-59 | a resident checked out today still counts as current only when `now` is exactly midnight |
| Residents.ResidentService.constructor | src/services/api/residentService.js:5 | the store starts with the seed residents |
| Residents.ResidentService.IndexOf | src/services/api/residentService.js:15 | -1 exactly when no resident has the id; otherwise the first position holding it |
| Residents.ResidentService.GetById | src/services/api/residentService.js:13-20 | succeeds iff some resident has the id and returns it; otherwise "Resident not found" |
| Residents.ResidentService.Create | src/services/api/residentService.js:22-30 | appends one resident with id max+1 and the given fields |
| Residents.ResidentService.Update | src/services/api/residentService.js:32-40 | unknown id: error and store unchanged; otherwise only that resident is merged |
| Residents.ResidentService.Delete | src/services/api/residentService.js:42-50 | unknown id: error and store unchanged; otherwise exactly that resident is removed |
| Residents.ResidentService.GetCurrentResidents | src/services/api/residentService.js:52-59 | the residents whose check-out midnight is not before `now`, in store order, each copy kept as often as it occurs |
| Residents.ResidentService.GetResidentsByRoom | src/services/api/residentService.js:61-64 | the residents of that room, in store order, each copy kept as often as it occurs |
| Residents.ResidentService.CheckOut | src/services/api/residentService.js:66-74 | unknown id: error; otherwise only that resident's check-out date becomes today |
| Notifications.NotificationService.constructor | src/services/api/notificationService.js:5-6 | the counter starts one above the largest seed id, so the store is well numbered |
| Notifications.NotificationService.IndexOf | src/services/api/notificationService.js:16 | -1 exactly when no notification has the id; otherwise the first position holding it |
| Notifications.NotificationService.GetById | src/services/api/notificationService.js:14-21 | succeeds iff some notification has the id; otherwise "Notification not found" |
| Notifications.NotificationService.Create | src/services/api/notificationService.js:23-33 | appends one unread notification numbered by the counter, bumps the counter, and keeps ids unique and below it |
| Notifications.NotificationService.Update | src/services/api/notificationService.js:35-43 | unknown id: error; otherwise only that notification is merged |
| Notifications.NotificationService.Delete | src/services/api/notificationService.js:45-53 | unknown id: error; otherwise exactly that notification is removed |
| Notifications.RemoveKeepsIds | src/services/api/notificationService.js:45-53 | splicing one notification out keeps every remaining Id below the counter and all Ids distinct |
| Notifications.NotificationService.MarkAsRead | src/services/api/notificationService.js:55-63 | unknown id: error; otherwise only that notification becomes read |
| Notifications.NotificationService.MarkAllAsRead | src/services/api/notificationService.js:65-69 | every notification becomes read and nothing else about them changes |
| Notifications.NotificationService.GetUnreadCount | src/services/api/notificationService.js:71-74 | the number of unread notifications: the sum of 1 per unread and 0 per read notification; at most the total, and zero iff all are read |
| Notifications.NotificationService.GetByType | src/services/api/notificationService.js:76-79 | the notifications of that type, in store order, each copy kept as often as it occurs |
| Payments.Abs | src/services/api/paymentService.js:69 | the magnitude of its argument |
| Payments.Fee | src/services/api/paymentService.js:22-23 | 2.9 % of the amount rounded to the nearest cent, half up |
| Payments.FeeOfHundredDollars | src/services/api/paymentService.js:22-23 | a $100.00 payment costs $2.90 and nets $97.10 |
| Payments.FeeBounds | src/services/api/paymentService.js:22-23 | for non-negative amounts the fee is between zero and the amount |
| Payments.Insert | src/services/api/paymentService.js:36-38 | inserting into a newest-first list keeps it newest first and adds exactly that payment |
| Payments.PrependNewest | src/services/api/paymentService.js:36-38 | a payment no older than the head of a newest-first list may go in front |
| Payments.NoNewerInside | src/services/api/paymentService.js:36-38 | a payment no older than every element stays no older than the head after a reorder |
| Payments.SortNewestFirst | src/services/api/paymentService.js:36-38 | the result is newest first and a permutation of the input |
| Payments.InsertKeepsTies | src/services/api/paymentService.js:36-38 | an inserted record goes ahead of every record with its timestamp, and their order is kept |
| Payments.SortIsStable | src/services/api/paymentService.js:36-38 | the sort is stable: the records of each timestamp keep their input order |
| Payments.StatsOf | src/services/api/paymentService.js:85-110 | paid total = sum of the positive amounts, refunded total = sum of the negated negative amounts, charge count = number of positive amounts, refund count = number of negative amounts; net = paid - refunded = sum of amounts; last date is the first record's |
| Payments.StatsParts | src/services/api/paymentService.js:91-100 | each filtered total or count equals the sum over all payments of that payment's part (its positive amount, its refunded amount, or a 0/1 mark) |
| Payments.StatsSums | src/services/api/paymentService.js:91-97 | the two sums are non-negative and their difference is the sum of all amounts |
| Payments.StatsCounts | src/services/api/paymentService.js:99-100 | charges plus refunds never exceed the list, and any non-zero amount is counted |
| Payments.NetAfterAppend | src/services/api/paymentService.js:85-110 | recording one more payment moves the net by exactly its amount |
| Payments.LastPaymentDateIsEarliest | src/services/api/paymentService.js:108 | on a list in recording order the reported "last" payment date is the earliest one |
| Payments.PaymentService.constructor | src/services/api/paymentService.js:4-5 | empty history, counter at 1 |
| Payments.PaymentService.IndexOf | src/services/api/paymentService.js:43 | -1 exactly when no payment has the id; otherwise the first position holding it |
| Payments.PaymentService.ProcessPayment | src/services/api/paymentService.js:8-28 | a random failure changes nothing and reports "Payment processing failed"; otherwise one completed payment with the counter's id, the fee and the net is appended and the counter bumped |
| Payments.PaymentService.GetPaymentById | src/services/api/paymentService.js:41-48 | succeeds iff some payment has the id; otherwise "Payment not found" |
| Payments.PaymentService.GetPaymentHistory | src/services/api/paymentService.js:30-39 | succeeds exactly for an integer resident id, otherwise fails with the invalid-resident error; on success exactly that resident's payments, each copy kept, newest first, with equal timestamps in stored order |
| Payments.PaymentService.GetAllPayments | src/services/api/paymentService.js:50-53 | all payments, each copy kept, newest first, with equal timestamps in stored order |
| Payments.PaymentService.RefundPayment | src/services/api/paymentService.js:55-83 | unknown id or a payment that is not completed is an error; otherwise a negative refund record for the resident is appended |
| Payments.PaymentService.GetPaymentStats | src/services/api/paymentService.js:85-110 | for a resident id other than 0, the statistics of exactly that resident's payments in history order; over the whole history when no resident (or resident 0) is given; net = paid - refunded; the date is a recorded one |
| Documents.ValidateFile | src/services/api/documentService.js:24-52 | no error iff the type is allowed, the size is at most 10 MB and the name has no dangerous extension, checked in that order |
| Documents.SizeLimitIsInclusive | src/services/api/documentService.js:40-42 | exactly 10 MB passes; one byte more is rejected as too large |
| Documents.DangerousExtensionIgnoresCase | src/services/api/documentService.js:44-49 | the dangerous-extension test gives the same answer for a name and its lower-case form |
| Documents.UploadedDocs | src/services/api/documentService.js:115-133 | a document is in the result iff some successful result carries it; at most one per result |
| Documents.UploadedDocsSnoc | src/services/api/documentService.js:115-133 | one more result adds its document exactly when it is a success |
| Documents.MergeDocument | src/services/api/documentService.js:135-146 | the patch overrides the fields it gives, except Id, upload date and path, which are kept |
| Documents.EmptyQueryMatchesAll | src/services/api/documentService.js:178-186 | an empty search finds every document |
| Documents.StatsStep | src/services/api/documentService.js:198-204 | one step of the loop adds one to the document's category and resident counts and its size to the total |
| Documents.TallyFacts | src/services/api/documentService.js:188-210 | each category and resident count is the number of such documents, and the counts add up to the total |
| Documents.DocumentService.constructor | src/services/api/documentService.js:5 | the store starts with the seed documents |
| Documents.DocumentService.IndexOf | src/services/api/documentService.js:62 | -1 exactly when no document has the id; otherwise the first position holding it |
| Documents.DocumentService.GetById | src/services/api/documentService.js:60-67 | succeeds iff some document has the id; otherwise "Document not found" |
| Documents.DocumentService.GetByResident | src/services/api/documentService.js:69-72 | exactly the resident's documents, in store order, each copy kept as often as it occurs |
| Documents.DocumentService.Create | src/services/api/documentService.js:74-84 | appends one document with id max+1, upload date now and size defaulting to 0 |
| Documents.DocumentService.UploadFile | src/services/api/documentService.js:86-113 | a file failing validation is rejected with its name and error and the store is unchanged; otherwise one document is appended carrying the file's name as both names, its type, size and path, the resident, the category ("other" when none is given) and the upload instant |
| Documents.DocumentService.UploadMultipleFiles | src/services/api/documentService.js:115-133 | one result per file, each the answer UploadFile gives for it (names, type, size, path, resident, category defaulting to "other", upload instant), and the store grows by exactly the uploaded documents in input order |
| Documents.DocumentService.Update | src/services/api/documentService.js:135-146 | unknown id: error; otherwise only that document is merged |
| Documents.DocumentService.Delete | src/services/api/documentService.js:148-156 | unknown id: error; otherwise exactly that document is removed |
| Documents.DocumentService.DownloadDocument | src/services/api/documentService.js:158-171 | an error iff the id is unknown; otherwise the stored document's name, type and path |
| Documents.DocumentService.GetDocumentsByCategory | src/services/api/documentService.js:173-176 | exactly the documents of that category, in store order, each copy kept as often as it occurs |
| Documents.DocumentService.SearchDocuments | src/services/api/documentService.js:178-186 | exactly the documents whose name, original name or category contains the query, ignoring case; all of them for an empty query, each copy kept as often as it occurs |
| Documents.DocumentService.GetDocumentStats | src/services/api/documentService.js:188-210 | total, per-category and per-resident counts that sum to the total, and the total size |
| NotificationGenerator.CheckInCandidatesMeaning | src/hooks/useNotifications.js:25-44 | a check-in draft is made for exactly the alert bookings checking in today that have no check-in notification yet |
| NotificationGenerator.MaintenanceCandidatesMeaning | src/hooks/useNotifications.js:47-60 | a maintenance draft is made for exactly the alert rooms that have no maintenance notification yet |
| NotificationGenerator.Materialize | src/hooks/useNotifications.js:62-65 | the i-th created notification is the i-th draft, numbered from the counter, unread, stamped now |
| NotificationGenerator.CheckInStep | src/hooks/useNotifications.js:25-44 | one more alert adds its draft exactly when it needs one |
| NotificationGenerator.MaintenanceStep | src/hooks/useNotifications.js:47-60 | one more room adds its draft exactly when it needs one |
| NotificationGenerator.MaterializeStep | src/hooks/useNotifications.js:62-65 | one more draft adds one notification with the next id |
| NotificationGenerator.CollectCheckIns | src/hooks/useNotifications.js:25-44 | the loop collects exactly the check-in candidates |
| NotificationGenerator.CollectMaintenance | src/hooks/useNotifications.js:47-60 | the loop collects exactly the maintenance candidates |
| NotificationGenerator.CollectCandidates | src/hooks/useNotifications.js:25-60 | check-in drafts followed by maintenance drafts |
| NotificationGenerator.CreateAll | src/hooks/useNotifications.js:62-65 | creates the drafts in order, stopping at the first failing create; the store and counter advance by exactly the created ones |
| NotificationGenerator.GenerateSystemNotifications | src/hooks/useNotifications.js:12-72 | returns the store's list after appending the candidates' notifications (or a prefix of them on a failure) and keeps ids well numbered |
| NotificationGenerator.GenerationIdempotent | src/hooks/useNotifications.js:12-72 | after one full generation a second one finds no candidates |
| NotificationGenerator.CheckInsCovered | src/hooks/useNotifications.js:25-44 | after generation every alert booking checking in today has a check-in notification |
| NotificationGenerator.MaintenanceCovered | src/hooks/useNotifications.js:47-60 | after generation every alert room has a maintenance notification |
| NotificationGenerator.TomorrowIsNotACandidate | src/hooks/useNotifications.js:25-44 | bookings checking in tomorrow never get a check-in draft |
| NotificationGenerator.NotificationsHook.constructor | src/hooks/useNotifications.js:8 | the hook starts with no notifications |
| NotificationGenerator.NotificationsHook.Load | src/hooks/useNotifications.js:74-85 | the store gains exactly the generated notifications for the candidates not yet present, numbered from the next id, and the hook's list becomes the store's list |
| NotificationGenerator.NotificationsHook.MarkAsRead | src/hooks/useNotifications.js:87-97 | unknown id: store and local list unchanged; otherwise the store replaces that notification by its read copy and nothing else, and the local copy marks it read and nothing else; the next id is unchanged |
| NotificationGenerator.MarkReadLocal | src/hooks/useNotifications.js:90-92 | same length; the matching notifications are read, the others unchanged |
| DashboardStats.OccupancyRate | src/hooks/useDashboardStats.js:25 | 0 without capacity; otherwise the percentage rounded half up |
| DashboardStats.OccupancyRateBounds | src/hooks/useDashboardStats.js:23-25 | with occupancy within capacity the rate is between 0 and 100 |
| DashboardStats.OccupancyRateExample | src/hooks/useDashboardStats.js:25 | 4 of 6 beds is 67 % |
| DashboardStats.ComputeStats | src/hooks/useDashboardStats.js:22-46 | totals are the list lengths; available rooms, owing residents and today's confirmed check-ins and check-outs each add one per qualifying record; revenue adds the amount of every paid booking whatever its dates; the rate is over total occupancy and capacity |
| DashboardStats.StatsParts | src/hooks/useDashboardStats.js:22-41 | each filtered count or total equals the sum of its per-record marks |
| DashboardStats.StatsBounds | src/hooks/useDashboardStats.js:16-52 | every count is bounded by its list; the rate is within 0-100 when each room is within capacity |
| DashboardStats.NoCapacityNoRate | src/hooks/useDashboardStats.js:23-25 | rooms with no capacity give a zero rate |
| DashboardStats.RevenueIgnoresDates | src/hooks/useDashboardStats.js:35-37 | moving bookings' dates does not change the revenue |
| DashboardPage.DashboardRooms | src/components/pages/Dashboard.jsx:36 | the first eight rooms in order, or all of them when fewer |
| DashboardPage.FewRoomsAllShown | src/components/pages/Dashboard.jsx:36 | eight rooms or fewer are all shown |
| DashboardPage.LaterRoomsHidden | src/components/pages/Dashboard.jsx:36 | rooms after the eighth never change the cards |
| DashboardPage.Panel | src/components/pages/Dashboard.jsx:68-71 | min(3, due) residents, each loaded and due |
| DashboardPage.CheckInsPanel | src/components/pages/Dashboard.jsx:68-71 | at most three residents, each checking in today |
| DashboardPage.CheckOutsPanel | src/components/pages/Dashboard.jsx:97-100 | at most three residents, each checking out today |
| DashboardPage.CheckOutsPanelEmptyAfterMidnight | src/components/pages/Dashboard.jsx:15 | over the current residents that `useResidents` loads, the check-outs panel is empty at every instant except exactly midnight |
| DashboardPage.ShowsEmptyMessage | src/components/pages/Dashboard.jsx:82-87 | the message shows exactly when no resident is due |
| DashboardPage.EmptyMessageIffNoRows | src/components/pages/Dashboard.jsx:68-87 | message and rows never both appear, and one of them always does |
| DashboardPage.FewDueAllListed | src/components/pages/Dashboard.jsx:68-71 | with at most three due, all of them are listed in order |
| DashboardPage.LaterResidentsHidden | src/components/pages/Dashboard.jsx:68-71 | once three are due, later residents never reach the panel |
| PaymentForm.Group | src/components/organisms/PaymentForm.jsx:46-50 | digits in groups of four: a space at every fifth position and the digits in order elsewhere |
| PaymentForm.GroupCons | src/components/organisms/PaymentForm.jsx:46-50 | four digits, a space and a grouped tail are a grouped string |
| PaymentForm.GroupFilter | src/components/organisms/PaymentForm.jsx:46-50 | dropping the spaces of a grouped string gives back the digits |
| PaymentForm.TakeGroup | src/components/organisms/PaymentForm.jsx:243 | cutting the grouped string to 19 characters is grouping the first 16 digits |
| PaymentForm.FormatCardNumber | src/components/organisms/PaymentForm.jsx:46-50 | at most 19 characters of digits and group spaces, holding the first 16 digits typed; a space only at every fifth position and never at the end, so k kept digits give k + (k-1)/4 characters |
| PaymentForm.FormatCardNumberIdempotent | src/components/organisms/PaymentForm.jsx:46-50 | formatting a formatted number changes nothing |
| PaymentForm.CardNumberLengthCheck | src/components/organisms/PaymentForm.jsx:68 | the 16-digit check passes iff at least 16 digits were typed |
| PaymentForm.MaskShowsLastFourDigits | src/components/organisms/PaymentForm.jsx:135 | the masked details show the 13th-16th digits typed |
| PaymentForm.LastGroup | src/components/organisms/PaymentForm.jsx:135 | the last four characters of 16 grouped digits are the last four digits |
| PaymentForm.FormatExpiryDate | src/components/organisms/PaymentForm.jsx:52-58 | up to four digits with a slash exactly at position 2 once two digits are typed |
| PaymentForm.SlashIsNoDigit | src/components/organisms/PaymentForm.jsx:53 | the slash is not a digit |
| PaymentForm.ExpiryDigits | src/components/organisms/PaymentForm.jsx:52-58 | the digits of "MM/YY" are the digits typed |
| PaymentForm.FormatExpiryDateIdempotent | src/components/organisms/PaymentForm.jsx:52-58 | formatting a formatted date changes nothing |
| PaymentForm.ExpiryLengthCheck | src/components/organisms/PaymentForm.jsx:71 | the expiry check passes iff at least four digits were typed |
| PaymentForm.InitialForm | src/components/organisms/PaymentForm.jsx:17-28 | every field empty except the description |
| PaymentForm.InitialFormFields | src/components/organisms/PaymentForm.jsx:17-28 | every field is present, and only the description is filled |
| PaymentForm.BankTransferChecksOnlyItsFields | src/components/organisms/PaymentForm.jsx:82-92 | a bank transfer with amount and bank fields filled is valid whatever the card fields hold |
| PaymentForm.CardFieldsValid | src/components/organisms/PaymentForm.jsx:67-80 | a card form is valid iff amount, number, expiry, CVV and holder pass their checks |
| PaymentForm.CardFormValid | src/components/organisms/PaymentForm.jsx:60-80 | for inputs typed through the formatters, validity is iff 16 card digits, 4 expiry digits, a 3-character CVV, a holder and an amount |
| PaymentForm.Masked | src/components/organisms/PaymentForm.jsx:135-141 | the mask prefix followed by as many of the number's last characters as it has, up to four, which end the number |
| PaymentForm.CardDetails | src/components/organisms/PaymentForm.jsx:132-138 | exactly the keys cardNumber, cardHolderName and type; the number is "**** **** **** " then its last four characters; holder and method as given |
| PaymentForm.BankDetails | src/components/organisms/PaymentForm.jsx:139-144 | exactly the keys accountNumber, accountHolderName and routingNumber; the account is "**** **** " then its last four characters; holder and routing number as given |
| PaymentForm.WalletDetails | src/components/organisms/PaymentForm.jsx:145-149 | exactly the keys walletId and type, with the typed wallet id and "digital_wallet" |
| PaymentForm.PaymentDetails | src/components/organisms/PaymentForm.jsx:130-153 | by method: a card gets the card details, a transfer the bank details, a wallet the wallet details |
| PaymentForm.CheckAllMessages | src/components/organisms/PaymentForm.jsx:60-98 | checking a list of fields adds exactly those that break their rule, each with its message |
| PaymentForm.OnlyCheckedFieldsBreak | src/components/organisms/PaymentForm.jsx:60-98 | only the amount and the chosen method's fields can break a rule |
| PaymentForm.ValidationMessages | src/components/organisms/PaymentForm.jsx:60-101 | a field has an error iff it breaks its rule, and the error is its message |
| PaymentForm.CheckCardFields | src/components/organisms/PaymentForm.jsx:67-80 | the card checks add exactly the specified errors |
| PaymentForm.CheckAllUnfold4 | src/components/organisms/PaymentForm.jsx:67-80 | checking four fields is checking them one after another |
| PaymentForm.CheckBankFields | src/components/organisms/PaymentForm.jsx:82-92 | the bank checks add exactly the specified errors |
| PaymentForm.CheckWalletField | src/components/organisms/PaymentForm.jsx:94-98 | the wallet check adds exactly the specified error |
| PaymentForm.PaymentFormState.constructor | src/components/organisms/PaymentForm.jsx:15-28 | credit card selected, initial form, no errors, not processing |
| PaymentForm.PaymentFormState.SelectMethod | src/components/organisms/PaymentForm.jsx:31-36 | only the method changes |
| PaymentForm.PaymentFormState.HandleInputChange | src/components/organisms/PaymentForm.jsx:38-44 | the field takes the value and its shown error is cleared; other errors stay |
| PaymentForm.PaymentFormState.ValidateForm | src/components/organisms/PaymentForm.jsx:60-102 | the errors become exactly the violated fields with their messages; valid iff none is violated |
| PaymentForm.PaymentFormState.HandleSubmit | src/components/organisms/PaymentForm.jsx:100-128 | a request is produced iff the form is valid, with the resident, amount, method and details; the errors left behind are exactly the validation messages of the submitted form |
| DocumentUpload.Staged | src/components/organisms/DocumentUpload.jsx:86-107 | one pending entry with progress 0 per file of at most 10 MB, in order, each with its fresh id |
| DocumentUpload.SplitResults | src/components/organisms/DocumentUpload.jsx:140-141 | errors and successes partition the results, and the successes are the uploads |
| DocumentUpload.SuccessesAreUploads | src/components/organisms/DocumentUpload.jsx:141 | as many successes as uploaded documents |
| DocumentUpload.UploadAndSplit | src/components/organisms/DocumentUpload.jsx:128-141 | one result per staged file, in order, each the answer uploadFile gives for it; errors and successes are the results with and without an error, in order; the store grows by exactly the uploaded documents |
| DocumentUpload.SplitMatchesValidation | src/components/organisms/DocumentUpload.jsx:128-141 | the successes are as many as the files passing validation, the errors as many as the files failing it |
| DocumentUpload.SuccessesFollowFiles | src/components/organisms/DocumentUpload.jsx:140-141 | results that succeed exactly where their files pass split in the same numbers as the files |
| DocumentUpload.ResidentName | src/components/organisms/DocumentUpload.jsx:226-227 | the first matching resident's name, or "Unknown" when none matches |
| DocumentUpload.FilteredDocuments | src/components/organisms/DocumentUpload.jsx:225-235 | exactly the documents matching the search, in order, each copy kept as often as it occurs |
| DocumentUpload.MissingResidentFoundAsUnknown | src/components/organisms/DocumentUpload.jsx:225-235 | a document whose resident is missing is found by searching "unknown" in any case |
| DocumentUpload.UploadPanel.constructor | src/components/organisms/DocumentUpload.jsx:13-22 | nothing staged, not uploading, identification category |
| DocumentUpload.UploadPanel.AddFiles | src/components/organisms/DocumentUpload.jsx:86-107 | appends the staged entries of the files within the limit; the flags, resident, category and document list are kept |
| DocumentUpload.UploadPanel.RemoveFile | src/components/organisms/DocumentUpload.jsx:109-111 | keeps exactly the entries with another id, in order, each as often as before; the flags, resident, category and document list are kept |
| DocumentUpload.UploadPanel.HandleUpload | src/components/organisms/DocumentUpload.jsx:113-167 | no resident (checked first) or no files: no upload and nothing changes, the document list included; otherwise the staged files' results, split as UploadAndSplit states, with the store grown by the uploaded documents, the staged list cleared and the document list reloaded only on a success, and the flags reset |
| DocumentUpload.UploadPanel.UploadStaged | src/components/organisms/DocumentUpload.jsx:123-166 | the staged files are uploaded and split as UploadAndSplit states; cleared and reloaded only on a success; uploading false and progress 0 at the end; resident and category kept |
| ResidentsPage.EmptySearchMatches | src/components/pages/Residents.jsx:78-85 | an empty search matches every resident |
| ResidentsPage.FoundByName | src/components/pages/Residents.jsx:78-85 | a resident is found by their own name |
| ResidentsPage.FilteredResidents | src/components/pages/Residents.jsx:78-85 | exactly the residents matching the search and the status filter, in order, each copy kept as often as it occurs |
| ResidentsPage.EmptySearchListsAll | src/components/pages/Residents.jsx:78-85 | no search and "all" lists everyone |
| ResidentsPage.StatusNarrowsAll | src/components/pages/Residents.jsx:78-85 | a status filter narrows the "all" list |
| ResidentsPage.EveryStatusListed | src/components/pages/Residents.jsx:87-92 | every resident has one of the counted statuses |
| ResidentsPage.CountStatuses | src/components/pages/Residents.jsx:87-92 | the total is the list length; each status count is the length of the list its filter button shows; the per-status counts add up to the total |
| ResidentsPage.ButtonCounts | src/components/pages/Residents.jsx:87-92 | for every status, the records counted with it are exactly those the search-free filter for it lists |
| ResidentsPage.StatusesCoverAll | src/components/pages/Residents.jsx:87-92 | every record has exactly one of the listed statuses, so the per-status counts add up to the length of the list |
| ResidentsPage.CountIsListLength | src/components/pages/Residents.jsx:78-92 | each count is the length of the list shown for that status |
| ResidentsPage.UseResidents | src/hooks/useResidents.js:26-31 | the hook gives the current residents and no payment function |
| ResidentsPage.ResidentsPage.constructor | src/components/pages/Residents.jsx:13-18 | loaded residents, modal closed |
| ResidentsPage.ResidentsPage.HandlePayFees | src/components/pages/Residents.jsx:39-42 | selects the resident and opens the modal |
| ResidentsPage.ResidentsPage.HandlePaymentCancel | src/components/pages/Residents.jsx:56-59 | closes the modal and clears the selection |
| ResidentsPage.ResidentsPage.HandlePaymentSuccessAsWritten | src/components/pages/Residents.jsx:44-54 | always reports "processPayment is not a function" and leaves the page unchanged |
| ResidentsPage.ResidentsPage.HandlePaymentSuccess | src/components/pages/Residents.jsx:44-54 | a failed payment reports the service error and keeps the modal; a recorded one appends that payment, closes the modal and reloads |
| ResidentsPage.PayFeesAsWritten | src/components/pages/Residents.jsx:13 | paying fees as written always leaves the modal open with the error |
| RoomsPage.EmptySearchMatches | src/components/pages/Rooms.jsx:40-45 | an empty search matches every room |
| RoomsPage.FoundByNumber | src/components/pages/Rooms.jsx:40-45 | a room is found by its number, in any case |
| RoomsPage.FilteredRooms | src/components/pages/Rooms.jsx:40-45 | exactly the rooms matching the search and the status filter, in order, each copy kept as often as it occurs |
| RoomsPage.EmptySearchListsAll | src/components/pages/Rooms.jsx:40-45 | no search and "all" lists every room |
| RoomsPage.StatusNarrowsAll | src/components/pages/Rooms.jsx:40-45 | a status filter narrows the "all" list |
| RoomsPage.EveryStatusListed | src/components/pages/Rooms.jsx:47-53 | every room has one of the counted statuses |
| RoomsPage.CountStatuses | src/components/pages/Rooms.jsx:47-53 | the total is the list length; each status count is the length of the list its filter button shows; the per-status counts add up to the total |
| RoomsPage.ButtonCounts | src/components/pages/Rooms.jsx:47-53 | for every status, the records counted with it are exactly those the search-free filter for it lists |
| RoomsPage.StatusesCoverAll | src/components/pages/Rooms.jsx:47-53 | every record has exactly one of the listed statuses, so the per-status counts add up to the length of the list |
| RoomsPage.CountIsListLength | src/components/pages/Rooms.jsx:40-53 | each count is the length of the list shown for that status |
| BookingsPage.EmptySearchMatches | src/components/pages/Bookings.jsx:44-49 | an empty search matches every booking |
| BookingsPage.FoundById | src/components/pages/Bookings.jsx:44-49 | a booking is found by its id written in decimal |
| BookingsPage.FilteredBookings | src/components/pages/Bookings.jsx:44-49 | exactly the bookings matching the search and the status filter, in order, each copy kept as often as it occurs |
| BookingsPage.EmptySearchListsAll | src/components/pages/Bookings.jsx:44-49 | no search and "all" lists every booking |
| BookingsPage.StatusNarrowsAll | src/components/pages/Bookings.jsx:44-49 | a status filter narrows the "all" list |
| BookingsPage.EveryStatusListed | src/components/pages/Bookings.jsx:51-56 | every booking has one of the counted statuses |
| BookingsPage.CountStatuses | src/components/pages/Bookings.jsx:51-56 | the total is the list length; each status count is the length of the list its filter button shows; the per-status counts add up to the total |
| BookingsPage.ButtonCounts | src/components/pages/Bookings.jsx:51-56 | for every status, the records counted with it are exactly those the search-free filter for it lists |
| BookingsPage.StatusesCoverAll | src/components/pages/Bookings.jsx:51-56 | every record has exactly one of the listed statuses, so the per-status counts add up to the length of the list |
| BookingsPage.CountIsListLength | src/components/pages/Bookings.jsx:44-56 | each count is the length of the list shown for that status |
| BookingsPage.Actions | src/components/pages/Bookings.jsx:198-230 | View always; Confirm iff pending; Cancel iff not cancelled |
| BookingsPage.ActionsByStatus | src/components/pages/Bookings.jsx:198-230 | the action set for each status, and Confirm only comes with Cancel |

## Left out

- Delays, `async`/`await` and loading/error flags are not modelled. Every
  store call is treated as completing at once.
- `Promise.all` in `uploadMultipleFiles` is modelled as processing the files
  one after another, in input order. In the source only the result order is
  fixed: each upload waits for its own progress simulation and then for the
  delay inside `create`, which takes max+1 only after that delay
  (src/services/api/documentService.js:75-82, 91-92, 117-125). So the Ids
  and the store order of the new documents follow the order in which the
  uploads finish. Documents.DocumentService.UploadMultipleFiles fixes both
  to input order.
- Toasts, icons and rendering are not modelled: the JSX markup, badges and
  styling. The Settings page and the atoms, molecules and layout components
  are left out too, because they hold no logic.
- `Date.now()`, `new Date()`, `Math.random()` and `Date.now() + Math.random()`
  are not called. The model takes them as parameters: `now`, `today`,
  `randomFails`, `txn` and the ids passed to `AddFiles`.
- The failure of a notification `create` inside the generator is a parameter
  `faultAt`, because nothing in the store can make it fail.
- The conversion between `YYYY-MM-DD` strings and time zones is not
  modelled. Dates are day numbers and "tomorrow" is `today + 1`.
- `parseFloat` and `parseInt` of form and search inputs are not modelled.
  Amounts arrive as integer cents (`amountCents`), so a NaN amount cannot
  arise, and `Number.isInteger` becomes the `ResidentRef` datatype.
- Floating-point rounding is not modelled. Fee and statistics rounding are
  exact on cents; `Payments.Fee` rounds halves up, towards positive
  infinity, as `Math.round` does for every sign.
- The `getAll` methods of the stores are left out. They only copy the
  array, and `existingDocuments` stands for the copy on the upload panel.
- `generateSystemNotifications` in the notification service
  (src/services/api/notificationService.js:81-86) is left out. It only
  returns a copy of the list; the generation that matters is in
  `useNotifications`.
- `simulateFileUpload` and the progress callback of `uploadMultipleFiles`
  are left out, because they only drive a progress bar. `HandleUpload`
  resets the progress at the end.
- The upload panel's delete and download handlers, the `catch` branch of
  `handleUpload`, `formatFileSize` and the icon choice are left out. They
  are UI-only or call store methods that are modelled directly.
- The `uploadedBy` and `isSecure` fields of a document are constants and
  are not modelled.
- The document modal of the Residents page and its profile and check-out
  toasts are left out, because they only show messages.
- The CVV input's `maxLength` and its digits-only filter (the
  `replace(/\D/g, '')` at src/components/organisms/PaymentForm.jsx:270) are
  not modelled. The CVV rule checks only the minimum length of whatever the
  field holds, as `validateForm` does.
- Room, resident, booking and payment statuses are enumerations, but
  `updateRoomStatus` and `update` accept any string
  (src/services/api/roomService.js:34-41, 59-66). A status outside the
  enumeration cannot be represented. This is why the per-status counts of
  the Residents, Rooms and Bookings pages add up exactly to the total,
  where in the source they add up to at most the total.
- The Dashboard page loads its residents through `useResidents`, which
  keeps only current residents. DashboardPage.CheckOutsPanelEmptyAfterMidnight
  shows that the check-outs panel is then empty except at exactly
  midnight. The panel functions themselves take whatever list the page
  loaded.
- The hooks `useRooms` and `useBookings` and the `DashboardStats` organism
  are not modelled beyond the store calls they wrap.
- Bookings.BookingService.GetNotificationAlerts: "tomorrow" is the next day
  number. The UTC/local mix of `setDate` and `toISOString` around midnight
  is not modelled.
- Text.Lower, Text.IsSpace and Text.IsBlank: case mapping and whitespace
  are ASCII only. JavaScript's `toLowerCase`, the `\s` class and `trim()`
  also cover non-ASCII letters and spaces (for example U+00A0 and U+2028),
  which the model treats as ordinary characters. This affects the
  case-insensitive searches of the Residents, Rooms and Bookings pages, of
  `searchDocuments` and of the upload panel's list, and the payment form's
  blank-field checks (the `trim()` at src/components/organisms/PaymentForm.jsx:77)
  and its removal of spaces from the card number.
- Payments.PaymentService.GetPaymentStats: a resident id of 0 is treated as
  "no resident", as the source's truthiness test does.
- Where the written description of the system and the code disagree, the
  model follows the code:
  - the current-resident and upcoming-booking tests compare a date's
    midnight with the current instant;
  - `getPaymentStats` reports the first recorded payment's date as the last
    payment date.

## Findings

| source | as written | input that shows it | evidently intended | confidence | as-written member | corrected member |
|---|---|---|---|---|---|---|
| src/components/pages/Residents.jsx:13 | the page takes `processPayment` from `useResidents`, but the hook returns only residents, loading, error and refetch (src/hooks/useResidents.js:26-31), so `handlePaymentSuccess` calls `undefined` | any resident and any submitted payment: the modal stays open, the toast shows "processPayment is not a function", and no payment is recorded | the handler records the payment through the payment service, then closes the modal and reloads the residents | high, not executed | ResidentsPage.PayFeesAsWritten | ResidentsPage.ResidentsPage.HandlePaymentSuccess |
