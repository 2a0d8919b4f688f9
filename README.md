# Drivio rental rules in Dafny

Drivio is a vehicle-rental web application. Owners list vehicles and
administrators moderate them; renters check availability, pay through a
payment gateway, and so obtain bookings; bookings end as completed or
cancelled. Reviews and support inquiries come around them. This project
models the rules of the application's server controllers and of a few pure
client helpers, and proves what those rules promise.

The server side is a store, the class `Store.Db`, holding one collection per
schema: vehicles, bookings, payments, reviews and inquiries. The handlers that
write the store are methods over it. Every such method keeps the store's
invariant `Db.Valid()`:

- no two ACTIVE bookings of one vehicle overlap (both ends inclusive);
- every payment link and review points at a stored booking;
- at most one review exists per booking;
- every rating lies in 1..5.

The read-only handlers are functions. Each response is `Ok(status, value)` or
`Err(status, message)`, with the HTTP status and message the handler answers.
Each guard chain is stated case by case in the handler's contract, in the
order the handler runs its guards.

- **State.** Instants are integer milliseconds, and the current instant is a
  parameter.
- **Sweeps.** The two read-triggered sweeps are modelled twice. Each has a
  specification function over the collection (`CompleteExpired`,
  `ExpirePending`), with lemmas proving exactness, idempotence and that the
  invariant is kept. Each also has the method that performs the sweep and is
  proved equal to that function.
- **Client helpers.** Pagination, CSV content, role redirects, the route gate,
  the vehicle page's booking checks, the vehicle form's save request, and the
  dashboard bookings table are modelled in the form of their source. The
  hooks' React state becomes a class where the hook updates it step by step.
- **Oracles.** These are function parameters:
  - the keyed hash checking the gateway's signature;
  - the gateway's order creation and refund;
  - whether a user account exists;
  - the answer to the availability request;
  - JavaScript's `Number` conversion of a string.

## Model

| member | source | states |
|---|---|---|
| Models.LeaveActiveKeepsNoOverlap | server/controllers/bookingController.js:43-44 | moving any one booking out of ACTIVE keeps "no two ACTIVE bookings of a vehicle overlap" |
| Models.AddUnblockedKeepsNoOverlap | server/controllers/paymentController.js:146-179 | adding an ACTIVE booking that no stored ACTIVE booking overlaps keeps the no-overlap invariant |
| Models.ParseVehicleType | server/models/Vehicle.js:28-32 | the `vehicleType` enum check accepts exactly "car", "bike" and "suv", each as the type it names |
| Models.ParseCategory | server/models/Vehicle.js:34-38 | the `category` enum check accepts exactly "economy", "luxury" and "electric" |
| PaymentController.FirstBlocking | server/controllers/paymentController.js:36-47 | finds a booking iff some booking of the vehicle is ACTIVE with start <= end' and end >= start'; what it finds is such a booking |
| PaymentController.PreparePayment | server/controllers/paymentController.js:19-75 | guards in order: non-renter 403, start after end 400 (equal accepted), missing or unapproved vehicle 400, overlapping ACTIVE booking 400; success iff all pass; the quote has days = whole days between the midnights + 1 and total = days × price |
| PaymentController.QuoteCostsPerDay | server/controllers/paymentController.js:49-58 | a same-day range costs one day's price; days × one day equals the span between the midnights plus one day |
| PaymentController.QuoteIgnoresInactive | server/controllers/paymentController.js:36-41 | making any booking CANCELLED or COMPLETED never turns a successful quote into a refusal |
| PaymentController.CreateRazorpayOrder | server/controllers/paymentController.js:78-112 | non-renter 403 with nothing stored; the gateway is asked for amount × 100 in INR; on its failure 500 with nothing stored; otherwise exactly one CREATED payment of the caller for the order is appended, and no booking is made |
| PaymentController.NewPaymentDefaults | server/models/Payment.js:4-74 | a new payment is CREATED, in INR, unlinked, with no gateway payment id, signature or refund data |
| PaymentController.FirstWithOrder | server/controllers/paymentController.js:138-141 | `findOneAndUpdate`'s match: the first payment with the order id, or none iff no payment has it |
| PaymentController.UpdateByOrder | server/controllers/paymentController.js:164-171 | updates only the first payment of the order; every other payment and the length are unchanged |
| PaymentController.UpdateByOrderKeepsTarget | server/controllers/paymentController.js:164-184 | an update keeps the order's first payment where it was, so the later updates of `verifyPayment` hit the same record |
| PaymentController.CaptureThenLink | server/controllers/paymentController.js:164-184 | after the capture and link updates, the order's payment is SUCCESS, carries the gateway payment id and signature, and links the new booking |
| PaymentController.VerifyPayment | server/controllers/paymentController.js:115-202 | non-renter 403 with nothing changed; a signature other than the hash of `orderId\|paymentId` sets the order's payment FAILED (400, no booking); an overlapping ACTIVE booking does the same; otherwise SUCCESS, one new ACTIVE booking of the caller, and the payment linked to it; the invariant is kept |
| PaymentController.BookVerified | server/controllers/paymentController.js:164-184 | the success path: exactly one ACTIVE booking appended and the order's payment captured and then linked to it, keeping the invariant |
| PaymentController.VerifiedBookingIsUnblocked | server/controllers/paymentController.js:146-179 | the booking a verification creates is ACTIVE, the caller's, over the requested interval, and leaves no double booking |
| PaymentController.GetMyPayments | server/controllers/paymentController.js:205-240 | non-renter 403; otherwise exactly the caller's payments under the optional status, vehicle, inclusive creation window and order-id or payment-id search |
| PaymentController.GetAllPaymentsAdmin | server/controllers/paymentController.js:243-271 | non-admin 403; otherwise exactly the payments under the optional status, vehicle, renter and inclusive creation window |
| PaymentController.MyPaymentsWithinAdminView | server/controllers/paymentController.js:205-271 | every payment a renter lists is listed to an administrator filtering by that renter with the same status, vehicle and window |
| PaymentController.GetOwnerPayments | server/controllers/paymentController.js:274-302 | non-owner 403; otherwise exactly the SUCCESS payments with a booking whose vehicle the caller owns |
| BookingController.CreateBooking | server/controllers/bookingController.js:14-18 | always 410 "Direct booking is disabled", and no state to change |
| BookingController.CancelBooking | server/controllers/bookingController.js:21-60 | guards in order: non-renter 403, missing 404, not ACTIVE 400, not the caller's 403; success iff all pass, and then only that booking's status changes, to CANCELLED; no start-date rule |
| BookingController.CompleteBooking | server/controllers/bookingController.js:63-98 | non-admin 403, missing 404; otherwise COMPLETED from any status, with 500 after the save when the renter's account is gone |
| BookingController.MyBookings | server/controllers/bookingController.js:105-139 | non-renter 403; otherwise exactly the caller's bookings under the optional status, inclusive start window and case-insensitive make/model search |
| BookingController.GetMyBookings | server/controllers/bookingController.js:101-144 | the expiry sweep runs first, for any caller; the answer is the query over the swept bookings, so no listed booking is ACTIVE and past its end |
| BookingController.OwnerBookings | server/controllers/bookingController.js:151-177 | non-owner 403; otherwise exactly the bookings of the given owned vehicles that pass the search |
| BookingController.GetOwnerBookings | server/controllers/bookingController.js:147-182 | the sweep first, then the owner query |
| BookingQueries.StatusMatchesExact | server/controllers/bookingController.js:115-117 | a status filter naming a status keeps exactly the bookings in it; a non-empty name of no status keeps none |
| BookingQueries.LowerIdempotent | server/controllers/bookingController.js:130 | lowercasing twice is lowercasing once |
| BookingQueries.SearchIgnoresCase | server/controllers/bookingController.js:129-137 | the search result depends only on the lowercased keyword |
| AutoCompleteExpiredBookings.CompleteExpired | server/utils/autoCompleteExpiredBookings.js:13-20 | the swept collection has as many bookings as before; each expired booking (ACTIVE, end < now) becomes COMPLETED with nothing else changed, and every other booking is unchanged |
| AutoCompleteExpiredBookings.ExpiredIds | server/utils/autoCompleteExpiredBookings.js:13-16 | the selection is exactly the ACTIVE bookings with end < now (strict), in increasing id order |
| AutoCompleteExpiredBookings.Notifiable | server/utils/autoCompleteExpiredBookings.js:22-37 | emails are attempted exactly for the selected bookings whose renter and vehicle are both found |
| AutoCompleteExpiredBookings.CompleteExpiredLeavesNoExpired | server/utils/autoCompleteExpiredBookings.js:13-20 | after a sweep no booking is ACTIVE with end < now |
| AutoCompleteExpiredBookings.CompleteExpiredIdempotent | server/utils/autoCompleteExpiredBookings.js:13-20 | a second sweep with the same now changes nothing |
| AutoCompleteExpiredBookings.CompleteExpiredKeepsNoOverlap | server/utils/autoCompleteExpiredBookings.js:18-20 | the sweep keeps the no-overlap invariant |
| AutoCompleteExpiredBookings.CompletedAtAllIsSweep | server/utils/autoCompleteExpiredBookings.js:18-20 | completing every selected booking one by one yields the swept collection |
| AutoCompleteExpiredBookings.CompleteSelected | server/utils/autoCompleteExpiredBookings.js:18-38 | the loop sets each selected booking COMPLETED and collects the ids it notifies; notification never changes a status |
| AutoCompleteExpiredBookings.AutoCompleteExpired | server/utils/autoCompleteExpiredBookings.js:10-39 | the whole sweep: the bookings become `CompleteExpired` of the old ones, the invariant is kept, and the notified ids are those with renter and vehicle found |
| HistoryController.CompleteExpiredBookings | server/controllers/historyController.js:4-12 | the bulk update leaves the bookings equal to `CompleteExpired` of the old ones and keeps the invariant |
| HistoryController.RenterHistory | server/controllers/historyController.js:21-43 | exactly the caller's COMPLETED bookings in the inclusive start window that pass the search |
| HistoryController.OwnerHistory | server/controllers/historyController.js:60-95 | exactly the COMPLETED bookings of vehicles whose owner is the caller, start inclusive in the window, passing the search |
| HistoryController.AdminHistory | server/controllers/historyController.js:111-137 | exactly the COMPLETED bookings in the inclusive start window that pass the search |
| HistoryController.HistoriesArePartsOfAdmin | server/controllers/historyController.js:21-137 | every booking in a renter's or an owner's history is in the administrator's |
| HistoryController.AdminHistoryAfterSweep | server/controllers/historyController.js:4-12 | a booking that was ACTIVE past its end before the request is listed by the history, since the update runs first |
| HistoryController.GetRenterHistory | server/routes/historyRoutes.js:13-18 | the route's guard: non-renter 403 with nothing changed; otherwise the update, then the renter history of the updated bookings |
| HistoryController.GetOwnerHistory | server/routes/historyRoutes.js:21-26 | non-owner 403; otherwise the update, then the owner history |
| HistoryController.GetAdminHistory | server/routes/historyRoutes.js:29-34 | non-admin 403; otherwise the update, then the administrator history |
| ExpirePendingPayments.ExpirePending | server/utils/expirePendingPayments.js:3-15 | the updated collection has as many payments as before; a CREATED payment created before now − 600000 ms becomes FAILED with nothing else changed, and every other payment is untouched |
| ExpirePendingPayments.ExpirePendingLeavesNoStale | server/utils/expirePendingPayments.js:6-13 | no payment stays CREATED past the ten-minute window |
| ExpirePendingPayments.ExpirePendingIdempotent | server/utils/expirePendingPayments.js:6-13 | a repeat with the same now changes nothing |
| ExpirePendingPayments.ExpirePendingKeepsLinks | server/utils/expirePendingPayments.js:11-13 | a payment's booking link never changes |
| ExpirePendingPayments.ExpirePendingPayments | server/utils/expirePendingPayments.js:3-15 | the payments become `ExpirePending` of the old ones and the invariant is kept |
| AdminPaymentController.RefundErrorMessage | server/controllers/adminPaymentController.js:76-80 | the 500 message is the gateway's description when present and non-empty, and never empty |
| AdminPaymentController.RefundPaymentByAdmin | server/controllers/adminPaymentController.js:10-82 | guards in order: non-admin 403, missing 404, not REFUND_PENDING 400, no gateway payment id 400 without asking the gateway; the refund is asked for amount × 100; on success REFUNDED with refund id, time and admin; on gateway failure 500; every error leaves the payments unchanged |
| AdminPaymentController.RefundedIsFinal | server/controllers/adminPaymentController.js:53-56 | a refunded payment is REFUNDED, keeps its amount and gateway ids, and records the refund |
| ReviewController.NewReview | server/controllers/reviewController.js:57-68 | the stored review has the booking's vehicle, the caller as renter, the given booking and rating, the given comment trimmed (none when none is given), and is not hidden |
| ReviewController.AddReview | server/controllers/reviewController.js:5-77 | guards in order: non-renter 403, missing booking id or rating 400, booking missing 404, not the caller's 403, not COMPLETED 400, already reviewed 400, rating outside 1..5 500; success iff all pass, then exactly one review under a fresh id; errors change nothing |
| ReviewController.AddedReviewBlocksSecond | server/controllers/reviewController.js:49-55 | once a review is stored its booking counts as reviewed, so a second one is refused |
| ReviewController.GetVehicleReviews | server/controllers/reviewController.js:80-106 | a review is listed iff it is the vehicle's, not hidden, has rating >= minRating when one is given, and has a comment the search matches when one is given |
| ReviewController.GetAllReviewsForAdmin | server/controllers/reviewController.js:109-130 | non-admin 403; otherwise every review, hidden or not |
| ReviewController.SetHidden | server/controllers/reviewController.js:145-146 | only `isHidden` of that one review changes |
| ReviewController.SetHiddenIdempotent | server/controllers/reviewController.js:134-173 | hiding or unhiding twice equals doing it once; unhiding a review that was visible and then hidden restores the reviews |
| ReviewController.HideRemovesFromListing | server/controllers/reviewController.js:84-96 | a hidden review is never listed; an unhidden one is listed when it matches |
| ReviewController.SetReviewHidden | server/controllers/reviewController.js:134-173 | non-admin 403, missing 404; otherwise only that review's `isHidden` is set |
| ReviewController.DeleteReview | server/controllers/reviewController.js:176-192 | non-admin 403, missing 404; otherwise that review alone is removed |
| InquiryController.NewInquiry | server/controllers/inquiryController.js:24-28 | a new inquiry is the caller's, OPEN, with no reply, and the trimmed subject and message |
| InquiryController.CreateInquiry | server/controllers/inquiryController.js:8-37 | non-renter-or-owner 403; missing or empty subject or message 400; a blank one emptied by trimming 500; success iff all pass, then exactly one inquiry appended; errors store nothing |
| InquiryController.GetMyInquiries | server/controllers/inquiryController.js:41-51 | exactly the inquiries whose user is the caller |
| InquiryController.GetAllInquiriesAdmin | server/controllers/inquiryController.js:56-70 | non-admin 403; otherwise every inquiry |
| InquiryController.MyInquiriesPartition | server/controllers/inquiryController.js:41-70 | each user's list is part of the administrator's, and two users' lists are disjoint |
| InquiryController.ReplyToInquiry | server/controllers/inquiryController.js:75-114 | non-admin 403, missing or empty reply 400, missing inquiry 404; otherwise the trimmed reply and REPLIED from any status, CLOSED included; 500 after the save when the owner's account is gone |
| InquiryController.CloseInquiry | server/controllers/inquiryController.js:119-140 | non-admin 403, missing 404; otherwise CLOSED from any status |
| InquiryController.CloseIdempotentReplyAfterClose | server/controllers/inquiryController.js:96-131 | closing twice equals closing once; replying to a closed inquiry makes it REPLIED and keeps its owner, subject and message |
| VehicleController.GetApprovedVehicles | server/controllers/vehicleController.js:9-43 | exactly the approved vehicles matching the search and the exact type, location and category filters, with the price within the inclusive bounds |
| VehicleController.UnfilteredListingIsApproved | server/controllers/vehicleController.js:14-16 | with no filter the listing is exactly the approved vehicles |
| VehicleController.GetVehicleById | server/controllers/vehicleController.js:51-67 | found iff the vehicle exists and is approved; otherwise 404 |
| VehicleController.RequiredText | server/models/Vehicle.js:11-44 | a required trimmed string passes iff it is present and holds a non-white-space character, and is stored trimmed |
| VehicleController.BuildVehicle | server/controllers/vehicleController.js:81-85 | a vehicle is built iff the schema validation passes, always as PENDING and owned by the caller, with the schema defaults |
| VehicleController.AddVehicleOverridesBody | server/controllers/vehicleController.js:81-85 | whatever owner and status the body claims, the stored vehicle is the same |
| VehicleController.AddVehicle | server/controllers/vehicleController.js:75-91 | non-owner 403; a body failing validation 500; otherwise exactly one vehicle appended |
| VehicleController.GetMyVehicles | server/controllers/vehicleController.js:99-109 | exactly the caller's vehicles, whatever their status |
| VehicleController.GetAllVehiclesForAdmin | server/controllers/vehicleController.js:117-140 | non-admin 403; otherwise every vehicle, or those of the named status |
| VehicleController.PublicListingWithinAdminView | server/controllers/vehicleController.js:14-16 | every publicly listed vehicle is in the administrator's list of approved vehicles |
| VehicleController.SetVehicleStatus | server/controllers/vehicleController.js:154-160 | non-admin 403; a missing vehicle answers the empty body; otherwise only that vehicle's status is set |
| VehicleController.ApproveVehicle | server/controllers/vehicleController.js:148-164 | non-admin 403; otherwise the vehicle becomes approved from any status |
| VehicleController.RejectVehicle | server/controllers/vehicleController.js:172-188 | non-admin 403; otherwise the vehicle becomes rejected from any status |
| VehicleController.ModerationDecidesVisibility | server/controllers/vehicleController.js:53-56 | after moderation a vehicle can be fetched publicly iff it was approved |
| BookingViewController.GetAllBookingsAdmin | server/controllers/bookingViewController.js:5-47 | non-admin 403; otherwise exactly the bookings under the optional status, inclusive start window and search |
| BookingViewController.AdminViewUnfilteredIsAll | server/controllers/bookingViewController.js:14-18 | with no parameter set, every booking is listed |
| BookingViewController.GetOwnerBookings | server/controllers/bookingViewController.js:50-91 | non-owner 403; otherwise exactly the bookings of the caller's vehicles under the optional status and search |
| BookingViewController.OwnerViewWithinAdminView | server/controllers/bookingViewController.js:59-84 | the owner's view is part of the administrator's view under the same status and search |
| Pagination.SliceIndex | client/src/utils/pagination.js:7 | `slice` reads an index within 0..len |
| Pagination.Slice | client/src/utils/pagination.js:7 | for 0 <= start <= end, the slice is the items from start to end, cut at the list's end |
| Pagination.CeilDiv | client/src/utils/pagination.js:2 | the least q with n <= q × d; zero iff n is zero |
| Pagination.Paginate | client/src/utils/pagination.js:1-9 | totalPages is the ceiling of len / perPage (0 for an empty list); page p >= 1 holds items[(p−1)·perPage .. min(len, p·perPage)); at most perPage items; a page past the last, or page 0, is empty |
| Pagination.PageItemsInList | client/src/utils/pagination.js:7 | a page only holds items of the list |
| Pagination.PaginateDefault | client/src/utils/pagination.js:1 | with the defaults (page 1, 10 per page) the page is the first ten items |
| Pagination.PagesArePrefix | client/src/utils/pagination.js:3-7 | pages 1..n one after the other are the first n × perPage items |
| Pagination.PagesReassemble | client/src/utils/pagination.js:2-7 | pages 1..totalPages one after the other are exactly the list |
| ExportCsv.DoubleQuotes | client/src/utils/exportCSV.js:9 | doubling quotes never shortens a field |
| ExportCsv.EscapeField | client/src/utils/exportCSV.js:9 | an escaped field starts and ends with a double quote |
| ExportCsv.ReadQuotedDoubled | client/src/utils/exportCSV.js:9 | the doubled text of a value followed by a closing quote reads back as the value, leaving what follows the quote |
| ExportCsv.EscapeFieldRoundTrip | client/src/utils/exportCSV.js:9 | reading an escaped field back (a doubled quote is one quote) gives the original value and leaves what follows |
| ExportCsv.EscapeFieldInjective | client/src/utils/exportCSV.js:9 | distinct values escape to distinct fields |
| ExportCsv.RowLineRoundTrip | client/src/utils/exportCSV.js:8-10 | a data line with at least one field reads back as its fields, whatever commas and quotes they hold |
| ExportCsv.CsvContent | client/src/utils/exportCSV.js:1-11 | no content iff there are no rows; otherwise the content starts with the unquoted headers joined by commas and a line feed |
| ExportCsv.CsvEndsWithLastRow | client/src/utils/exportCSV.js:7-11 | the content ends with the last data line's closing quote, with no trailing line feed |
| RedirectByRole.Redirects | client/src/utils/redirectByRole.js:1-14 | at most one navigation; none without a role or for an unrecognised role; the dashboard context sends RENTER, OWNER and ADMIN to their dashboards; any other context sends RENTER to "/" and OWNER and ADMIN to their dashboards |
| RedirectByRole.RedirectsDefault | client/src/utils/redirectByRole.js:1 | the default context is "home", where a renter goes to "/" |
| RedirectByRole.ContextMattersOnlyToRenters | client/src/utils/redirectByRole.js:4-13 | the context changes the navigation only for a renter |
| ProtectedRoute.Gate | client/src/components/ProtectedRoute.jsx:4-23 | nothing while loading; "/" when not authenticated; a disallowed OWNER, ADMIN or RENTER is redirected to /dashboard/owner, /dashboard/admin or "/"; the children render iff the role is allowed, missing or outside the three |
| ProtectedRoute.GateAgreesWithLoginRedirect | client/src/components/ProtectedRoute.jsx:15-20 | a disallowed known role is sent where the home-context role redirect sends it |
| ProtectedRoute.MoreRolesShowMore | client/src/components/ProtectedRoute.jsx:15 | allowing more roles never hides children that were shown |
| VehicleDetails.IsDateBooked | client/src/hooks/useVehicleDetails.js:173-181 | a date is booked iff some range covers it, both ends taken at midnight; no range books no date |
| VehicleDetails.MidnightMonotone | client/src/hooks/useVehicleDetails.js:177-178 | taking the midnight keeps the order of instants |
| VehicleDetails.BookedDaysShow | client/src/hooks/useVehicleDetails.js:173-181 | the midnight of any instant inside a booked range is shown as booked |
| VehicleDetails.AvailabilityProblem | client/src/hooks/useVehicleDetails.js:116-135 | checks in order: a missing date, a start before today's midnight, a start after the end; no problem iff both dates are present and today's midnight <= start <= end |
| VehicleDetails.VehicleDetailsState.constructor | client/src/hooks/useVehicleDetails.js:80-83 | the hook starts with no dates, not available and no error |
| VehicleDetails.VehicleDetailsState.SetStartDate | client/src/hooks/useVehicleDetails.js:80-83 | a changed start date resets availability and clears the error, touching nothing else |
| VehicleDetails.VehicleDetailsState.SetEndDate | client/src/hooks/useVehicleDetails.js:80-83 | a changed end date resets availability and clears the error, touching nothing else |
| VehicleDetails.VehicleDetailsState.CheckAvailability | client/src/hooks/useVehicleDetails.js:116-157 | the prepare request is sent iff every validation passes; a failed validation only sets its message; after the request, available iff the server accepts, else its message or the fallback |
| VehicleDetails.VehicleDetailsState.HandleBookNow | client/src/hooks/useVehicleDetails.js:159-171 | a guest records the pending vehicle and opens the login; a user navigates iff the vehicle is available, to /vehicles/:id/availability with two ordered dates |
| VehicleDetails.VehicleDetailsState.ClearPendingOnLogin | client/src/hooks/useVehicleDetails.js:85-92 | without a user nothing changes; with one, a pending booking of this route's vehicle is forgotten and any other entry stays |
| AddVehicle.NumberField | client/src/hooks/useAddVehicle.js:90-92 | a number is set iff the input is non-empty and numeric, and it is the input's number |
| AddVehicle.TextField | client/src/hooks/useAddVehicle.js:99-103 | a text key is set iff the field is non-empty, to the field |
| AddVehicle.BuildEditPayload | client/src/hooks/useAddVehicle.js:88-108 | the mileage is set iff numeric; price, location, description, fuel type, category and vehicle type are set only when the vehicle is not approved; `status: "pending"` is set iff the vehicle was rejected |
| AddVehicle.FillEditPayload | client/src/hooks/useAddVehicle.js:88-108 | assigning the keys one by one into the empty object yields exactly `BuildEditPayload` |
| AddVehicle.ApprovedEditSendsOnlyMileage | client/src/hooks/useAddVehicle.js:90-104 | editing an approved vehicle sends at most the mileage |
| AddVehicle.RejectedResubmitsWithEmptyForm | client/src/hooks/useAddVehicle.js:106-108 | a rejected vehicle saved with an empty form still asks for review with `status: "pending"` alone |
| AddVehicle.ConfirmSubmit | client/src/hooks/useAddVehicle.js:85-128 | an edit is sent iff there is an id to edit, with the edit payload; a creation sends every form field, the year, price and mileage as numbers, and the images |
| AddVehicle.SaveMessage | client/src/hooks/useAddVehicle.js:113-141 | the dialog after a save: updated (resubmitted iff the vehicle was rejected), submitted, or failed |
| VehicleBookings.BookingsUrl | client/src/hooks/useVehicleBookings.js:44-47 | RENTER reads /bookings/my, OWNER /bookings/view/owner, ADMIN /bookings/view/admin, anyone else the empty URL |
| VehicleBookings.TableData | client/src/hooks/useVehicleBookings.js:14-57 | on a renter's rental-history path exactly the COMPLETED bookings are kept, in the answer's order and with every occurrence (the j-th kept is the answer at the j-th COMPLETED position); elsewhere the whole answer |
| VehicleBookings.FilteredBookings | client/src/hooks/useVehicleBookings.js:91-94 | "ALL" keeps every booking; any other value keeps exactly the bookings with that status, in order and with every occurrence (the j-th kept is the table at the j-th matching position) |
| VehicleBookings.ShownPage | client/src/hooks/useVehicleBookings.js:96-100 | the shown page holds at most perPage bookings |
| VehicleBookings.ShownPageMatchesFilter | client/src/hooks/useVehicleBookings.js:91-100 | every shown booking is one of the table's and has the filtered status unless the filter is "ALL" |
| VehicleBookings.AllPagesShowEverything | client/src/hooks/useVehicleBookings.js:91-100 | under "ALL", the pages 1..totalPages one after the other are exactly the table |
| VehicleBookings.BuildPaymentMap | client/src/hooks/useVehicleBookings.js:64-77 | the loop's map is `PaymentMapOf` of the payments |
| VehicleBookings.PaymentMapKeys | client/src/hooks/useVehicleBookings.js:66-77 | a booking id is a key iff some payment with a non-zero amount names it |
| VehicleBookings.PaymentMapLastWins | client/src/hooks/useVehicleBookings.js:66-77 | a booking's amount is that of the last counted payment naming it; later payments overwrite earlier ones |
| VehicleBookings.ExportCsvFile | client/src/hooks/useVehicleBookings.js:102-132 | nothing unless the role is ADMIN; for an administrator a file iff the table is non-empty, starting with the eight headers |
| VehicleBookings.ExportRowsReadBack | client/src/hooks/useVehicleBookings.js:116-125 | each exported booking line reads back as its eight fields |

## Left out

- The HMAC-SHA256 computation and the payment gateway's order and refund
  calls are function parameters. The keyed hash is any function of the
  string `orderId|paymentId`.
- The e-mails (confirmation, cancellation, completion, review reminder,
  inquiry reply) are fire-and-forget. They change no state. What is kept is
  the 500 a handler answers when it reads the address of an account that no
  longer exists, after its save.
- Authentication: the caller is an explicit `(id, role)` parameter. A role
  string outside the three becomes `Unrecognised`.
- The query engine, `populate`, the sort orders and pagination by the
  database are not modelled. Results are id sequences in store order, or id
  sets for reviews.
- Regular-expression searches (the vehicle make/model search, the review
  comment search) are predicate parameters, `None` when the search is absent.
- Dates are integer milliseconds. Midnight is taken in UTC (Euclidean
  division by 86400000). The local-time `setHours(0, 0, 0, 0)` of the
  quote, of the calendar and of the availability check is not modelled, so
  daylight-saving effects are left out. Parsing the date strings is left out
  too: the model receives the parsed instants.
- Amounts are integers. JavaScript's floating-point `amount * 100` and
  `days * pricePerDay` are not modelled.
- No handler runs concurrently with another. The race between prepare and
  verify, and the lost update between cancel and the sweep, are not
  captured.
- The catch-all 500 answers for database failures are not modelled; only
  the 500s that follow from the modelled data are.
- `getOwnerBookings` in bookingController.js selects vehicles by a field
  `owner` the schema does not have. Which vehicles that selects depends on
  the driver's strict-query settings, so the set of owned vehicles is a
  parameter.
- No shown code sets REFUND_PENDING or calls `expirePendingPayments`. Both
  are modelled as written, with no caller assumed.
- The inquiry-reply e-mail in server/services/emailService.js refers to an
  undefined `transporter`. It therefore always fails, and the handler
  swallows that failure, so the model gives it no effect.
- The page client/src/pages/VehicleDetails.jsx has its own older
  availability check, which refuses a one-day range. It is not part of this
  model; the hook's check and the server's `preparePayment` are modelled.
- The "booking has started" cancel gate of
  client/src/components/BookingCard.jsx exists only on the client. It is not
  part of this model, and the server's `cancelBooking` does not enforce it.
- The other UI pages repeat the modelled pagination, payload and CSV
  quoting inline, and are not part of this model.
- The handlers `updateVehicle`, `deleteVehicle`, `getVehicleLocations` and
  `getVehicleBookedDates` are imported by the routes but are not part of
  this model, since their code is not among the files modelled.
- server/routes/adminPayments.js is never mounted. The refund handler is
  modelled by itself, without its route.
- Average ratings and analytics use floating point and are not part of this
  model.
- AddVehicle.BuildEditPayload: the payload object is a record of optional
  fields, so the order in which its keys are written is not modelled.
- AddVehicle.NumberField: `Number(s)` and `isNaN(s)` are one parameter
  answering a real number, `None` standing for `NaN`. The fractions the
  form accepts (mileage or price "1.5") are kept, but the rounding of
  double-precision numbers, `Infinity` and the answer for an empty string
  (0) are not fixed by the model.
- Common.Lower: `toLowerCase` is modelled for the ASCII letters only; other
  characters are left as they are. The full Unicode case mapping is not
  modelled, so a search such as "škoda" against the make "ŠKODA", which
  the booking searches of bookingController.js, historyController.js and
  bookingViewController.js find, is not found by `BookingQueries.MatchesSearch`.
- Of the `createdAt` and `updatedAt` timestamps Mongoose adds to every
  schema, only `createdAt` is a field of the records. `updatedAt` is not
  modelled, and no modelled handler reads it.
- useVehicleDetails.js: fetching the vehicle and its booked dates, and the
  approve and reject buttons, are fetch effects and are not modelled. (The
  server's approve and reject are modelled.) The asynchronous `await` in
  `checkAvailability` is modelled as one step.
- useVehicleBookings.js: the search debounce timer, the `search` query
  parameter, the loading and error flags, and the fetch itself are left out.
  The table's data is a parameter. `formatDate` is left to the caller: dates
  arrive formatted.
- exportCSV.js: the Blob, the link element and the click that download the
  file are browser I/O and are left out.
