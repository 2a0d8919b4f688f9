/** The renter's checkout of server/controllers/paymentController.js: a
    read-only quote (`preparePayment`), the creation of a gateway order with
    its CREATED payment (`createRazorpayOrder`), the signature check that
    turns a paid order into an ACTIVE booking (`verifyPayment`), and the
    payment getters of renters and owners. The gateway and the keyed hash
    are parameters: `createOrder` answers an order request or fails, and
    `hmac` is HMAC-SHA256 under the server's secret, hex-encoded. */
module PaymentController {
  import opened Common
  import opened Models
  import opened Store

  // ------------------------------------------------------------ preparePayment

  /** `Booking.findOne({ vehicle, status: "ACTIVE", startDate: { $lte: end },
      endDate: { $gte: start } })`: the first stored booking that blocks the
      interval, if any. */
  function FirstBlocking(bs: seq<Booking>, vehicle: VehicleId, startDate: int, endDate: int): (r: Option<BookingId>)
    ensures r.None? <==> forall j :: 0 <= j < |bs| ==> !Blocks(bs[j], vehicle, startDate, endDate)
    ensures r.Some? ==> r.value < |bs| && Blocks(bs[r.value], vehicle, startDate, endDate)
  {
    FirstWhere(bs, b => Blocks(b, vehicle, startDate, endDate))
  }

  /** The vehicle is found and approved. */
  predicate Bookable(vehicles: seq<Vehicle>, vehicleId: VehicleId) {
    vehicleId < |vehicles| && vehicles[vehicleId].status == Approved
  }

  /** The body of a successful quote. */
  datatype Quote = Quote(
    vehicle: VehicleId,
    make: string,
    model: string,
    startDate: int,
    endDate: int,
    days: int,
    pricePerDay: int,
    totalAmount: int)

  /** `preparePayment`: a quote for renting `vehicleId` over the inclusive
      interval. The guards run in this order: the caller must be a renter,
      the start must not lie after the end (equal is accepted), the vehicle
      must be found and approved, and no ACTIVE booking of it may overlap.
      The rental is charged per calendar day touched, both ends included. */
  function PreparePayment(vehicles: seq<Vehicle>, bookings: seq<Booking>, user: User, vehicleId: VehicleId, startDate: int, endDate: int): (r: Response<Quote>)
    ensures user.role != Renter ==> r == Err(FORBIDDEN, "Access denied")
    ensures user.role == Renter && startDate > endDate ==> r == Err(BAD_REQUEST, "Invalid date range")
    ensures user.role == Renter && startDate <= endDate && !Bookable(vehicles, vehicleId) ==>
      r == Err(BAD_REQUEST, "Vehicle not available")
    ensures (user.role == Renter && startDate <= endDate && Bookable(vehicles, vehicleId)
             && exists j :: 0 <= j < |bookings| && Blocks(bookings[j], vehicleId, startDate, endDate)) ==>
      r == Err(BAD_REQUEST, "Vehicle already booked for selected dates")
    ensures r.Ok? <==>
      (user.role == Renter && startDate <= endDate && Bookable(vehicles, vehicleId)
       && forall j :: 0 <= j < |bookings| ==> !Blocks(bookings[j], vehicleId, startDate, endDate))
    ensures r.Ok? ==>
      && r.status == OK && vehicleId < |vehicles|
      && r.value.vehicle == vehicleId && r.value.startDate == startDate && r.value.endDate == endDate
      && r.value.days == DayNumber(endDate) - DayNumber(startDate) + 1 >= 1
      && r.value.pricePerDay == vehicles[vehicleId].pricePerDay
      && r.value.totalAmount == r.value.days * vehicles[vehicleId].pricePerDay
  {
    if user.role != Renter then Err(FORBIDDEN, "Access denied")
    else if startDate > endDate then Err(BAD_REQUEST, "Invalid date range")
    else if !Bookable(vehicles, vehicleId) then Err(BAD_REQUEST, "Vehicle not available")
    else if FirstBlocking(bookings, vehicleId, startDate, endDate).Some? then
      Err(BAD_REQUEST, "Vehicle already booked for selected dates")
    else
      var vehicle := vehicles[vehicleId];
      var diffInMs := Midnight(endDate) - Midnight(startDate);
      var days := diffInMs / DAY_MS + 1;
      assert diffInMs == (DayNumber(endDate) - DayNumber(startDate)) * DAY_MS;
      Ok(OK, Quote(vehicleId, vehicle.make, vehicle.model, startDate, endDate, days, vehicle.pricePerDay, days * vehicle.pricePerDay))
  }

  /** A range within one day costs one day's price, and every extra calendar
      day adds one day's price. */
  lemma QuoteCostsPerDay(vehicles: seq<Vehicle>, bookings: seq<Booking>, user: User, vehicleId: VehicleId, startDate: int, endDate: int)
    requires PreparePayment(vehicles, bookings, user, vehicleId, startDate, endDate).Ok?
    ensures var q := PreparePayment(vehicles, bookings, user, vehicleId, startDate, endDate).value;
      (Midnight(startDate) == Midnight(endDate) ==> q.days == 1 && q.totalAmount == q.pricePerDay)
      && q.days * DAY_MS == Midnight(endDate) - Midnight(startDate) + DAY_MS
  {
  }

  /** Bookings that are CANCELLED or COMPLETED never stand in the way of a
      quote: the quote only depends on the ACTIVE ones. */
  lemma {:induction false} QuoteIgnoresInactive(vehicles: seq<Vehicle>, bookings: seq<Booking>, user: User, vehicleId: VehicleId, startDate: int, endDate: int, i: int, status: BookingStatus)
    requires 0 <= i < |bookings| && status != Active
    requires PreparePayment(vehicles, bookings, user, vehicleId, startDate, endDate).Ok?
    ensures PreparePayment(vehicles, bookings[i := bookings[i].(status := status)], user, vehicleId, startDate, endDate).Ok?
  {
    var bs := bookings[i := bookings[i].(status := status)];
    forall j | 0 <= j < |bs| ensures !Blocks(bs[j], vehicleId, startDate, endDate) {
      if j != i {
        assert bs[j] == bookings[j];
      }
    }
  }

  // ------------------------------------------------------- createRazorpayOrder

  /** The options handed to `razorpay.orders.create`: the amount in paise,
      the currency, and the receipt `rcpt_<now>` (kept as the instant). */
  datatype OrderRequest = OrderRequest(amount: int, currency: string, receiptAt: int)

  /** The gateway's answer: the order id, amount and currency. */
  datatype GatewayOrder = GatewayOrder(id: string, amount: int, currency: string)

  /** The body of a created order: the gateway order and the stored payment. */
  datatype OrderCreated = OrderCreated(orderId: string, amount: int, currency: string, payment: PaymentId)

  function OrderRequestFor(amount: int, now: int): OrderRequest {
    OrderRequest(amount * 100, "INR", now)
  }

  /** `createRazorpayOrder`: renters only; ask the gateway for an order of
      `amount` rupees in paise, then store one CREATED payment for it. A
      gateway failure, or an order without an id (which fails the required
      `razorpayOrderId`), answers 500 and stores nothing. No booking is made. */
  method CreateRazorpayOrder(db: Db, user: User, vehicleId: VehicleId, amount: int, now: int, createOrder: OrderRequest -> Option<GatewayOrder>)
    returns (r: Response<OrderCreated>)
    requires db.Valid()
    modifies db`payments
    ensures db.Valid()
    ensures user.role != Renter ==> r == Err(FORBIDDEN, "Access denied") && db.payments == old(db.payments)
    ensures user.role == Renter && (createOrder(OrderRequestFor(amount, now)).None? || createOrder(OrderRequestFor(amount, now)).value.id == "") ==>
      r == Err(SERVER_ERROR, "Failed to create payment order") && db.payments == old(db.payments)
    ensures user.role == Renter && createOrder(OrderRequestFor(amount, now)).Some? && createOrder(OrderRequestFor(amount, now)).value.id != "" ==>
      var order := createOrder(OrderRequestFor(amount, now)).value;
      && db.payments == old(db.payments) + [NewPayment(user.id, vehicleId, amount, order.id, now)]
      && r == Ok(OK, OrderCreated(order.id, order.amount, order.currency, |old(db.payments)|))
  {
    if user.role != Renter {
      return Err(FORBIDDEN, "Access denied");
    }
    var order := createOrder(OrderRequestFor(amount, now));
    if order.None? || order.value.id == "" {
      return Err(SERVER_ERROR, "Failed to create payment order");
    }
    var id := |db.payments|;
    db.payments := db.payments + [NewPayment(user.id, vehicleId, amount, order.value.id, now)];
    ReplacePayments(db.bookings, old(db.payments), db.payments, db.reviews, db.nextReviewId);
    r := Ok(OK, OrderCreated(order.value.id, order.value.amount, order.value.currency, id));
  }

  /** A created order's payment carries every schema default: status CREATED,
      currency INR, no booking, no gateway payment id or signature, and no
      refund data; its renter is the caller. */
  lemma NewPaymentDefaults(renter: UserId, vehicle: VehicleId, amount: int, orderId: string, now: int)
    ensures var p := NewPayment(renter, vehicle, amount, orderId, now);
      && p.status == Created && p.currency == "INR" && p.booking.None?
      && p.razorpayPaymentId.None? && p.razorpaySignature.None?
      && p.razorpayRefundId.None? && p.refundedAt.None? && p.refundedBy.None?
      && p.renter == renter && p.amount == amount && p.razorpayOrderId == orderId
  {
  }

  // -------------------------------------------------------------- verifyPayment

  /** One of the three `findOneAndUpdate` bodies of `verifyPayment`. */
  datatype PaymentUpdate = MarkFailed | Capture(paymentId: string, signature: string) | LinkBooking(booking: BookingId)

  function ApplyUpdate(p: Payment, u: PaymentUpdate): Payment {
    match u
    case MarkFailed => p.(status := Failed)
    case Capture(pid, sig) => p.(razorpayPaymentId := Some(pid), razorpaySignature := Some(sig), status := Success)
    case LinkBooking(b) => p.(booking := Some(b))
  }

  /** The first payment stored for a gateway order. */
  function FirstWithOrder(ps: seq<Payment>, orderId: string): (r: Option<PaymentId>)
    ensures r.None? <==> forall k :: 0 <= k < |ps| ==> ps[k].razorpayOrderId != orderId
    ensures r.Some? ==> r.value < |ps| && ps[r.value].razorpayOrderId == orderId
    ensures r.Some? ==> forall k :: 0 <= k < r.value ==> ps[k].razorpayOrderId != orderId
  {
    FirstWhere(ps, (p: Payment) => p.razorpayOrderId == orderId)
  }

  /** `Payment.findOneAndUpdate({ razorpayOrderId }, update)`: the first
      payment of the order takes the update; with no such payment nothing
      changes. */
  function UpdateByOrder(ps: seq<Payment>, orderId: string, u: PaymentUpdate): (r: seq<Payment>)
    ensures |r| == |ps|
    ensures forall k :: 0 <= k < |ps| && FirstWithOrder(ps, orderId) != Some(k) ==> r[k] == ps[k]
    ensures FirstWithOrder(ps, orderId).Some? ==>
      var k := FirstWithOrder(ps, orderId).value; r[k] == ApplyUpdate(ps[k], u)
  {
    match FirstWithOrder(ps, orderId)
    case None => ps
    case Some(k) => ps[k := ApplyUpdate(ps[k], u)]
  }

  /** No update changes an order id, so successive updates of one order all
      reach the same payment. */
  lemma UpdateByOrderKeepsTarget(ps: seq<Payment>, orderId: string, u: PaymentUpdate)
    ensures FirstWithOrder(UpdateByOrder(ps, orderId, u), orderId) == FirstWithOrder(ps, orderId)
  {
    var r := UpdateByOrder(ps, orderId, u);
    assert forall k :: 0 <= k < |ps| ==> r[k].razorpayOrderId == ps[k].razorpayOrderId;
  }

  /** A verified order's payment, captured and then linked, is SUCCESS with
      the gateway payment id, the signature and the new booking; every other
      payment is as it was, and with no payment for the order nothing
      changes. */
  lemma {:induction false} CaptureThenLink(ps: seq<Payment>, orderId: string, paymentId: string, signature: string, booking: BookingId)
    ensures var r := UpdateByOrder(UpdateByOrder(ps, orderId, Capture(paymentId, signature)), orderId, LinkBooking(booking));
      && |r| == |ps|
      && (forall k :: 0 <= k < |ps| && FirstWithOrder(ps, orderId) != Some(k) ==> r[k] == ps[k])
      && (FirstWithOrder(ps, orderId).Some? ==>
           var k := FirstWithOrder(ps, orderId).value;
           r[k] == ps[k].(razorpayPaymentId := Some(paymentId), razorpaySignature := Some(signature), status := Success, booking := Some(booking)))
  {
    UpdateByOrderKeepsTarget(ps, orderId, Capture(paymentId, signature));
  }

  /** The fields of the verification request. */
  datatype Verification = Verification(
    orderId: string,
    paymentId: string,
    signature: string,
    vehicle: VehicleId,
    startDate: int,
    endDate: int)

  /** The gateway's signature is the keyed hash of `orderId|paymentId`. */
  predicate SignatureValid(hmac: string -> string, v: Verification) {
    hmac(v.orderId + "|" + v.paymentId) == v.signature
  }

  /** `verifyPayment`: renters only. A signature that is not the keyed hash
      of `orderId|paymentId` fails the order's payment and answers 400; so
      does an ACTIVE booking that now overlaps the interval. Otherwise the
      payment is captured (SUCCESS, gateway id and signature stored), one
      ACTIVE booking for the caller is created over the interval, and the
      payment is linked to it. The order may match no payment, in which case
      the payment updates do nothing. */
  method VerifyPayment(db: Db, user: User, v: Verification, now: int, hmac: string -> string) returns (r: Response<BookingId>)
    requires db.Valid()
    modifies db`payments, db`bookings
    ensures db.Valid()
    ensures user.role != Renter ==>
      r == Err(FORBIDDEN, "Access denied") && db.payments == old(db.payments) && db.bookings == old(db.bookings)
    ensures user.role == Renter && !SignatureValid(hmac, v) ==>
      && r == Err(BAD_REQUEST, "Payment verification failed")
      && db.payments == UpdateByOrder(old(db.payments), v.orderId, MarkFailed)
      && db.bookings == old(db.bookings)
    ensures user.role == Renter && SignatureValid(hmac, v) && FirstBlocking(old(db.bookings), v.vehicle, v.startDate, v.endDate).Some? ==>
      && r == Err(BAD_REQUEST, "Vehicle already booked for selected dates")
      && db.payments == UpdateByOrder(old(db.payments), v.orderId, MarkFailed)
      && db.bookings == old(db.bookings)
    ensures user.role == Renter && SignatureValid(hmac, v) && FirstBlocking(old(db.bookings), v.vehicle, v.startDate, v.endDate).None? ==>
      && r == Ok(OK, |old(db.bookings)|)
      && db.bookings == old(db.bookings) + [NewBooking(user.id, v.vehicle, v.startDate, v.endDate, now)]
      && db.payments == UpdateByOrder(UpdateByOrder(old(db.payments), v.orderId, Capture(v.paymentId, v.signature)), v.orderId, LinkBooking(|old(db.bookings)|))
  {
    if user.role != Renter {
      return Err(FORBIDDEN, "Access denied");
    }
    if hmac(v.orderId + "|" + v.paymentId) != v.signature {
      db.payments := UpdateByOrder(db.payments, v.orderId, MarkFailed);
      ReplacePayments(db.bookings, old(db.payments), db.payments, db.reviews, db.nextReviewId);
      return Err(BAD_REQUEST, "Payment verification failed");
    }
    var overlapping := FirstBlocking(db.bookings, v.vehicle, v.startDate, v.endDate);
    if overlapping.Some? {
      db.payments := UpdateByOrder(db.payments, v.orderId, MarkFailed);
      ReplacePayments(db.bookings, old(db.payments), db.payments, db.reviews, db.nextReviewId);
      return Err(BAD_REQUEST, "Vehicle already booked for selected dates");
    }
    var id := BookVerified(db, user.id, v, now);
    r := Ok(OK, id);
  }

  /** The success path of `verifyPayment`: capture the order's payment,
      create the ACTIVE booking, link the payment to it. */
  method BookVerified(db: Db, renter: UserId, v: Verification, now: int) returns (id: BookingId)
    requires db.Valid()
    requires FirstBlocking(db.bookings, v.vehicle, v.startDate, v.endDate).None?
    modifies db`payments, db`bookings
    ensures db.Valid()
    ensures id == |old(db.bookings)|
    ensures db.bookings == old(db.bookings) + [NewBooking(renter, v.vehicle, v.startDate, v.endDate, now)]
    ensures db.payments == UpdateByOrder(UpdateByOrder(old(db.payments), v.orderId, Capture(v.paymentId, v.signature)), v.orderId, LinkBooking(id))
  {
    db.payments := UpdateByOrder(db.payments, v.orderId, Capture(v.paymentId, v.signature));
    var booking := NewBooking(renter, v.vehicle, v.startDate, v.endDate, now);
    id := |db.bookings|;
    AddUnblockedKeepsNoOverlap(db.bookings, booking);
    db.bookings := db.bookings + [booking];
    db.payments := UpdateByOrder(db.payments, v.orderId, LinkBooking(id));
    CaptureThenLink(old(db.payments), v.orderId, v.paymentId, v.signature, id);
    ReplaceBookings(old(db.bookings), db.bookings, old(db.payments), db.reviews, db.nextReviewId);
    ReplacePayments(db.bookings, old(db.payments), db.payments, db.reviews, db.nextReviewId);
  }

  /** A successful verification creates exactly one booking, ACTIVE, held by
      the caller over the requested interval, and no stored booking of the
      vehicle overlaps it. */
  lemma VerifiedBookingIsUnblocked(bs: seq<Booking>, renter: UserId, v: Verification, now: int)
    requires FirstBlocking(bs, v.vehicle, v.startDate, v.endDate).None?
    ensures var nb := NewBooking(renter, v.vehicle, v.startDate, v.endDate, now);
      && nb.status == Active && nb.renter == renter
      && (NoActiveOverlap(bs) ==> NoActiveOverlap(bs + [nb]))
  {
    var nb := NewBooking(renter, v.vehicle, v.startDate, v.endDate, now);
    if NoActiveOverlap(bs) {
      AddUnblockedKeepsNoOverlap(bs, nb);
    }
  }

  // ------------------------------------------------------------------ getters

  /** The query of `getMyPayments`; empty strings and `None` are the
      parameters the request leaves out. */
  datatype PaymentQuery = PaymentQuery(status: string, vehicle: Option<VehicleId>, from: Option<int>, to: Option<int>, search: string)

  /** The optional `search`: a substring of the order id or of the gateway
      payment id, case-sensitive. */
  predicate PaymentSearch(p: Payment, search: string) {
    search == ""
    || Includes(p.razorpayOrderId, search)
    || (p.razorpayPaymentId.Some? && Includes(p.razorpayPaymentId.value, search))
  }

  predicate RenterPaymentMatches(p: Payment, renter: UserId, q: PaymentQuery) {
    && p.renter == renter
    && (q.status == "" || PaymentStatusName(p.status) == q.status)
    && (q.vehicle.None? || p.vehicle == q.vehicle.value)
    && InWindow(p.createdAt, q.from, q.to)
    && PaymentSearch(p, q.search)
  }

  /** `getMyPayments`: renters only; the caller's payments, with the optional
      exact status and vehicle, an inclusive window on the creation instant
      and the id search. */
  function GetMyPayments(payments: seq<Payment>, user: User, q: PaymentQuery): (r: Response<seq<PaymentId>>)
    ensures user.role != Renter ==> r == Err(FORBIDDEN, "Access denied")
    ensures user.role == Renter ==> r.Ok? && r.status == OK
    ensures r.Ok? ==> forall k :: k in r.value <==> 0 <= k < |payments| && RenterPaymentMatches(payments[k], user.id, q)
    ensures r.Ok? ==> forall k :: k in r.value ==> payments[k].renter == user.id
  {
    if user.role != Renter then Err(FORBIDDEN, "Access denied")
    else Ok(OK, Select(payments, (p: Payment) => RenterPaymentMatches(p, user.id, q)))
  }

  /** The query of `getAllPaymentsAdmin`: the optional exact status, vehicle
      and renter, and the inclusive window on the creation instant; it has no
      search. */
  datatype AdminPaymentQuery = AdminPaymentQuery(status: string, vehicle: Option<VehicleId>, renter: Option<UserId>, from: Option<int>, to: Option<int>)

  predicate AdminPaymentMatches(p: Payment, q: AdminPaymentQuery) {
    && (q.status == "" || PaymentStatusName(p.status) == q.status)
    && (q.vehicle.None? || p.vehicle == q.vehicle.value)
    && (q.renter.None? || p.renter == q.renter.value)
    && InWindow(p.createdAt, q.from, q.to)
  }

  /** `getAllPaymentsAdmin`: administrators only; every payment under the
      optional filters. */
  function GetAllPaymentsAdmin(payments: seq<Payment>, user: User, q: AdminPaymentQuery): (r: Response<seq<PaymentId>>)
    ensures user.role != Admin ==> r == Err(FORBIDDEN, "Access denied")
    ensures user.role == Admin ==> r.Ok? && r.status == OK
    ensures r.Ok? ==> forall k :: k in r.value <==> 0 <= k < |payments| && AdminPaymentMatches(payments[k], q)
  {
    if user.role != Admin then Err(FORBIDDEN, "Access denied")
    else Ok(OK, Select(payments, (p: Payment) => AdminPaymentMatches(p, q)))
  }

  /** A renter's own listing lies within the administrator's listing filtered
      to that renter with the same status, vehicle and window. */
  lemma MyPaymentsWithinAdminView(payments: seq<Payment>, renter: User, admin: User, q: PaymentQuery)
    requires renter.role == Renter && admin.role == Admin
    ensures var aq := AdminPaymentQuery(q.status, q.vehicle, Some(renter.id), q.from, q.to);
      forall k :: k in GetMyPayments(payments, renter, q).value ==> k in GetAllPaymentsAdmin(payments, admin, aq).value
  {
  }

  /** The owner's vehicles: `Vehicle.find({ ownerId })`. */
  predicate OwnedBy(vehicles: seq<Vehicle>, vehicle: VehicleId, owner: UserId) {
    vehicle < |vehicles| && vehicles[vehicle].ownerId == owner
  }

  /** `getOwnerPayments`: owners only; the SUCCESS payments linked to a
      booking, for the caller's vehicles. An owner without vehicles gets the
      empty list. */
  function GetOwnerPayments(vehicles: seq<Vehicle>, payments: seq<Payment>, user: User): (r: Response<seq<PaymentId>>)
    ensures user.role != Owner ==> r == Err(FORBIDDEN, "Access denied")
    ensures user.role == Owner ==> r.Ok? && r.status == OK
    ensures r.Ok? ==> forall k :: k in r.value <==>
      0 <= k < |payments| && OwnedBy(vehicles, payments[k].vehicle, user.id)
      && payments[k].status == Success && payments[k].booking.Some?
  {
    if user.role != Owner then Err(FORBIDDEN, "Access denied")
    else if Select(vehicles, (v: Vehicle) => v.ownerId == user.id) == [] then
      assert forall k :: 0 <= k < |payments| ==> !OwnedBy(vehicles, payments[k].vehicle, user.id);
      Ok(OK, [])
    else
      Ok(OK, Select(payments, (p: Payment) => OwnedBy(vehicles, p.vehicle, user.id) && p.status == Success && p.booking.Some?))
  }
}
