/** The five Mongoose schemas of the server: Booking, Payment, Vehicle,
    Review and Inquiry. Each closed string enum becomes a datatype with the
    string it is stored as; each schema becomes a record whose optional
    fields are `Option`s; each schema default is fixed by the `New...`
    function that builds a fresh record. Identities are the positions of
    the records in the store (see module Store). */
module Models {
  import opened Common

  type VehicleId = nat
  type BookingId = nat
  type PaymentId = nat
  type ReviewId = nat
  type InquiryId = nat

  // ---------------------------------------------------------------- Booking

  datatype BookingStatus = Active | Cancelled | Completed

  function BookingStatusName(s: BookingStatus): string {
    match s
    case Active => "ACTIVE"
    case Cancelled => "CANCELLED"
    case Completed => "COMPLETED"
  }

  /** A reservation of one vehicle over the inclusive interval
      [startDate, endDate] (instants in milliseconds). */
  datatype Booking = Booking(
    renter: UserId,
    vehicle: VehicleId,
    startDate: int,
    endDate: int,
    status: BookingStatus,
    createdAt: int)

  /** A freshly created booking: the schema default status is ACTIVE. */
  function NewBooking(renter: UserId, vehicle: VehicleId, startDate: int, endDate: int, now: int): Booking {
    Booking(renter, vehicle, startDate, endDate, Active, now)
  }

  /** The interval-overlap test of the availability queries:
      `startDate <= endDate' && endDate >= startDate'`, both ends inclusive. */
  predicate Overlaps(b: Booking, startDate: int, endDate: int) {
    b.startDate <= endDate && b.endDate >= startDate
  }

  /** `b` is an ACTIVE booking of `vehicle` that overlaps the interval. */
  predicate Blocks(b: Booking, vehicle: VehicleId, startDate: int, endDate: int) {
    b.vehicle == vehicle && b.status == Active && Overlaps(b, startDate, endDate)
  }

  /** The no-double-booking invariant: no two distinct ACTIVE bookings of one
      vehicle satisfy the overlap test. */
  ghost predicate NoActiveOverlap(bs: seq<Booking>) {
    forall i, j :: 0 <= i < |bs| && 0 <= j < |bs| && i != j && bs[i].status == Active ==>
      !Blocks(bs[j], bs[i].vehicle, bs[i].startDate, bs[i].endDate)
  }

  /** Moving one booking out of ACTIVE keeps the invariant. */
  lemma {:induction false} LeaveActiveKeepsNoOverlap(bs: seq<Booking>, i: int, status: BookingStatus)
    requires NoActiveOverlap(bs)
    requires 0 <= i < |bs| && status != Active
    ensures NoActiveOverlap(bs[i := bs[i].(status := status)])
  {
    var r := bs[i := bs[i].(status := status)];
    forall a, b | 0 <= a < |r| && 0 <= b < |r| && a != b && r[a].status == Active
      ensures !Blocks(r[b], r[a].vehicle, r[a].startDate, r[a].endDate)
    {
      assert a != i;
      assert r[a] == bs[a];
      assert r[b] == bs[b] || r[b].status != Active;
    }
  }

  /** Adding an ACTIVE booking that no stored booking blocks keeps the
      invariant: the overlap test is symmetric in its two intervals. */
  lemma {:induction false} AddUnblockedKeepsNoOverlap(bs: seq<Booking>, nb: Booking)
    requires NoActiveOverlap(bs)
    requires forall j :: 0 <= j < |bs| ==> !Blocks(bs[j], nb.vehicle, nb.startDate, nb.endDate)
    ensures NoActiveOverlap(bs + [nb])
  {
    var r := bs + [nb];
    forall a, b | 0 <= a < |r| && 0 <= b < |r| && a != b && r[a].status == Active
      ensures !Blocks(r[b], r[a].vehicle, r[a].startDate, r[a].endDate)
    {
      if a == |bs| {
        assert r[b] == bs[b];
      } else if b == |bs| {
        assert r[a] == bs[a];
        assert !Blocks(bs[a], nb.vehicle, nb.startDate, nb.endDate);
      } else {
        assert r[a] == bs[a] && r[b] == bs[b];
      }
    }
  }

  // ---------------------------------------------------------------- Payment

  datatype PaymentStatus = Created | Success | Failed | RefundPending | Refunded

  function PaymentStatusName(s: PaymentStatus): string {
    match s
    case Created => "CREATED"
    case Success => "SUCCESS"
    case Failed => "FAILED"
    case RefundPending => "REFUND_PENDING"
    case Refunded => "REFUNDED"
  }

  /** One payment attempt. `booking` is the booking it paid for, once linked. */
  datatype Payment = Payment(
    booking: Option<BookingId>,
    renter: UserId,
    vehicle: VehicleId,
    amount: int,
    currency: string,
    razorpayOrderId: string,
    razorpayPaymentId: Option<string>,
    razorpaySignature: Option<string>,
    status: PaymentStatus,
    razorpayRefundId: Option<string>,
    refundedAt: Option<int>,
    refundedBy: Option<UserId>,
    createdAt: int)

  /** A freshly created payment with every schema default: no booking, INR,
      no gateway payment id or signature, status CREATED, no refund data. */
  function NewPayment(renter: UserId, vehicle: VehicleId, amount: int, orderId: string, now: int): Payment {
    Payment(None, renter, vehicle, amount, "INR", orderId, None, None, Created, None, None, None, now)
  }

  // ---------------------------------------------------------------- Vehicle

  datatype VehicleStatus = Pending | Approved | Rejected

  function VehicleStatusName(s: VehicleStatus): string {
    match s
    case Pending => "pending"
    case Approved => "approved"
    case Rejected => "rejected"
  }

  datatype VehicleType = Car | Bike | Suv

  function VehicleTypeName(t: VehicleType): string {
    match t
    case Car => "car"
    case Bike => "bike"
    case Suv => "suv"
  }

  /** Mongoose's enum check on `vehicleType`: the one value stored as `s`. */
  function ParseVehicleType(s: string): (r: Option<VehicleType>)
    ensures r.Some? ==> VehicleTypeName(r.value) == s
    ensures r.None? ==> forall t :: VehicleTypeName(t) != s
  {
    if s == "car" then Some(Car)
    else if s == "bike" then Some(Bike)
    else if s == "suv" then Some(Suv)
    else None
  }

  datatype Category = Economy | Luxury | Electric

  function CategoryName(c: Category): string {
    match c
    case Economy => "economy"
    case Luxury => "luxury"
    case Electric => "electric"
  }

  /** Mongoose's enum check on `category`: the one value stored as `s`. */
  function ParseCategory(s: string): (r: Option<Category>)
    ensures r.Some? ==> CategoryName(r.value) == s
    ensures r.None? ==> forall c :: CategoryName(c) != s
  {
    if s == "economy" then Some(Economy)
    else if s == "luxury" then Some(Luxury)
    else if s == "electric" then Some(Electric)
    else None
  }

  datatype Vehicle = Vehicle(
    ownerId: UserId,
    make: string,
    model: string,
    year: int,
    vehicleType: VehicleType,
    category: Category,
    location: string,
    pricePerDay: int,
    availability: bool,
    images: seq<string>,
    description: Option<string>,
    status: VehicleStatus,
    averageRating: int,
    totalReviews: int,
    createdAt: int)

  // ---------------------------------------------------------------- Review

  /** The schema bounds on `rating`. */
  predicate ValidRating(rating: int) {
    1 <= rating <= 5
  }

  datatype Review = Review(
    vehicleId: VehicleId,
    renterId: UserId,
    bookingId: BookingId,
    rating: int,
    comment: Option<string>,
    isHidden: bool,
    createdAt: int)

  // ---------------------------------------------------------------- Inquiry

  datatype InquiryStatus = Open | Replied | Closed

  function InquiryStatusName(s: InquiryStatus): string {
    match s
    case Open => "OPEN"
    case Replied => "REPLIED"
    case Closed => "CLOSED"
  }

  datatype Inquiry = Inquiry(
    user: UserId,
    subject: string,
    message: string,
    reply: Option<string>,
    status: InquiryStatus,
    createdAt: int)
}
