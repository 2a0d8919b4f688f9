/** The administrator's refund of server/controllers/adminPaymentController.js:
    a payment waiting in REFUND_PENDING is refunded through the gateway for
    its full amount and becomes REFUNDED. The gateway's refund call is the
    parameter `refund`, which answers a refund id or fails. */
module AdminPaymentController {
  import opened Common
  import opened Models
  import opened Store

  /** What `razorpay.payments.refund` answers: a refund, or an error that may
      carry a description. */
  datatype RefundOutcome = RefundIssued(id: string) | RefundFailed(description: Option<string>)

  /** The body of the 500 answer: the gateway's description when it has a
      non-empty one, a fixed text otherwise. */
  function RefundErrorMessage(description: Option<string>): (m: string)
    ensures m != ""
    ensures description.Some? && description.value != "" ==> m == description.value
  {
    if description.Some? && description.value != "" then description.value else "Razorpay refund failed"
  }

  /** The payment after a successful refund: REFUNDED, with the refund id,
      the instant and the refunding administrator. */
  function AfterRefund(p: Payment, refundId: string, now: int, admin: UserId): Payment {
    p.(status := Refunded, razorpayRefundId := Some(refundId), refundedAt := Some(now), refundedBy := Some(admin))
  }

  /** `refundPaymentByAdmin`: administrators only; the payment must be found,
      in REFUND_PENDING, and carry a non-empty gateway payment id, checked in
      that order, before the gateway is asked to refund `amount * 100` paise.
      A failed refund answers 500 and leaves the payment as it was. */
  method RefundPaymentByAdmin(db: Db, user: User, id: PaymentId, now: int, refund: (string, int) -> RefundOutcome) returns (r: Response<string>)
    requires db.Valid()
    modifies db`payments
    ensures db.Valid()
    ensures user.role != Admin ==> r == Err(FORBIDDEN, "Access denied")
    ensures user.role == Admin && id >= |old(db.payments)| ==> r == Err(NOT_FOUND, "Payment not found")
    ensures user.role == Admin && id < |old(db.payments)| && old(db.payments)[id].status != RefundPending ==>
      r == Err(BAD_REQUEST, "Payment is not in REFUND_PENDING state")
    ensures (user.role == Admin && id < |old(db.payments)| && old(db.payments)[id].status == RefundPending
             && (old(db.payments)[id].razorpayPaymentId.None? || old(db.payments)[id].razorpayPaymentId.value == "")) ==>
      r == Err(BAD_REQUEST, "razorpayPaymentId missing – refund impossible")
    ensures (user.role == Admin && id < |old(db.payments)| && old(db.payments)[id].status == RefundPending
             && old(db.payments)[id].razorpayPaymentId.Some? && old(db.payments)[id].razorpayPaymentId.value != "") ==>
      var p := old(db.payments)[id];
      match refund(p.razorpayPaymentId.value, p.amount * 100)
      case RefundIssued(rid) =>
        r == Ok(OK, rid) && db.payments == old(db.payments)[id := AfterRefund(p, rid, now, user.id)]
      case RefundFailed(d) =>
        r == Err(SERVER_ERROR, RefundErrorMessage(d)) && db.payments == old(db.payments)
    ensures r.Err? ==> db.payments == old(db.payments)
  {
    if user.role != Admin {
      return Err(FORBIDDEN, "Access denied");
    }
    if id >= |db.payments| {
      return Err(NOT_FOUND, "Payment not found");
    }
    var payment := db.payments[id];
    if payment.status != RefundPending {
      return Err(BAD_REQUEST, "Payment is not in REFUND_PENDING state");
    }
    if payment.razorpayPaymentId.None? || payment.razorpayPaymentId.value == "" {
      return Err(BAD_REQUEST, "razorpayPaymentId missing – refund impossible");
    }
    var outcome := refund(payment.razorpayPaymentId.value, payment.amount * 100);
    if outcome.RefundFailed? {
      return Err(SERVER_ERROR, RefundErrorMessage(outcome.description));
    }
    db.payments := db.payments[id := AfterRefund(payment, outcome.id, now, user.id)];
    ReplacePayments(db.bookings, old(db.payments), db.payments, db.reviews, db.nextReviewId);
    r := Ok(OK, outcome.id);
  }

  /** A refund is the only way out of REFUND_PENDING it offers, and it leads
      to REFUNDED: the refunded payment keeps its booking, renter, vehicle,
      amount and gateway ids, and a second refund of it is refused, since it
      is no longer REFUND_PENDING. */
  lemma RefundedIsFinal(p: Payment, refundId: string, now: int, admin: UserId)
    requires p.status == RefundPending
    ensures var q := AfterRefund(p, refundId, now, admin);
      && q.status == Refunded && q.status != RefundPending
      && q.booking == p.booking && q.renter == p.renter && q.vehicle == p.vehicle
      && q.amount == p.amount && q.razorpayOrderId == p.razorpayOrderId
      && q.razorpayPaymentId == p.razorpayPaymentId
      && q.refundedBy == Some(admin) && q.refundedAt == Some(now) && q.razorpayRefundId == Some(refundId)
  {
  }
}
