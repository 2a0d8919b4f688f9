/** The document store the controllers read and write: one collection per
    schema. Vehicles, bookings, payments and inquiries are never removed by
    the modelled handlers, so a record's id is its position in its
    sequence; reviews can be deleted, so they live in a map keyed by id with
    a counter for the next fresh id. */
module Store {
  import opened Common
  import opened Models

  /** At most one review per booking (the unique index on `bookingId`). */
  ghost predicate OneReviewPerBooking(reviews: map<ReviewId, Review>) {
    forall a, b :: a in reviews && b in reviews && a != b ==> reviews[a].bookingId != reviews[b].bookingId
  }

  /** The store's invariant over the collections: no double booking, every
      payment link and review points at a stored booking, at most one review
      per booking, every stored rating within the schema bounds, and review
      ids below the counter. */
  ghost predicate Consistent(bookings: seq<Booking>, payments: seq<Payment>, reviews: map<ReviewId, Review>, nextReviewId: ReviewId) {
    && NoActiveOverlap(bookings)
    && (forall i :: 0 <= i < |payments| && payments[i].booking.Some? ==> payments[i].booking.value < |bookings|)
    && (forall k :: k in reviews ==> k < nextReviewId)
    && (forall k :: k in reviews ==> reviews[k].bookingId < |bookings| && ValidRating(reviews[k].rating))
    && OneReviewPerBooking(reviews)
  }

  /** Replacing the bookings by as many bookings without double booking
      keeps the store consistent. */
  lemma ReplaceBookings(bs: seq<Booking>, bs': seq<Booking>, ps: seq<Payment>, rv: map<ReviewId, Review>, n: ReviewId)
    requires Consistent(bs, ps, rv, n)
    requires |bs'| >= |bs| && NoActiveOverlap(bs')
    ensures Consistent(bs', ps, rv, n)
  {
  }

  /** Moving a booking out of ACTIVE keeps the store consistent. */
  lemma SetBookingStatus(bs: seq<Booking>, ps: seq<Payment>, rv: map<ReviewId, Review>, n: ReviewId, i: int, status: BookingStatus)
    requires Consistent(bs, ps, rv, n)
    requires 0 <= i < |bs| && status != Active
    ensures Consistent(bs[i := bs[i].(status := status)], ps, rv, n)
  {
    LeaveActiveKeepsNoOverlap(bs, i, status);
  }

  /** Payments whose links all point at stored bookings keep the store
      consistent. */
  lemma ReplacePayments(bs: seq<Booking>, ps: seq<Payment>, ps': seq<Payment>, rv: map<ReviewId, Review>, n: ReviewId)
    requires Consistent(bs, ps, rv, n)
    requires forall i :: 0 <= i < |ps'| && ps'[i].booking.Some? ==> ps'[i].booking.value < |bs|
    ensures Consistent(bs, ps', rv, n)
  {
  }

  class Db {
    var vehicles: seq<Vehicle>
    var bookings: seq<Booking>
    var payments: seq<Payment>
    var reviews: map<ReviewId, Review>
    var nextReviewId: ReviewId
    var inquiries: seq<Inquiry>

    /** The store's invariant. It reads only the collections it speaks of, so
        a handler that writes vehicles or inquiries keeps it untouched. */
    ghost predicate Valid()
      reads this`bookings, this`payments, this`reviews, this`nextReviewId
    {
      Consistent(bookings, payments, reviews, nextReviewId)
    }

    constructor ()
      ensures Valid()
      ensures vehicles == [] && bookings == [] && payments == [] && inquiries == []
      ensures reviews == map[] && nextReviewId == 0
    {
      vehicles, bookings, payments, inquiries := [], [], [], [];
      reviews, nextReviewId := map[], 0;
    }
  }
}
