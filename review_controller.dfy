/** The review rules of server/controllers/reviewController.js over the
    schema of server/models/Review.js: a renter reviews one of their own
    COMPLETED bookings at most once; the public listing hides what an
    administrator hid; administrators hide, unhide and delete. */
module ReviewController {
  import opened Common
  import opened Models
  import opened Store

  /** `Review.findOne({ bookingId })` finds a review. */
  predicate HasReviewFor(reviews: map<ReviewId, Review>, booking: BookingId) {
    exists k :: k in reviews && reviews[k].bookingId == booking
  }

  /** The fields of the request body; a field the body leaves out is `None`. */
  datatype ReviewRequest = ReviewRequest(bookingId: Option<BookingId>, rating: Option<int>, comment: Option<string>)

  /** `!bookingId || !rating`: a missing field, or a rating of 0, is absent. */
  predicate MissingFields(q: ReviewRequest) {
    q.bookingId.None? || q.rating.None? || q.rating.value == 0
  }

  /** The review `Review.create` stores: `trim` runs on the comment, and
      `isHidden` takes its default, false. */
  function NewReview(booking: Booking, renter: UserId, bookingId: BookingId, rating: int, comment: Option<string>, now: int): (rv: Review)
    ensures rv.vehicleId == booking.vehicle && rv.renterId == renter && rv.bookingId == bookingId
    ensures rv.rating == rating && !rv.isHidden
    ensures comment.Some? ==> rv.comment == Some(Trim(comment.value))
    ensures comment.None? ==> rv.comment.None?
  {
    Review(booking.vehicle, renter, bookingId, rating, if comment.Some? then Some(Trim(comment.value)) else None, false, now)
  }

  /** `addReview`. The guards run in this order: renters only (403), both
      fields present (400), the booking found (404), the caller's own
      booking (403), COMPLETED (400), not yet reviewed (400). A rating outside
      1..5 then fails the schema's validation, answered with 500. Otherwise
      the review is stored under a fresh id, answered with 201. */
  method AddReview(db: Db, user: User, q: ReviewRequest, now: int) returns (r: Response<ReviewId>)
    requires db.Valid()
    modifies db`reviews, db`nextReviewId
    ensures db.Valid()
    ensures user.role != Renter ==> r == Err(FORBIDDEN, "Only renters can add reviews")
    ensures user.role == Renter && MissingFields(q) ==> r == Err(BAD_REQUEST, "bookingId and rating are required")
    ensures user.role == Renter && !MissingFields(q) ==>
      var id := q.bookingId.value;
      && (id >= |old(db.bookings)| ==> r == Err(NOT_FOUND, "Booking not found"))
      && (id < |old(db.bookings)| && old(db.bookings)[id].renter != user.id ==>
            r == Err(FORBIDDEN, "You can review only your own booking"))
      && (id < |old(db.bookings)| && old(db.bookings)[id].renter == user.id && old(db.bookings)[id].status != Completed ==>
            r == Err(BAD_REQUEST, "Review allowed only after booking completion"))
      && (id < |old(db.bookings)| && old(db.bookings)[id].renter == user.id && old(db.bookings)[id].status == Completed ==>
            && (HasReviewFor(old(db.reviews), id) ==> r == Err(BAD_REQUEST, "Review already submitted for this booking"))
            && (!HasReviewFor(old(db.reviews), id) && !ValidRating(q.rating.value) ==> r.Err? && r.status == SERVER_ERROR))
    ensures r.Ok? <==>
      (&& user.role == Renter && !MissingFields(q) && q.bookingId.value < |old(db.bookings)|
       && old(db.bookings)[q.bookingId.value].renter == user.id
       && old(db.bookings)[q.bookingId.value].status == Completed
       && !HasReviewFor(old(db.reviews), q.bookingId.value) && ValidRating(q.rating.value))
    ensures r.Ok? ==>
      && r == Ok(CREATED, old(db.nextReviewId))
      && db.reviews == old(db.reviews)[old(db.nextReviewId) :=
           NewReview(old(db.bookings)[q.bookingId.value], user.id, q.bookingId.value, q.rating.value, q.comment, now)]
      && db.nextReviewId == old(db.nextReviewId) + 1
    ensures r.Err? ==> db.reviews == old(db.reviews) && db.nextReviewId == old(db.nextReviewId)
  {
    if user.role != Renter {
      return Err(FORBIDDEN, "Only renters can add reviews");
    }
    if q.bookingId.None? || q.rating.None? || q.rating.value == 0 {
      return Err(BAD_REQUEST, "bookingId and rating are required");
    }
    var id := q.bookingId.value;
    if id >= |db.bookings| {
      return Err(NOT_FOUND, "Booking not found");
    }
    var booking := db.bookings[id];
    if booking.renter != user.id {
      return Err(FORBIDDEN, "You can review only your own booking");
    }
    if booking.status != Completed {
      return Err(BAD_REQUEST, "Review allowed only after booking completion");
    }
    if HasReviewFor(db.reviews, id) {
      return Err(BAD_REQUEST, "Review already submitted for this booking");
    }
    if !ValidRating(q.rating.value) {
      return Err(SERVER_ERROR, "Review validation failed: rating");
    }
    var review := NewReview(booking, user.id, id, q.rating.value, q.comment, now);
    r := Ok(CREATED, db.nextReviewId);
    db.reviews := db.reviews[db.nextReviewId := review];
    db.nextReviewId := db.nextReviewId + 1;
  }

  /** Storing a review makes its booking reviewed, so a second `addReview`
      for the same booking is refused with 400. */
  lemma AddedReviewBlocksSecond(reviews: map<ReviewId, Review>, k: ReviewId, rv: Review)
    ensures HasReviewFor(reviews[k := rv], rv.bookingId)
  {
    assert k in reviews[k := rv];
  }

  /** The public listing of a vehicle's reviews. */
  datatype ReviewQuery = ReviewQuery(minRating: Option<int>, search: Option<string -> bool>)

  /** `getVehicleReviews`'s filter: the vehicle's reviews that are not hidden,
      with `rating >= minRating` when one is given, and whose comment the
      search pattern matches when one is given (a review without a comment
      never matches a pattern). */
  predicate Listed(rv: Review, vehicle: VehicleId, q: ReviewQuery) {
    && rv.vehicleId == vehicle
    && !rv.isHidden
    && (q.minRating.None? || rv.rating >= q.minRating.value)
    && (q.search.None? || (rv.comment.Some? && q.search.value(rv.comment.value)))
  }

  function GetVehicleReviews(reviews: map<ReviewId, Review>, vehicle: VehicleId, q: ReviewQuery): (r: set<ReviewId>)
    ensures forall k :: k in r <==> k in reviews && Listed(reviews[k], vehicle, q)
    ensures forall k :: k in r ==> !reviews[k].isHidden && reviews[k].vehicleId == vehicle
  {
    set k | k in reviews && Listed(reviews[k], vehicle, q)
  }

  /** `getAllReviewsForAdmin`: administrators only; every review, hidden or
      not. */
  function GetAllReviewsForAdmin(reviews: map<ReviewId, Review>, user: User): (r: Response<set<ReviewId>>)
    ensures user.role != Admin ==> r == Err(FORBIDDEN, "Access denied")
    ensures user.role == Admin ==> r == Ok(OK, reviews.Keys)
  {
    if user.role != Admin then Err(FORBIDDEN, "Access denied") else Ok(OK, reviews.Keys)
  }

  /** `isHidden` of one review set to `hidden`, every other field and review
      as it was. */
  function SetHidden(reviews: map<ReviewId, Review>, id: ReviewId, hidden: bool): (r: map<ReviewId, Review>)
    requires id in reviews
    ensures r.Keys == reviews.Keys
    ensures r[id] == reviews[id].(isHidden := hidden)
    ensures forall k :: k in reviews && k != id ==> r[k] == reviews[k]
  {
    reviews[id := reviews[id].(isHidden := hidden)]
  }

  /** Hiding or unhiding twice is doing it once, and unhiding a review hid
      with nothing else changed restores the review. */
  lemma SetHiddenIdempotent(reviews: map<ReviewId, Review>, id: ReviewId, hidden: bool)
    requires id in reviews
    ensures SetHidden(SetHidden(reviews, id, hidden), id, hidden) == SetHidden(reviews, id, hidden)
    ensures !reviews[id].isHidden ==> SetHidden(SetHidden(reviews, id, true), id, false) == reviews
  {
  }

  /** A hidden review leaves the public listing, and unhiding it brings it
      back. */
  lemma {:induction false} HideRemovesFromListing(reviews: map<ReviewId, Review>, id: ReviewId, vehicle: VehicleId, q: ReviewQuery)
    requires id in reviews
    ensures id !in GetVehicleReviews(SetHidden(reviews, id, true), vehicle, q)
    ensures Listed(reviews[id].(isHidden := false), vehicle, q) ==> id in GetVehicleReviews(SetHidden(reviews, id, false), vehicle, q)
  {
    var hidden := SetHidden(reviews, id, true);
    assert hidden[id].isHidden;
  }

  /** `hideReview` (`hidden` true) and `unhideReview` (`hidden` false):
      administrators only; a found review gets the flag, nothing else
      changes. */
  method SetReviewHidden(db: Db, user: User, id: ReviewId, hidden: bool) returns (r: Response<string>)
    requires db.Valid()
    modifies db`reviews
    ensures db.Valid()
    ensures user.role != Admin ==> r == Err(FORBIDDEN, "Access denied") && db.reviews == old(db.reviews)
    ensures user.role == Admin && id !in old(db.reviews) ==>
      r == Err(NOT_FOUND, "Review not found") && db.reviews == old(db.reviews)
    ensures user.role == Admin && id in old(db.reviews) ==>
      && r == Ok(OK, if hidden then "Review hidden successfully" else "Review unhidden successfully")
      && db.reviews == SetHidden(old(db.reviews), id, hidden)
  {
    if user.role != Admin {
      return Err(FORBIDDEN, "Access denied");
    }
    if id !in db.reviews {
      return Err(NOT_FOUND, "Review not found");
    }
    db.reviews := SetHidden(db.reviews, id, hidden);
    r := Ok(OK, if hidden then "Review hidden successfully" else "Review unhidden successfully");
  }

  /** `deleteReview`: administrators only; a found review is removed. */
  method DeleteReview(db: Db, user: User, id: ReviewId) returns (r: Response<string>)
    requires db.Valid()
    modifies db`reviews
    ensures db.Valid()
    ensures user.role != Admin ==> r == Err(FORBIDDEN, "Access denied") && db.reviews == old(db.reviews)
    ensures user.role == Admin && id !in old(db.reviews) ==>
      r == Err(NOT_FOUND, "Review not found") && db.reviews == old(db.reviews)
    ensures user.role == Admin && id in old(db.reviews) ==>
      r == Ok(OK, "Review deleted successfully") && db.reviews == old(db.reviews) - {id}
  {
    if user.role != Admin {
      return Err(FORBIDDEN, "Access denied");
    }
    if id !in db.reviews {
      return Err(NOT_FOUND, "Review not found");
    }
    db.reviews := db.reviews - {id};
    r := Ok(OK, "Review deleted successfully");
  }
}
