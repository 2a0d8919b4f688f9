/** The booking handlers of server/controllers/bookingController.js: the
    disabled direct booking, a renter's cancellation, an administrator's
    completion, and the two getters that first run the expiry sweep. */
module BookingController {
  import opened Common
  import opened Models
  import opened Store
  import opened BookingQueries
  import opened AutoCompleteExpiredBookings

  /** `createBooking`: bookings are only made by a verified payment, so the
      direct route is gone for every caller. */
  function CreateBooking(user: User): (r: Response<()>)
    ensures r.Err? && r.status == GONE && r.message == "Direct booking is disabled"
  {
    Err(GONE, "Direct booking is disabled")
  }

  /** `cancelBooking`: renters only; the booking must be found, ACTIVE and the
      caller's, checked in that order. No date restriction applies. The one
      change is that booking's status, to CANCELLED. */
  method CancelBooking(db: Db, user: User, id: BookingId) returns (r: Response<string>)
    requires db.Valid()
    modifies db`bookings
    ensures db.Valid()
    ensures user.role != Renter ==> r == Err(FORBIDDEN, "Access denied")
    ensures user.role == Renter && id >= |old(db.bookings)| ==> r == Err(NOT_FOUND, "Booking not found")
    ensures user.role == Renter && id < |old(db.bookings)| && old(db.bookings)[id].status != Active ==>
      r == Err(BAD_REQUEST, "Only active bookings can be cancelled")
    ensures (user.role == Renter && id < |old(db.bookings)| && old(db.bookings)[id].status == Active
             && old(db.bookings)[id].renter != user.id) ==> r == Err(FORBIDDEN, "Unauthorized")
    ensures r.Ok? <==>
      (user.role == Renter && id < |old(db.bookings)| && old(db.bookings)[id].status == Active
       && old(db.bookings)[id].renter == user.id)
    ensures r.Ok? ==>
      && r == Ok(OK, "Booking cancelled successfully")
      && db.bookings == old(db.bookings)[id := old(db.bookings)[id].(status := Cancelled)]
    ensures r.Err? ==> db.bookings == old(db.bookings)
  {
    if user.role != Renter {
      return Err(FORBIDDEN, "Access denied");
    }
    if id >= |db.bookings| {
      return Err(NOT_FOUND, "Booking not found");
    }
    var booking := db.bookings[id];
    if booking.status != Active {
      return Err(BAD_REQUEST, "Only active bookings can be cancelled");
    }
    if booking.renter != user.id {
      return Err(FORBIDDEN, "Unauthorized");
    }
    SetBookingStatus(db.bookings, db.payments, db.reviews, db.nextReviewId, id, Cancelled);
    db.bookings := db.bookings[id := booking.(status := Cancelled)];
    r := Ok(OK, "Booking cancelled successfully");
  }

  /** `completeBooking`: administrators only; a found booking becomes
      COMPLETED whatever its status. The notification needs the renter's
      address, so when the renter's account is gone the handler fails with
      500 after the status has been saved. */
  method CompleteBooking(db: Db, user: User, id: BookingId, userExists: UserId -> bool) returns (r: Response<string>)
    requires db.Valid()
    modifies db`bookings
    ensures db.Valid()
    ensures user.role != Admin ==> r == Err(FORBIDDEN, "Access denied") && db.bookings == old(db.bookings)
    ensures user.role == Admin && id >= |old(db.bookings)| ==>
      r == Err(NOT_FOUND, "Booking not found") && db.bookings == old(db.bookings)
    ensures user.role == Admin && id < |old(db.bookings)| ==>
      && db.bookings == old(db.bookings)[id := old(db.bookings)[id].(status := Completed)]
      && r == (if userExists(old(db.bookings)[id].renter) then Ok(OK, "Booking marked as completed")
               else Err(SERVER_ERROR, "Completion failed"))
  {
    if user.role != Admin {
      return Err(FORBIDDEN, "Access denied");
    }
    if id >= |db.bookings| {
      return Err(NOT_FOUND, "Booking not found");
    }
    var booking := db.bookings[id];
    SetBookingStatus(db.bookings, db.payments, db.reviews, db.nextReviewId, id, Completed);
    db.bookings := db.bookings[id := booking.(status := Completed)];
    if !userExists(booking.renter) {
      return Err(SERVER_ERROR, "Completion failed");
    }
    r := Ok(OK, "Booking marked as completed");
  }

  /** The query of `getMyBookings` once the sweep has run: renters only; the
      caller's bookings under the optional status, the inclusive start-date
      window and the search. */
  function MyBookings(bookings: seq<Booking>, vehicles: seq<Vehicle>, user: User, q: BookingQuery): (r: Response<seq<BookingId>>)
    ensures user.role != Renter ==> r == Err(FORBIDDEN, "Access denied")
    ensures user.role == Renter ==> r.Ok? && r.status == OK
    ensures r.Ok? ==> forall k :: k in r.value <==>
      0 <= k < |bookings| && bookings[k].renter == user.id && QueryMatches(bookings[k], vehicles, q)
  {
    if user.role != Renter then Err(FORBIDDEN, "Access denied")
    else Ok(OK, Select(bookings, (b: Booking) => b.renter == user.id && QueryMatches(b, vehicles, q)))
  }

  /** `getMyBookings`: the sweep runs first, for every caller, and only then
      the role check and the query; so nothing it returns is ACTIVE with an
      end before `now`. */
  method GetMyBookings(db: Db, user: User, q: BookingQuery, now: int, userExists: UserId -> bool) returns (r: Response<seq<BookingId>>)
    requires db.Valid()
    modifies db`bookings
    ensures db.Valid()
    ensures db.bookings == CompleteExpired(old(db.bookings), now)
    ensures r == MyBookings(db.bookings, db.vehicles, user, q)
    ensures r.Ok? ==> forall k :: k in r.value ==> k < |db.bookings| && !Expired(db.bookings[k], now)
  {
    var _ := AutoCompleteExpired(db, now, userExists);
    r := MyBookings(db.bookings, db.vehicles, user, q);
    CompleteExpiredLeavesNoExpired(old(db.bookings), now);
  }

  /** The query of this file's `getOwnerBookings` once the sweep has run:
      owners only; the bookings of the vehicles `owned` selects, under the
      search. Which vehicles the lookup `Vehicle.find({ owner })` selects is
      not specified (the schema's field is `ownerId`), so `owned` is given. */
  function OwnerBookings(bookings: seq<Booking>, vehicles: seq<Vehicle>, user: User, owned: set<VehicleId>, search: string): (r: Response<seq<BookingId>>)
    ensures user.role != Owner ==> r == Err(FORBIDDEN, "Access denied")
    ensures user.role == Owner ==> r.Ok? && r.status == OK
    ensures r.Ok? ==> forall k :: k in r.value <==>
      0 <= k < |bookings| && bookings[k].vehicle in owned && MatchesSearch(bookings[k], vehicles, search)
  {
    if user.role != Owner then Err(FORBIDDEN, "Access denied")
    else Ok(OK, Select(bookings, (b: Booking) => b.vehicle in owned && MatchesSearch(b, vehicles, search)))
  }

  /** `getOwnerBookings` of bookingController.js: the sweep, then the role
      check and the query. */
  method GetOwnerBookings(db: Db, user: User, owned: set<VehicleId>, search: string, now: int, userExists: UserId -> bool) returns (r: Response<seq<BookingId>>)
    requires db.Valid()
    modifies db`bookings
    ensures db.Valid()
    ensures db.bookings == CompleteExpired(old(db.bookings), now)
    ensures r == OwnerBookings(db.bookings, db.vehicles, user, owned, search)
  {
    var _ := AutoCompleteExpired(db, now, userExists);
    r := OwnerBookings(db.bookings, db.vehicles, user, owned, search);
  }
}
