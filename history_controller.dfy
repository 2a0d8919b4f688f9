/** The rental-history getters of server/controllers/historyController.js,
    reached through server/routes/historyRoutes.js, whose per-route guard
    answers 403 to the wrong role before the handler runs. Each handler first
    completes the expired bookings with one bulk update, then lists
    COMPLETED bookings under an inclusive start-date window and the
    make/model search. */
module HistoryController {
  import opened Common
  import opened Models
  import opened Store
  import opened BookingQueries
  import opened AutoCompleteExpiredBookings

  /** `completeExpiredBookings`: `Booking.updateMany({ status: "ACTIVE",
      endDate: { $lt: now } }, { status: "COMPLETED" })`, the same change as
      the per-record sweep, in one step. */
  method CompleteExpiredBookings(db: Db, now: int)
    requires db.Valid()
    modifies db`bookings
    ensures db.Valid()
    ensures db.bookings == CompleteExpired(old(db.bookings), now)
  {
    CompleteExpiredKeepsNoOverlap(db.bookings, now);
    ReplaceBookings(db.bookings, CompleteExpired(db.bookings, now), db.payments, db.reviews, db.nextReviewId);
    db.bookings := CompleteExpired(db.bookings, now);
  }

  /** The history parameters: the start-date window and the search. */
  datatype HistoryQuery = HistoryQuery(from: Option<int>, to: Option<int>, search: string)

  /** A COMPLETED booking inside the window that passes the search. */
  predicate InHistory(b: Booking, vehicles: seq<Vehicle>, q: HistoryQuery) {
    b.status == Completed && StartsInWindow(b, q.from, q.to) && MatchesSearch(b, vehicles, q.search)
  }

  /** `getRenterHistory`'s query: the caller's COMPLETED bookings. */
  function RenterHistory(bookings: seq<Booking>, vehicles: seq<Vehicle>, renter: UserId, q: HistoryQuery): (r: seq<BookingId>)
    ensures forall k :: k in r <==> 0 <= k < |bookings| && bookings[k].renter == renter && InHistory(bookings[k], vehicles, q)
  {
    Select(bookings, (b: Booking) => b.renter == renter && InHistory(b, vehicles, q))
  }

  /** `getOwnerHistory`'s query: COMPLETED bookings whose vehicle, once
      populated with `match: { ownerId }`, is found and owned by the caller. */
  function OwnerHistory(bookings: seq<Booking>, vehicles: seq<Vehicle>, owner: UserId, q: HistoryQuery): (r: seq<BookingId>)
    ensures forall k :: k in r <==>
      0 <= k < |bookings| && bookings[k].vehicle < |vehicles| && vehicles[bookings[k].vehicle].ownerId == owner
      && InHistory(bookings[k], vehicles, q)
  {
    Select(bookings, (b: Booking) => b.vehicle < |vehicles| && vehicles[b.vehicle].ownerId == owner && InHistory(b, vehicles, q))
  }

  /** `getAdminHistory`'s query: every COMPLETED booking. */
  function AdminHistory(bookings: seq<Booking>, vehicles: seq<Vehicle>, q: HistoryQuery): (r: seq<BookingId>)
    ensures forall k :: k in r <==> 0 <= k < |bookings| && InHistory(bookings[k], vehicles, q)
  {
    Select(bookings, (b: Booking) => InHistory(b, vehicles, q))
  }

  /** The three histories agree: a renter's and an owner's histories are
      parts of the administrator's. */
  lemma HistoriesArePartsOfAdmin(bookings: seq<Booking>, vehicles: seq<Vehicle>, user: UserId, q: HistoryQuery)
    ensures forall k :: k in RenterHistory(bookings, vehicles, user, q) ==> k in AdminHistory(bookings, vehicles, q)
    ensures forall k :: k in OwnerHistory(bookings, vehicles, user, q) ==> k in AdminHistory(bookings, vehicles, q)
  {
  }

  /** Nothing a history lists after the bulk update is ACTIVE: every listed
      booking is COMPLETED, and every booking that was ACTIVE with an end
      before `now`, and passes the window and search, is listed. */
  lemma {:induction false} AdminHistoryAfterSweep(bookings: seq<Booking>, vehicles: seq<Vehicle>, q: HistoryQuery, now: int, k: int)
    requires 0 <= k < |bookings| && Expired(bookings[k], now)
    requires StartsInWindow(bookings[k], q.from, q.to) && MatchesSearch(bookings[k], vehicles, q.search)
    ensures k in AdminHistory(CompleteExpired(bookings, now), vehicles, q)
  {
  }

  /** `GET /history/renter`: the route's role guard, the bulk update, then
      the query. A caller of another role is refused before anything is
      written. */
  method GetRenterHistory(db: Db, user: User, q: HistoryQuery, now: int) returns (r: Response<seq<BookingId>>)
    requires db.Valid()
    modifies db`bookings
    ensures db.Valid()
    ensures user.role != Renter ==> r == Err(FORBIDDEN, "Access denied") && db.bookings == old(db.bookings)
    ensures user.role == Renter ==>
      && db.bookings == CompleteExpired(old(db.bookings), now)
      && r == Ok(OK, RenterHistory(db.bookings, db.vehicles, user.id, q))
  {
    if user.role != Renter {
      return Err(FORBIDDEN, "Access denied");
    }
    CompleteExpiredBookings(db, now);
    r := Ok(OK, RenterHistory(db.bookings, db.vehicles, user.id, q));
  }

  /** `GET /history/owner`. */
  method GetOwnerHistory(db: Db, user: User, q: HistoryQuery, now: int) returns (r: Response<seq<BookingId>>)
    requires db.Valid()
    modifies db`bookings
    ensures db.Valid()
    ensures user.role != Owner ==> r == Err(FORBIDDEN, "Access denied") && db.bookings == old(db.bookings)
    ensures user.role == Owner ==>
      && db.bookings == CompleteExpired(old(db.bookings), now)
      && r == Ok(OK, OwnerHistory(db.bookings, db.vehicles, user.id, q))
  {
    if user.role != Owner {
      return Err(FORBIDDEN, "Access denied");
    }
    CompleteExpiredBookings(db, now);
    r := Ok(OK, OwnerHistory(db.bookings, db.vehicles, user.id, q));
  }

  /** `GET /history/admin`. */
  method GetAdminHistory(db: Db, user: User, q: HistoryQuery, now: int) returns (r: Response<seq<BookingId>>)
    requires db.Valid()
    modifies db`bookings
    ensures db.Valid()
    ensures user.role != Admin ==> r == Err(FORBIDDEN, "Access denied") && db.bookings == old(db.bookings)
    ensures user.role == Admin ==>
      && db.bookings == CompleteExpired(old(db.bookings), now)
      && r == Ok(OK, AdminHistory(db.bookings, db.vehicles, q))
  {
    if user.role != Admin {
      return Err(FORBIDDEN, "Access denied");
    }
    CompleteExpiredBookings(db, now);
    r := Ok(OK, AdminHistory(db.bookings, db.vehicles, q));
  }
}
