/** The booking views of server/controllers/bookingViewController.js. They
    only read: neither runs the expiry sweep. */
module BookingViewController {
  import opened Common
  import opened Models
  import opened BookingQueries

  /** `getAllBookingsAdmin`: administrators only; every booking under the
      optional status, the inclusive start-date window and the search. */
  function GetAllBookingsAdmin(bookings: seq<Booking>, vehicles: seq<Vehicle>, user: User, q: BookingQuery): (r: Response<seq<BookingId>>)
    ensures user.role != Admin ==> r == Err(FORBIDDEN, "Access denied")
    ensures user.role == Admin ==> r.Ok? && r.status == OK
    ensures r.Ok? ==> forall k :: k in r.value <==> 0 <= k < |bookings| && QueryMatches(bookings[k], vehicles, q)
  {
    if user.role != Admin then Err(FORBIDDEN, "Access denied")
    else Ok(OK, Select(bookings, (b: Booking) => QueryMatches(b, vehicles, q)))
  }

  /** With no parameter set the administrator sees every booking. */
  lemma AdminViewUnfilteredIsAll(bookings: seq<Booking>, vehicles: seq<Vehicle>, user: User)
    requires user.role == Admin
    ensures forall k :: 0 <= k < |bookings| ==>
      k in GetAllBookingsAdmin(bookings, vehicles, user, BookingQuery("", None, None, "")).value
  {
  }

  /** `getOwnerBookings` of bookingViewController.js: owners only; the
      bookings whose vehicle has the caller as `ownerId`, under the optional
      status and the search (no date window). */
  function GetOwnerBookings(bookings: seq<Booking>, vehicles: seq<Vehicle>, user: User, status: string, search: string): (r: Response<seq<BookingId>>)
    ensures user.role != Owner ==> r == Err(FORBIDDEN, "Access denied")
    ensures user.role == Owner ==> r.Ok? && r.status == OK
    ensures r.Ok? ==> forall k :: k in r.value <==>
      0 <= k < |bookings| && bookings[k].vehicle < |vehicles| && vehicles[bookings[k].vehicle].ownerId == user.id
      && StatusMatches(bookings[k], status) && MatchesSearch(bookings[k], vehicles, search)
  {
    if user.role != Owner then Err(FORBIDDEN, "Access denied")
    else
      Ok(OK, Select(bookings, (b: Booking) =>
        b.vehicle < |vehicles| && vehicles[b.vehicle].ownerId == user.id
        && StatusMatches(b, status) && MatchesSearch(b, vehicles, search)))
  }

  /** The owner's view is the part of the administrator's view with the same
      status and search over the owner's vehicles. */
  lemma {:induction false} OwnerViewWithinAdminView(bookings: seq<Booking>, vehicles: seq<Vehicle>, owner: User, admin: User, status: string, search: string)
    requires owner.role == Owner && admin.role == Admin
    ensures forall k :: k in GetOwnerBookings(bookings, vehicles, owner, status, search).value ==>
      k in GetAllBookingsAdmin(bookings, vehicles, admin, BookingQuery(status, None, None, search)).value
  {
    var mine := GetOwnerBookings(bookings, vehicles, owner, status, search).value;
    var all := GetAllBookingsAdmin(bookings, vehicles, admin, BookingQuery(status, None, None, search)).value;
    forall k | k in mine ensures k in all {
      assert QueryMatches(bookings[k], vehicles, BookingQuery(status, None, None, search));
    }
  }
}
