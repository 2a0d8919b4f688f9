/** The filters the booking getters share (bookingController.js,
    bookingViewController.js and historyController.js): an optional exact
    status, an inclusive window on the start date, and a case-insensitive
    search of the booked vehicle's make and model. A query string left empty
    stands for a parameter the request does not carry, since the handlers
    test each one for truthiness. */
module BookingQueries {
  import opened Common
  import opened Models

  /** `if (status) query.status = status`: an empty status keeps every booking,
      any other keeps the bookings stored with exactly that status string. */
  predicate StatusMatches(b: Booking, status: string) {
    status == "" || BookingStatusName(b.status) == status
  }

  /** The status filter is exact: naming a status keeps precisely the bookings
      in it, and a string naming no status keeps none. */
  lemma StatusMatchesExact(b: Booking, status: string)
    ensures forall st :: status == BookingStatusName(st) ==> (StatusMatches(b, status) <==> b.status == st)
    ensures status != "" && (forall st :: status != BookingStatusName(st)) ==> !StatusMatches(b, status)
  {
  }

  /** `startDate: { $gte: from, $lte: to }` on the booking's start. */
  predicate StartsInWindow(b: Booking, from: Option<int>, to: Option<int>) {
    InWindow(b.startDate, from, to)
  }

  /** The post-query `search` filter: the booking's vehicle is found and its
      lowercased make or model contains the lowercased keyword. */
  predicate MatchesSearch(b: Booking, vehicles: seq<Vehicle>, search: string) {
    search == ""
    || (b.vehicle < |vehicles|
        && var keyword := Lower(search);
        Includes(Lower(vehicles[b.vehicle].make), keyword) || Includes(Lower(vehicles[b.vehicle].model), keyword))
  }

  /** Lowercasing twice is lowercasing once. */
  lemma LowerIdempotent(s: string)
    ensures Lower(Lower(s)) == Lower(s)
  {
    assert forall i :: 0 <= i < |s| ==> LowerChar(LowerChar(s[i])) == LowerChar(s[i]);
  }

  /** The search ignores the case of the keyword: two keywords that lowercase
      to the same string keep the same bookings, and so do a keyword and its
      lowercase form. */
  lemma SearchIgnoresCase(b: Booking, vehicles: seq<Vehicle>, search: string, search': string)
    requires Lower(search) == Lower(search')
    ensures MatchesSearch(b, vehicles, search) <==> MatchesSearch(b, vehicles, search')
    ensures MatchesSearch(b, vehicles, search) <==> MatchesSearch(b, vehicles, Lower(search))
  {
    LowerIdempotent(search);
    assert |search| == |Lower(search)| == |search'|;
  }

  /** The query parameters of the booking getters. */
  datatype BookingQuery = BookingQuery(status: string, from: Option<int>, to: Option<int>, search: string)

  /** Status, start-date window and search together. */
  predicate QueryMatches(b: Booking, vehicles: seq<Vehicle>, q: BookingQuery) {
    StatusMatches(b, q.status) && StartsInWindow(b, q.from, q.to) && MatchesSearch(b, vehicles, q.search)
  }
}
