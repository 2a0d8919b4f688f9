/** The bookings table of the dashboards, client/src/hooks/useVehicleBookings.js:
    the endpoint each role reads, the renter's rental history, the owner's
    booking-to-amount map, the status filter and the pagination, and the
    administrator's CSV export. The server's answers are parameters. */
module VehicleBookings {
  import opened Common
  import opened Pagination
  import opened ExportCsv

  /** A booking as the table receives it, with its vehicle and renter
      populated; a missing populated field is the empty string, and the
      dates are already formatted. */
  datatype ListedBooking = ListedBooking(
    id: string, status: string, make: string, model: string, fuelType: string,
    kilometersDriven: string, startDate: string, endDate: string,
    renterName: string, renterEmail: string)

  /** The endpoint `fetchBookings` reads for the caller's role (`user?.role`);
      no known role leaves the empty URL. */
  function BookingsUrl(role: Option<Role>): (url: string)
    ensures role == Some(Renter) ==> url == "/bookings/my"
    ensures role == Some(Owner) ==> url == "/bookings/view/owner"
    ensures role == Some(Admin) ==> url == "/bookings/view/admin"
    ensures role.None? || role.value.Unrecognised? ==> url == ""
  {
    var url := "";
    var url := if role == Some(Renter) then "/bookings/my" else url;
    var url := if role == Some(Owner) then "/bookings/view/owner" else url;
    if role == Some(Admin) then "/bookings/view/admin" else url
  }

  /** The rental-history page: a renter on a path under
      /dashboard/renter/rentals. */
  predicate IsRenterHistory(role: Option<Role>, pathname: string) {
    role == Some(Renter) && Includes(pathname, "/dashboard/renter/rentals")
  }

  /** `s.filter(keep)`: the kept elements, in order. Its `j`-th element is
      the element at the `j`-th position `Select` picks, so the order and
      every kept occurrence are preserved. */
  function Filter<T(!new)>(s: seq<T>, keep: T -> bool): (r: seq<T>)
    ensures |r| == |Select(s, keep)| && |r| <= |s|
    ensures forall j :: 0 <= j < |r| ==> r[j] == s[Select(s, keep)[j]]
    ensures forall x :: x in r <==> x in s && keep(x)
    ensures (forall x :: x in s ==> keep(x)) ==> r == s
  {
    if s == [] then []
    else
      var init := s[..|s| - 1];
      var prev := Filter(init, keep);
      assert forall x :: x in s <==> x == s[|s| - 1] || x in init;
      assert forall k :: 0 <= k < |init| ==> init[k] == s[k];
      assert s == init + [s[|s| - 1]];
      if keep(s[|s| - 1]) then prev + [s[|s| - 1]] else prev
  }

  /** The rental-history page's filter. */
  predicate IsCompleted(b: ListedBooking) {
    b.status == "COMPLETED"
  }

  /** The status filter's test for one status. */
  function HasStatus(status: string): ListedBooking -> bool {
    (b: ListedBooking) => b.status == status
  }

  /** The bookings the table holds after a fetch: on the rental-history page
      only the COMPLETED ones of the answer, in the answer's order and with
      every occurrence; elsewhere the whole answer. */
  function TableData(answer: seq<ListedBooking>, role: Option<Role>, pathname: string): (r: seq<ListedBooking>)
    ensures IsRenterHistory(role, pathname) ==> forall b :: b in r <==> b in answer && b.status == "COMPLETED"
    ensures IsRenterHistory(role, pathname) ==>
      var picked := Select(answer, IsCompleted);
      |r| == |picked| && forall j :: 0 <= j < |r| ==> r[j] == answer[picked[j]]
    ensures !IsRenterHistory(role, pathname) ==> r == answer
  {
    if IsRenterHistory(role, pathname) then Filter(answer, IsCompleted) else answer
  }

  /** The status filter: "ALL" keeps every booking, any other value the
      bookings with exactly that status, in the table's order and with every
      occurrence. */
  function FilteredBookings(bookings: seq<ListedBooking>, statusFilter: string): (r: seq<ListedBooking>)
    ensures statusFilter == "ALL" ==> r == bookings
    ensures statusFilter != "ALL" ==> forall b :: b in r <==> b in bookings && b.status == statusFilter
    ensures statusFilter != "ALL" ==>
      var picked := Select(bookings, HasStatus(statusFilter));
      |r| == |picked| && forall j :: 0 <= j < |r| ==> r[j] == bookings[picked[j]]
  {
    if statusFilter == "ALL" then bookings else Filter(bookings, HasStatus(statusFilter))
  }

  /** The page the table shows: the filtered bookings, paginated. */
  function ShownPage(bookings: seq<ListedBooking>, statusFilter: string, currentPage: int, perPage: int): (r: Page<ListedBooking>)
    requires perPage >= 1
    ensures |r.paginatedItems| <= perPage
  {
    Paginate(FilteredBookings(bookings, statusFilter), currentPage, perPage)
  }

  /** Every booking the page shows is one of the table's, and has the
      filtered status unless the filter is "ALL". */
  lemma ShownPageMatchesFilter(bookings: seq<ListedBooking>, statusFilter: string, currentPage: int, perPage: int)
    requires perPage >= 1
    ensures forall b :: b in ShownPage(bookings, statusFilter, currentPage, perPage).paginatedItems ==> b in bookings
    ensures statusFilter != "ALL" ==>
      forall b :: b in ShownPage(bookings, statusFilter, currentPage, perPage).paginatedItems ==> b.status == statusFilter
  {
    var filtered := FilteredBookings(bookings, statusFilter);
    PageItemsInList(filtered, currentPage, perPage);
  }

  /** Paging through every page of the "ALL" filter shows every booking
      once, in order. */
  lemma AllPagesShowEverything(bookings: seq<ListedBooking>, perPage: int)
    requires perPage >= 1
    ensures Pages(FilteredBookings(bookings, "ALL"), perPage, ShownPage(bookings, "ALL", 1, perPage).totalPages) == bookings
  {
    PagesReassemble(bookings, perPage);
  }

  /** A payment of `GET /payments/owner`, reduced to what the map reads: its
      amount and its booking's id as a string, `None` when the payment has
      no booking and the empty string when the populated booking has no id. */
  datatype OwnerPayment = OwnerPayment(amount: int, booking: Option<string>)

  /** A payment enters the map when its amount and its booking are truthy
      and the booking's id is not empty. */
  predicate Counts(p: OwnerPayment) {
    p.amount != 0 && p.booking.Some? && p.booking.value != ""
  }

  /** The map after the payments in order: each counted payment writes its
      amount under its booking's id. */
  function PaymentMapOf(payments: seq<OwnerPayment>): map<string, int> {
    if payments == [] then map[]
    else
      var m := PaymentMapOf(payments[..|payments| - 1]);
      var p := payments[|payments| - 1];
      if Counts(p) then m[p.booking.value := p.amount] else m
  }

  /** The `forEach` of `fetchBookings` over the owner's payments. */
  method BuildPaymentMap(payments: seq<OwnerPayment>) returns (m: map<string, int>)
    ensures m == PaymentMapOf(payments)
  {
    m := map[];
    var i := 0;
    while i < |payments|
      invariant 0 <= i <= |payments|
      invariant m == PaymentMapOf(payments[..i])
    {
      var p := payments[i];
      assert payments[..i + 1][..i] == payments[..i];
      if p.amount != 0 && p.booking.Some? && p.booking.value != "" {
        m := m[p.booking.value := p.amount];
      }
      i := i + 1;
    }
    assert payments[..i] == payments;
  }

  /** The map holds a booking exactly when some counted payment names it. */
  lemma {:induction false} PaymentMapKeys(payments: seq<OwnerPayment>, id: string)
    ensures id in PaymentMapOf(payments) <==>
      exists i :: 0 <= i < |payments| && Counts(payments[i]) && payments[i].booking.value == id
    decreases |payments|
  {
    if payments != [] {
      var n := |payments| - 1;
      var init := payments[..n];
      PaymentMapKeys(init, id);
      var p := payments[n];
      if Counts(p) && p.booking.value == id {
        assert id in PaymentMapOf(payments);
      } else {
        assert id in PaymentMapOf(payments) <==> id in PaymentMapOf(init);
        if id in PaymentMapOf(init) {
          var i :| 0 <= i < n && Counts(init[i]) && init[i].booking.value == id;
          assert payments[i] == init[i];
        }
        if exists i :: 0 <= i < |payments| && Counts(payments[i]) && payments[i].booking.value == id {
          var i :| 0 <= i < |payments| && Counts(payments[i]) && payments[i].booking.value == id;
          assert i < n && init[i] == payments[i];
        }
      }
    }
  }

  /** The last counted payment of a booking decides its amount: a later
      payment overwrites an earlier one. */
  lemma {:induction false} PaymentMapLastWins(payments: seq<OwnerPayment>, id: string, i: int)
    requires 0 <= i < |payments| && Counts(payments[i]) && payments[i].booking.value == id
    requires forall j :: i < j < |payments| ==> !(Counts(payments[j]) && payments[j].booking.value == id)
    ensures id in PaymentMapOf(payments) && PaymentMapOf(payments)[id] == payments[i].amount
    decreases |payments|
  {
    var n := |payments| - 1;
    if i < n {
      var init := payments[..n];
      assert forall j :: i <= j < n ==> init[j] == payments[j];
      PaymentMapLastWins(init, id, i);
      assert !(Counts(payments[n]) && payments[n].booking.value == id);
    }
  }

  /** The header line of the administrator's export. */
  const EXPORT_HEADERS: seq<string> :=
    ["Vehicle", "Fuel Type", "Kilometers Driven", "Start Date", "End Date", "Status", "Renter Name", "Renter Email"]

  /** One exported line's fields. */
  function ExportRow(b: ListedBooking): (row: seq<string>)
    ensures |row| == |EXPORT_HEADERS|
  {
    [b.make + " " + b.model, b.fuelType, b.kilometersDriven, b.startDate, b.endDate, b.status, b.renterName, b.renterEmail]
  }

  /** `exportCSVFile()`: only an administrator exports, and only a non-empty
      table; the file, bookings-admin.csv, starts with the header line. */
  function ExportCsvFile(role: Option<Role>, bookings: seq<ListedBooking>): (r: Option<string>)
    ensures role != Some(Admin) ==> r.None?
    ensures role == Some(Admin) ==> (r.Some? <==> |bookings| > 0)
    ensures r.Some? ==>
      var h := Join(EXPORT_HEADERS, ",");
      |r.value| > |h| && r.value[..|h| + 1] == h + "\n"
  {
    if role != Some(Admin) then None
    else CsvContent(EXPORT_HEADERS, seq(|bookings|, i requires 0 <= i < |bookings| => ExportRow(bookings[i])))
  }

  /** Every exported data line reads back as the booking's fields, whatever
      commas or quotes the names hold. */
  lemma ExportRowsReadBack(b: ListedBooking)
    ensures ReadRow(RowLine(ExportRow(b))) == Some(ExportRow(b))
  {
    RowLineRoundTrip(ExportRow(b));
  }
}
