/** The booking side of the vehicle page, client/src/hooks/useVehicleDetails.js:
    which calendar days show as booked, the availability check run before
    booking, and the "Book now" button. A date picked in the form is held as
    the instant it parses to, `None` while the field is empty; the current
    instant is a parameter. */
module VehicleDetails {
  import opened Common

  /** One booked interval of the vehicle, as `GET /bookings/vehicle/:id`
      answers it. */
  datatype BookedRange = BookedRange(startDate: int, endDate: int)

  /** The range covers `date` once both its ends are set to midnight. */
  predicate Covers(range: BookedRange, date: int) {
    Midnight(range.startDate) <= date <= Midnight(range.endDate)
  }

  /** `isDateBooked(date)`: some range covers the date; with no range, no
      date is booked. */
  function IsDateBooked(ranges: seq<BookedRange>, date: int): (b: bool)
    ensures b <==> exists k :: 0 <= k < |ranges| && Covers(ranges[k], date)
  {
    if ranges == [] then false
    else
      var rest := IsDateBooked(ranges[1..], date);
      assert rest ==> exists k :: 0 <= k < |ranges| && Covers(ranges[k], date) by {
        if rest {
          var k :| 0 <= k < |ranges[1..]| && Covers(ranges[1..][k], date);
          assert Covers(ranges[k + 1], date);
        }
      }
      assert (exists k :: 0 <= k < |ranges| && Covers(ranges[k], date)) ==> Covers(ranges[0], date) || rest by {
        if exists k :: 0 <= k < |ranges| && Covers(ranges[k], date) {
          var k :| 0 <= k < |ranges| && Covers(ranges[k], date);
          if k > 0 {
            assert Covers(ranges[1..][k - 1], date);
          }
        }
      }
      Covers(ranges[0], date) || rest
  }

  /** Midnight keeps the order of instants. */
  lemma MidnightMonotone(a: int, b: int)
    requires a <= b
    ensures Midnight(a) <= Midnight(b)
  {
    var da, db := DayNumber(a), DayNumber(b);
    assert a == da * DAY_MS + a % DAY_MS && b == db * DAY_MS + b % DAY_MS;
    assert (da - db) * DAY_MS <= b % DAY_MS - a % DAY_MS < DAY_MS;
    assert da - db < 1;
  }

  /** Every day a stored booking touches shows as booked in the calendar:
      the midnight of any instant inside a range is booked. */
  lemma BookedDaysShow(ranges: seq<BookedRange>, k: int, t: int)
    requires 0 <= k < |ranges| && ranges[k].startDate <= t <= ranges[k].endDate
    ensures IsDateBooked(ranges, Midnight(t))
  {
    MidnightMonotone(ranges[k].startDate, t);
    MidnightMonotone(t, ranges[k].endDate);
    assert Covers(ranges[k], Midnight(t));
  }

  /** The first problem `checkAvailability` reports, in its order: a
      missing date, a start before today's midnight, a start after the end.
      A one-day rental, start equal to end, passes. */
  function AvailabilityProblem(startDate: Option<int>, endDate: Option<int>, now: int): (r: Option<string>)
    ensures r.None? <==>
      startDate.Some? && endDate.Some? && Midnight(now) <= startDate.value <= endDate.value
    ensures startDate.None? || endDate.None? ==> r == Some("Please select both start and end dates")
    ensures (startDate.Some? && endDate.Some? && startDate.value < Midnight(now)) ==>
      r == Some("Start date cannot be in the past")
    ensures (startDate.Some? && endDate.Some? && Midnight(now) <= startDate.value && startDate.value > endDate.value) ==>
      r == Some("End date must be after start date")
  {
    if startDate.None? || endDate.None? then Some("Please select both start and end dates")
    else if startDate.value < Midnight(now) then Some("Start date cannot be in the past")
    else if startDate.value > endDate.value then Some("End date must be after start date")
    else None
  }

  /** How `POST /payments/prepare` answers: the vehicle is available, or the
      request fails, with the message of the error body when it has one. */
  datatype PrepareAnswer = Available | Refused(message: Option<string>)

  /** The message shown for a refused check. */
  function RefusalMessage(message: Option<string>): string {
    if message.Some? && message.value != "" then message.value else "Vehicle not available for selected dates"
  }

  /** Where "Book now" leads: the availability page, with the chosen dates
      in the navigation state. */
  datatype Navigation = Navigation(path: string, startDate: Option<int>, endDate: Option<int>)

  /** The hook's booking state, with the `pendingBookVehicle` entry of the
      session storage. */
  class VehicleDetailsState {
    var startDate: Option<int>
    var endDate: Option<int>
    var isAvailable: bool
    var availabilityError: string
    var checkingAvailability: bool
    var showAuth: bool
    var pendingBookVehicle: Option<string>

    /** The vehicle is only marked available for two chosen dates in order. */
    predicate Valid()
      reads this
    {
      isAvailable ==> startDate.Some? && endDate.Some? && startDate.value <= endDate.value
    }

    constructor ()
      ensures Valid()
      ensures startDate.None? && endDate.None? && !isAvailable && availabilityError == ""
      ensures !checkingAvailability && !showAuth && pendingBookVehicle.None?
    {
      startDate, endDate := None, None;
      isAvailable, availabilityError := false, "";
      checkingAvailability, showAuth := false, false;
      pendingBookVehicle := None;
    }

    /** `setStartDate(d)`: a new value re-runs the effect on the dates, which
        clears the availability and its error; the same value changes
        nothing. */
    method SetStartDate(d: Option<int>)
      requires Valid()
      modifies this
      ensures Valid()
      ensures startDate == d && endDate == old(endDate)
      ensures d != old(startDate) ==> !isAvailable && availabilityError == ""
      ensures d == old(startDate) ==> isAvailable == old(isAvailable) && availabilityError == old(availabilityError)
      ensures checkingAvailability == old(checkingAvailability) && showAuth == old(showAuth)
      ensures pendingBookVehicle == old(pendingBookVehicle)
    {
      if d != startDate {
        startDate := d;
        isAvailable := false;
        availabilityError := "";
      }
    }

    /** `setEndDate(d)`, with the same effect. */
    method SetEndDate(d: Option<int>)
      requires Valid()
      modifies this
      ensures Valid()
      ensures endDate == d && startDate == old(startDate)
      ensures d != old(endDate) ==> !isAvailable && availabilityError == ""
      ensures d == old(endDate) ==> isAvailable == old(isAvailable) && availabilityError == old(availabilityError)
      ensures checkingAvailability == old(checkingAvailability) && showAuth == old(showAuth)
      ensures pendingBookVehicle == old(pendingBookVehicle)
    {
      if d != endDate {
        endDate := d;
        isAvailable := false;
        availabilityError := "";
      }
    }

    /** `checkAvailability()`. A failed validation only sets its message. When
        every validation passes the prepare request is sent, and answers
        whether the vehicle is available or the message to show; the check
        is no longer in progress afterwards. `requested` says whether the
        request was sent. */
    method CheckAvailability(now: int, vehicleId: string, prepare: (string, int, int) -> PrepareAnswer) returns (requested: bool)
      requires Valid()
      modifies this
      ensures Valid()
      ensures requested <==> AvailabilityProblem(startDate, endDate, now).None?
      ensures !requested ==>
        && availabilityError == AvailabilityProblem(startDate, endDate, now).value
        && isAvailable == old(isAvailable) && checkingAvailability == old(checkingAvailability)
      ensures requested ==>
        var answer := prepare(vehicleId, startDate.value, endDate.value);
        && isAvailable == answer.Available?
        && availabilityError == (if answer.Available? then "" else RefusalMessage(answer.message))
        && !checkingAvailability
      ensures startDate == old(startDate) && endDate == old(endDate)
      ensures showAuth == old(showAuth) && pendingBookVehicle == old(pendingBookVehicle)
    {
      var problem := AvailabilityProblem(startDate, endDate, now);
      if problem.Some? {
        availabilityError := problem.value;
        return false;
      }
      requested := true;
      checkingAvailability := true;
      availabilityError := "";
      isAvailable := false;
      var answer := prepare(vehicleId, startDate.value, endDate.value);
      if answer.Available? {
        isAvailable := true;
      } else {
        availabilityError := RefusalMessage(answer.message);
      }
      checkingAvailability := false;
    }

    /** `handleBookNow()`. A guest is asked to log in, and the vehicle of the
        route is remembered in the session; a logged-in user goes to the
        availability page only once the vehicle was found available, and
        then with two chosen dates in order. */
    method HandleBookNow(loggedIn: bool, routeId: string, vehicleId: string) returns (nav: Option<Navigation>)
      requires Valid()
      modifies this
      ensures Valid()
      ensures !loggedIn ==> nav.None? && showAuth && pendingBookVehicle == Some(routeId)
      ensures loggedIn ==> showAuth == old(showAuth) && pendingBookVehicle == old(pendingBookVehicle)
      ensures nav.Some? <==> loggedIn && isAvailable
      ensures nav.Some? ==>
        && nav.value == Navigation("/vehicles/" + vehicleId + "/availability", startDate, endDate)
        && startDate.Some? && endDate.Some? && startDate.value <= endDate.value
      ensures startDate == old(startDate) && endDate == old(endDate) && isAvailable == old(isAvailable)
      ensures availabilityError == old(availabilityError) && checkingAvailability == old(checkingAvailability)
    {
      if !loggedIn {
        pendingBookVehicle := Some(routeId);
        showAuth := true;
        return None;
      }
      if !isAvailable {
        return None;
      }
      nav := Some(Navigation("/vehicles/" + vehicleId + "/availability", startDate, endDate));
    }

    /** The effect on the user and the route: without a user it does
        nothing; once a user is present, a pending booking of this route's
        vehicle is forgotten. */
    method ClearPendingOnLogin(loggedIn: bool, routeId: string)
      modifies this`pendingBookVehicle
      ensures loggedIn && old(pendingBookVehicle) == Some(routeId) ==> pendingBookVehicle.None?
      ensures !loggedIn || old(pendingBookVehicle) != Some(routeId) ==> pendingBookVehicle == old(pendingBookVehicle)
    {
      if loggedIn && pendingBookVehicle == Some(routeId) {
        pendingBookVehicle := None;
      }
    }
  }
}
