/** The read-triggered sweep of server/utils/autoCompleteExpiredBookings.js:
    find every ACTIVE booking whose end lies strictly before now, then, one
    record at a time, set it COMPLETED and save it, and attempt the
    completion and review-reminder emails when both the renter and the
    vehicle are found. Emails are fire-and-forget; the model reports for
    which bookings they were attempted and nothing else depends on them. */
module AutoCompleteExpiredBookings {
  import opened Common
  import opened Models
  import opened Store

  /** The sweep's query: `status: "ACTIVE", endDate: { $lt: now }`. */
  predicate Expired(b: Booking, now: int) {
    b.status == Active && b.endDate < now
  }

  /** One booking after a sweep at `now`. */
  function Swept(b: Booking, now: int): Booking {
    if Expired(b, now) then b.(status := Completed) else b
  }

  /** The whole collection after a sweep at `now`: exactly the expired
      bookings become COMPLETED; every other booking, and every field but
      the status, is left as it was. */
  function CompleteExpired(bs: seq<Booking>, now: int): (r: seq<Booking>)
    ensures |r| == |bs|
    ensures forall i :: 0 <= i < |bs| && Expired(bs[i], now) ==> r[i] == bs[i].(status := Completed)
    ensures forall i :: 0 <= i < |bs| && !Expired(bs[i], now) ==> r[i] == bs[i]
  {
    if bs == [] then [] else CompleteExpired(bs[..|bs| - 1], now) + [Swept(bs[|bs| - 1], now)]
  }

  /** The ids the sweep's query selects, in store order. */
  function ExpiredIds(bs: seq<Booking>, now: int): (ids: seq<BookingId>)
    ensures forall k :: k in ids <==> 0 <= k < |bs| && Expired(bs[k], now)
    ensures forall a, b :: 0 <= a < b < |ids| ==> ids[a] < ids[b]
    ensures forall a :: 0 <= a < |ids| ==> ids[a] < |bs|
  {
    Select(bs, b => Expired(b, now))
  }

  /** Of the selected `ids`, those for which the emails are attempted: the
      renter exists and the booking's vehicle exists. */
  function Notifiable(bs: seq<Booking>, ids: seq<BookingId>, vehicles: seq<Vehicle>, userExists: UserId -> bool): (r: seq<BookingId>)
    requires forall a :: 0 <= a < |ids| ==> ids[a] < |bs|
    ensures forall k :: k in r <==> k in ids && userExists(bs[k].renter) && bs[k].vehicle < |vehicles|
  {
    if ids == [] then []
    else
      var k := ids[|ids| - 1];
      Notifiable(bs, ids[..|ids| - 1], vehicles, userExists)
        + (if userExists(bs[k].renter) && bs[k].vehicle < |vehicles| then [k] else [])
  }

  /** After a sweep no booking is ACTIVE with an end before `now`. */
  lemma CompleteExpiredLeavesNoExpired(bs: seq<Booking>, now: int)
    ensures forall i :: 0 <= i < |bs| ==> !Expired(CompleteExpired(bs, now)[i], now)
  {
    forall i | 0 <= i < |bs| ensures !Expired(CompleteExpired(bs, now)[i], now) {
    }
  }

  /** A second sweep with the same `now` changes nothing. */
  lemma CompleteExpiredIdempotent(bs: seq<Booking>, now: int)
    ensures CompleteExpired(CompleteExpired(bs, now), now) == CompleteExpired(bs, now)
  {
    var once := CompleteExpired(bs, now);
    CompleteExpiredLeavesNoExpired(bs, now);
    forall i | 0 <= i < |bs| ensures CompleteExpired(once, now)[i] == once[i] {
    }
  }

  /** The sweep only moves bookings out of ACTIVE, so it keeps the
      no-double-booking invariant. */
  lemma CompleteExpiredKeepsNoOverlap(bs: seq<Booking>, now: int)
    requires NoActiveOverlap(bs)
    ensures NoActiveOverlap(CompleteExpired(bs, now))
  {
    var r := CompleteExpired(bs, now);
    forall i, j | 0 <= i < |r| && 0 <= j < |r| && i != j && r[i].status == Active
      ensures !Blocks(r[j], r[i].vehicle, r[i].startDate, r[i].endDate)
    {
    }
  }

  /** `cur` is `bs` with the bookings at `done` set COMPLETED. */
  ghost predicate CompletedAt(cur: seq<Booking>, bs: seq<Booking>, done: seq<BookingId>) {
    |cur| == |bs|
    && forall j :: 0 <= j < |bs| ==> cur[j] == if j in done then bs[j].(status := Completed) else bs[j]
  }

  /** Completing the next selected booking, not completed before, extends
      the completed prefix of `ids` by one. */
  lemma CompletedAtStep(cur: seq<Booking>, bs: seq<Booking>, ids: seq<BookingId>, k: nat)
    requires k < |ids| && CompletedAt(cur, bs, ids[..k]) && ids[k] < |bs| && ids[k] !in ids[..k]
    ensures cur[ids[k]] == bs[ids[k]]
    ensures CompletedAt(cur[ids[k] := bs[ids[k]].(status := Completed)], bs, ids[..k + 1])
  {
    assert ids[..k + 1] == ids[..k] + [ids[k]];
  }

  /** Selecting the next id extends the notified ids by it when its renter
      and vehicle are found. */
  lemma NotifiableStep(bs: seq<Booking>, ids: seq<BookingId>, k: nat, vehicles: seq<Vehicle>, userExists: UserId -> bool)
    requires forall a :: 0 <= a < |ids| ==> ids[a] < |bs|
    requires k < |ids|
    ensures Notifiable(bs, ids[..k + 1], vehicles, userExists)
      == Notifiable(bs, ids[..k], vehicles, userExists)
         + (if userExists(bs[ids[k]].renter) && bs[ids[k]].vehicle < |vehicles| then [ids[k]] else [])
  {
    assert ids[..k + 1][..k] == ids[..k];
  }

  /** Completing every selected booking is the sweep. */
  lemma CompletedAtAllIsSweep(cur: seq<Booking>, bs: seq<Booking>, now: int)
    requires CompletedAt(cur, bs, ExpiredIds(bs, now))
    ensures cur == CompleteExpired(bs, now)
  {
    forall j | 0 <= j < |bs| ensures cur[j] == CompleteExpired(bs, now)[j] {
    }
  }

  /** The for-of loop of `autoCompleteExpiredBookings()` over the selected
      bookings `ids`, in increasing order: each becomes COMPLETED and is
      saved, and the emails are attempted when its renter and its vehicle are
      found. */
  method CompleteSelected(db: Db, ids: seq<BookingId>, userExists: UserId -> bool) returns (emailed: seq<BookingId>)
    requires forall a :: 0 <= a < |ids| ==> ids[a] < |db.bookings|
    requires forall a, b :: 0 <= a < b < |ids| ==> ids[a] < ids[b]
    modifies db`bookings
    ensures CompletedAt(db.bookings, old(db.bookings), ids)
    ensures emailed == Notifiable(old(db.bookings), ids, db.vehicles, userExists)
  {
    ghost var bs0 := db.bookings;
    var vehicles := db.vehicles;
    emailed := [];
    var k := 0;
    while k < |ids|
      invariant 0 <= k <= |ids|
      invariant CompletedAt(db.bookings, bs0, ids[..k])
      invariant emailed == Notifiable(bs0, ids[..k], vehicles, userExists)
    {
      var id := ids[k];
      assert id !in ids[..k];
      CompletedAtStep(db.bookings, bs0, ids, k);
      NotifiableStep(bs0, ids, k, vehicles, userExists);
      var booking := db.bookings[id];
      db.bookings := db.bookings[id := booking.(status := Completed)];
      if userExists(booking.renter) && booking.vehicle < |vehicles| {
        emailed := emailed + [id];
      }
      k := k + 1;
    }
    assert ids[..k] == ids;
  }

  /** `autoCompleteExpiredBookings()`: select the expired bookings, then
      complete them one by one. The new collection is the swept one; the
      emails are attempted for the selected bookings whose renter and
      vehicle are found. */
  method AutoCompleteExpired(db: Db, now: int, userExists: UserId -> bool) returns (emailed: seq<BookingId>)
    requires db.Valid()
    modifies db`bookings
    ensures db.Valid()
    ensures db.bookings == CompleteExpired(old(db.bookings), now)
    ensures emailed == Notifiable(old(db.bookings), ExpiredIds(old(db.bookings), now), db.vehicles, userExists)
  {
    ghost var bs0 := db.bookings;
    var ids := ExpiredIds(db.bookings, now);
    emailed := CompleteSelected(db, ids, userExists);
    CompletedAtAllIsSweep(db.bookings, bs0, now);
    CompleteExpiredKeepsNoOverlap(bs0, now);
    ReplaceBookings(bs0, db.bookings, db.payments, db.reviews, db.nextReviewId);
  }
}
