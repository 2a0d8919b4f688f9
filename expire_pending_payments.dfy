/** The bulk update of server/utils/expirePendingPayments.js: every payment
    still CREATED whose creation lies strictly more than ten minutes before
    now becomes FAILED, in place and in one `updateMany`. */
module ExpirePendingPayments {
  import opened Common
  import opened Models
  import opened Store

  /** The update's filter: `status: "CREATED", createdAt: { $lt: now - 10 min }`. */
  predicate Stale(p: Payment, now: int) {
    p.status == Created && p.createdAt < now - TEN_MINUTES_MS
  }

  /** The update's `$set: { status: "FAILED" }` applied to one matched record. */
  function Expire(p: Payment, now: int): Payment {
    if Stale(p, now) then p.(status := Failed) else p
  }

  /** The whole collection after the update: a stale payment becomes FAILED
      and nothing else about it changes; every other payment, whatever its
      status and age, is left as it was. */
  function ExpirePending(ps: seq<Payment>, now: int): (r: seq<Payment>)
    ensures |r| == |ps|
    ensures forall i :: 0 <= i < |ps| && Stale(ps[i], now) ==> r[i] == ps[i].(status := Failed)
    ensures forall i :: 0 <= i < |ps| && !Stale(ps[i], now) ==> r[i] == ps[i]
  {
    if ps == [] then [] else ExpirePending(ps[..|ps| - 1], now) + [Expire(ps[|ps| - 1], now)]
  }

  /** No payment stays CREATED past the ten-minute window. */
  lemma ExpirePendingLeavesNoStale(ps: seq<Payment>, now: int)
    ensures forall i :: 0 <= i < |ps| ==> !Stale(ExpirePending(ps, now)[i], now)
  {
    forall i | 0 <= i < |ps| ensures !Stale(ExpirePending(ps, now)[i], now) {
    }
  }

  /** A repeat run with the same `now` is a no-op. */
  lemma ExpirePendingIdempotent(ps: seq<Payment>, now: int)
    ensures ExpirePending(ExpirePending(ps, now), now) == ExpirePending(ps, now)
  {
    var once := ExpirePending(ps, now);
    ExpirePendingLeavesNoStale(ps, now);
    forall i | 0 <= i < |ps| ensures ExpirePending(once, now)[i] == once[i] {
    }
  }

  /** The update never changes a payment's booking link, so it keeps every
      link the store's invariant speaks of. */
  lemma ExpirePendingKeepsLinks(ps: seq<Payment>, now: int, i: int)
    requires 0 <= i < |ps|
    ensures ExpirePending(ps, now)[i].booking == ps[i].booking
  {
  }

  /** `expirePendingPayments()`. */
  method ExpirePendingPayments(db: Db, now: int)
    requires db.Valid()
    modifies db`payments
    ensures db.Valid()
    ensures db.payments == ExpirePending(old(db.payments), now)
  {
    var ps := ExpirePending(db.payments, now);
    forall i | 0 <= i < |ps| ensures ps[i].booking == db.payments[i].booking {
      ExpirePendingKeepsLinks(db.payments, now, i);
    }
    db.payments := ps;
  }
}
