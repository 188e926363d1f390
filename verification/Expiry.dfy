/** What a sweep owes the table: every hold past its expiry that no booking has pinned, and nothing else. */
module Expiry {
  import opened Domain
  import opened Inventory
  import opened Machine
  import opened Safety
  import opened Runs

  /** The rows held past their expiry and pinned to no booking. */
  function Overdue(seats: seq<Seat>, now: int): set<nat> {
    set i: nat | i < |seats|
      && seats[i].status.Held? && seats[i].booking.None? && seats[i].expires.Some? && seats[i].expires.value < now
  }

  /** The rows that a user holds at this moment. */
  function HeldBy(seats: seq<Seat>, n: nat, user: nat, now: int): set<nat>
    requires n <= |seats|
  {
    set i: nat | i < n
      && seats[i].status.Held? && seats[i].holder == Some(user) && seats[i].expires.Some? && seats[i].expires.value > now
  }

  lemma OneMoreRow(seats: seq<Seat>, n: nat, user: nat, now: int)
    requires 0 < n <= |seats|
    ensures var one := seats[n - 1].holder == Some(user) && HoldIsLive(seats[n - 1], now);
      && |HeldBy(seats, n, user, now)| == |HeldBy(seats, n - 1, user, now)| + if one then 1 else 0
  {
    var one := seats[n - 1].holder == Some(user) && HoldIsLive(seats[n - 1], now);
    assert HeldBy(seats, n, user, now) == HeldBy(seats, n - 1, user, now) + if one then {n - 1} else {};
  }

  /** What the cap is compared with is the number of the user's live holds. */
  lemma {:induction false} LiveHoldsAreCounted(seats: seq<Seat>, n: nat, user: nat, now: int)
    requires n <= |seats|
    ensures LiveHolds(seats, n, user, now) == |HeldBy(seats, n, user, now)|
  {
    if n > 0 {
      LiveHoldsAreCounted(seats, n - 1, user, now);
      OneMoreRow(seats, n, user, now);
    }
  }

  /** On sale again: nobody holds it, and which seat it is has not changed. */
  ghost predicate BackOnSale(before: Seat, after: Seat) {
    && after.status.Available? && after.holder.None? && after.holdId.None? && after.expires.None?
    && after.booking == before.booking && after.version == before.version + 1
    && after.flight == before.flight && after.place == before.place && after.price == before.price
  }

  ghost predicate FreesExactly(before: seq<Seat>, after: seq<Seat>, rows: set<nat>) {
    && |after| == |before|
    && forall i: nat :: i < |before| ==> if i in rows then BackOnSale(before[i], after[i]) else after[i] == before[i]
  }

  /** From every safe state a sweep puts exactly the overdue rows back on sale and changes nothing else, so that
    * what is still held without a booking has not run out. */
  lemma SweepFreesTheOverdue(s: System)
    requires Safe(s)
    ensures var t := Next(s, Step.Sweep);
      && t == s.(db := s.db.(seats := t.db.seats))
      && FreesExactly(s.db.seats, t.db.seats, Overdue(s.db.seats, s.now))
      && forall i: nat :: i < |t.db.seats| && t.db.seats[i].status.Held? && t.db.seats[i].booking.None? ==>
           t.db.seats[i].expires.Some? && t.db.seats[i].expires.value >= t.now
  {
    var t := Next(s, Step.Sweep);
    StepIsSafe(s, Step.Sweep);
    forall i: nat | i < |t.db.seats| && t.db.seats[i].status.Held? && t.db.seats[i].booking.None?
      ensures t.db.seats[i].expires.Some? && t.db.seats[i].expires.value >= t.now
    {
      assert SeatOk(t.db.seats[i]);
      assert t.db.seats[i] == s.db.seats[i];
    }
  }
}
