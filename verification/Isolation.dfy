/** Sagas do not disturb one another, and of several sagas on one hold at most one gets the seat. */
module Isolation {
  import opened Domain
  import opened Inventory
  import opened Machine
  import opened Safety
  import opened Steps
  import opened Runs

  // ----- a saga's or a cancel's step touches only its own booking -----

  /** Everything that does not belong to booking b is the same in both states. */
  ghost predicate OnlyTouches(s: System, t: System, b: nat) {
    && |t.db.seats| == |s.db.seats| && |t.db.bookings| == |s.db.bookings| && |t.sagas| == |s.sagas|
    && |s.db.tickets| <= |t.db.tickets|
    && (forall i :: 0 <= i < |s.db.seats| && s.db.seats[i].booking != Some(b) ==> t.db.seats[i] == s.db.seats[i])
    && (forall c :: 0 <= c < |s.db.bookings| && c != b ==> t.db.bookings[c] == s.db.bookings[c])
    && (forall c :: 0 <= c < |s.sagas| && c != b ==> t.sagas[c] == s.sagas[c])
    && (forall c :: c in s.db.payments && c != b ==> c in t.db.payments && t.db.payments[c] == s.db.payments[c])
    && (forall c :: c in t.db.payments && c != b ==> c in s.db.payments)
    && (forall x :: 0 <= x < |s.db.tickets| && s.db.tickets[x].booking != b ==> t.db.tickets[x] == s.db.tickets[x])
    && (forall x :: |s.db.tickets| <= x < |t.db.tickets| ==> t.db.tickets[x].booking == b)
  }

  /** Charging, failing, compensating, confirming or cancelling booking b leaves alone every seat that is
    * free, held or sold for anybody else, and every other booking's state, payment and tickets. */
  lemma SagasAreIsolated(s: System, step: Step, b: nat)
    requires Safe(s) && Owner(step) == Some(b)
    ensures OnlyTouches(s, Next(s, step), b)
  {
    StepEffect(s, step);
    EffectOnlyTouches(s, Next(s, step), step, b);
  }

  lemma EffectOnlyTouches(s: System, t: System, step: Step, b: nat)
    requires |s.sagas| == |s.db.bookings| && Effect(s, t, step) && Owner(step) == Some(b)
    ensures OnlyTouches(s, t, b)
  {
    if Sells(s, t, b) {
      SellOnlyTouches(s, t, b);
    } else if Closes(s, t, b) {
      CloseOnlyTouches(s, t, b);
    }
  }

  lemma SellOnlyTouches(s: System, t: System, b: nat)
    requires Sells(s, t, b)
    ensures OnlyTouches(s, t, b)
  {
    var ids := s.db.bookings[b].seats;
    forall i | 0 <= i < |s.db.seats| && i in ids ensures s.db.seats[i].booking == Some(b) {
      var k :| 0 <= k < |ids| && ids[k] == i;
    }
  }

  lemma CloseOnlyTouches(s: System, t: System, b: nat)
    requires Closes(s, t, b)
    ensures OnlyTouches(s, t, b)
  {
    forall i | 0 <= i < |s.db.seats| && s.db.seats[i].booking != Some(b) ensures t.db.seats[i] == s.db.seats[i] {
      assert GivenUp(s.db.seats[i], t.db.seats[i], b);
    }
  }

  // ----- a lost pin never comes back -----

  /** Booking b has not issued tickets, and seat i, one of its own, no longer points at it. */
  ghost predicate LostSeat(s: System, b: nat, i: nat) {
    && b < |s.sagas| == |s.db.bookings|
    && i in s.db.bookings[b].seats && i < |s.db.seats|
    && s.db.seats[i].booking != Some(b)
    && !PhaseOf(s, b).Sold?
  }

  lemma LostStaysLost(s: System, step: Step, b: nat, i: nat)
    requires Safe(s) && LostSeat(s, b, i)
    ensures LostSeat(Next(s, step), b, i)
  {
    var t := Next(s, step);
    StepEffect(s, step);
    match Owner(step)
    case None => LostThroughHoldStep(s, t, b, i);
    case Some(c) =>
      if Sells(s, t, c) {
        LostThroughSale(s, t, c, b, i);
      } else {
        LostThroughOwnEffect(s, t, c, b, i);
      }
  }

  lemma LostThroughHoldStep(s: System, t: System, b: nat, i: nat)
    requires Safe(s) && LostSeat(s, b, i) && (Idles(s, t) || Shuffles(s, t) || Opens(s, t))
    ensures LostSeat(t, b, i)
  {
    if Shuffles(s, t) {
      assert Shuffled(s.db.seats[i], t.db.seats[i], s.db.nextHold);
    }
  }

  lemma LostThroughOwnEffect(s: System, t: System, c: nat, b: nat, i: nat)
    requires Safe(s) && LostSeat(s, b, i) && OwnEffect(s, t, c)
    ensures LostSeat(t, b, i)
  {
    if Closes(s, t, c) {
      assert GivenUp(s.db.seats[i], t.db.seats[i], c);
    }
  }

  lemma LostThroughSale(s: System, t: System, c: nat, b: nat, i: nat)
    requires Safe(s) && Sells(s, t, c) && LostSeat(s, b, i)
    ensures LostSeat(t, b, i)
  {
    var ids := s.db.bookings[c].seats;
    assert i in ids ==> exists k :: 0 <= k < |ids| && ids[k] == i;
  }

  /** Once a seat has been taken by somebody else, or pinned by another saga of the same user on the same
    * hold, booking b issues no ticket in any run: if its card was authorized it can only compensate. */
  lemma {:induction false} LostNeverIssues(s: System, steps: seq<Step>, b: nat, i: nat)
    requires Safe(s) && LostSeat(s, b, i)
    ensures LostSeat(Exec(s, steps), b, i)
    ensures !Exec(s, steps).sagas[b].pc.Issuing?
  {
    if steps != [] {
      var before := Exec(s, steps[..|steps| - 1]);
      LostNeverIssues(s, steps[..|steps| - 1], b, i);
      RunIsSafe(s, steps[..|steps| - 1]);
      LostStaysLost(before, steps[|steps| - 1], b, i);
    }
  }

  // ----- at most one saga is served by a hold -----

  ghost predicate Gone(seats: seq<Seat>, rows: seq<Seat>) {
    forall i, k :: 0 <= i < |seats| && 0 <= k < |rows| ==> seats[i].holdId != rows[k].holdId
  }

  ghost predicate Apart(rows: seq<Seat>, others: seq<Seat>) {
    forall j, k :: 0 <= j < |rows| && 0 <= k < |others| ==> rows[j].holdId != others[k].holdId
  }

  /** A hold that a booking was ticketed under is gone from the seat map, and nobody else was ticketed under it. */
  ghost predicate Consumed(s: System) {
    && (forall b :: 0 <= b < |s.sagas| && HasIssued(s.sagas[b]) ==> Gone(s.db.seats, s.sagas[b].rows))
    && (forall b, c :: 0 <= b < |s.sagas| && 0 <= c < |s.sagas| && b != c && HasIssued(s.sagas[b]) && HasIssued(s.sagas[c]) ==>
         Apart(s.sagas[b].rows, s.sagas[c].rows))
  }

  lemma RowsHaveHolds(s: System, b: nat)
    requires Safe(s) && b < |s.sagas|
    ensures forall k :: 0 <= k < |s.sagas[b].rows| ==>
      s.sagas[b].rows[k].holdId.Some? && s.sagas[b].rows[k].holdId.value < s.db.nextHold
  {
    assert BookingOk(s, b);
    forall k: nat | k < |s.sagas[b].rows|
      ensures s.sagas[b].rows[k].holdId.Some? && s.sagas[b].rows[k].holdId.value < s.db.nextHold
    {
      assert RowOk(s, b, k);
    }
  }

  /** No hold id appears on a seat that was not there before, except fresh ones. */
  ghost predicate OnlyFreshHolds(before: seq<Seat>, after: seq<Seat>, nextHold: nat) {
    && |before| == |after|
    && forall i :: 0 <= i < |after| && after[i].holdId.Some? ==>
         after[i].holdId == before[i].holdId || after[i].holdId.value >= nextHold
  }

  lemma GoneStaysGone(before: seq<Seat>, after: seq<Seat>, nextHold: nat, rows: seq<Seat>)
    requires Gone(before, rows) && OnlyFreshHolds(before, after, nextHold)
    requires forall k :: 0 <= k < |rows| ==> rows[k].holdId.Some? && rows[k].holdId.value < nextHold
    ensures Gone(after, rows)
  {}

  /** Steps that issue no ticket keep consumed holds consumed. */
  lemma ConsumedKept(s: System, t: System)
    requires Safe(s) && Consumed(s) && OnlyFreshHolds(s.db.seats, t.db.seats, s.db.nextHold)
    requires |s.sagas| <= |t.sagas|
    requires forall b :: 0 <= b < |t.sagas| && HasIssued(t.sagas[b]) ==>
      b < |s.sagas| && HasIssued(s.sagas[b]) && t.sagas[b].rows == s.sagas[b].rows
    ensures Consumed(t)
  {
    forall b | 0 <= b < |t.sagas| && HasIssued(t.sagas[b]) ensures Gone(t.db.seats, t.sagas[b].rows) {
      RowsHaveHolds(s, b);
      GoneStaysGone(s.db.seats, t.db.seats, s.db.nextHold, s.sagas[b].rows);
    }
  }

  /** Every row of the sale was on the seat map just before, and none of their holds is afterwards. */
  lemma SaleConsumes(seats: seq<Seat>, ids: seq<nat>, b: nat, rows: seq<Seat>, nextHold: nat)
    requires HoldsOk(seats, nextHold) && InTable(seats, ids) && |rows| == |ids|
    requires forall k :: 0 <= k < |ids| ==> seats[ids[k]] == rows[k] && rows[k].holdId.Some?
    ensures Gone(Sell(seats, ids, b), rows) && OnlyFreshHolds(seats, Sell(seats, ids, b), nextHold)
  {
    var after := Sell(seats, ids, b);
    forall i, k | 0 <= i < |after| && 0 <= k < |ids| ensures after[i].holdId != rows[k].holdId {
      assert ids[k] in ids && seats[ids[k]] == rows[k];
    }
  }

  lemma PresentIsApart(seats: seq<Seat>, ids: seq<nat>, rows: seq<Seat>, others: seq<Seat>)
    requires InTable(seats, ids) && |rows| == |ids| && forall k :: 0 <= k < |ids| ==> seats[ids[k]] == rows[k]
    requires Gone(seats, others)
    ensures Apart(rows, others) && Apart(others, rows)
  {
    forall j, k | 0 <= j < |rows| && 0 <= k < |others| ensures rows[j].holdId != others[k].holdId {
      assert seats[ids[j]] == rows[j];
    }
  }

  lemma ConsumedThroughSale(s: System, t: System, b: nat)
    requires Safe(s) && Consumed(s) && Sells(s, t, b)
    ensures Consumed(t)
  {
    var ids := s.db.bookings[b].seats;
    RowsHaveHolds(s, b);
    SaleConsumes(s.db.seats, ids, b, s.sagas[b].rows, s.db.nextHold);
    forall c | 0 <= c < |t.sagas| && c != b && HasIssued(t.sagas[c])
      ensures Gone(t.db.seats, t.sagas[c].rows)
      ensures Apart(s.sagas[b].rows, s.sagas[c].rows) && Apart(s.sagas[c].rows, s.sagas[b].rows)
    {
      RowsHaveHolds(s, c);
      GoneStaysGone(s.db.seats, t.db.seats, s.db.nextHold, s.sagas[c].rows);
      PresentIsApart(s.db.seats, ids, s.sagas[b].rows, s.sagas[c].rows);
    }
  }

  lemma ShuffleKeepsConsumed(s: System, t: System)
    requires Safe(s) && Consumed(s) && Shuffles(s, t)
    ensures Consumed(t)
  {
    forall i | 0 <= i < |t.db.seats| ensures Shuffled(s.db.seats[i], t.db.seats[i], s.db.nextHold) {
    }
    ConsumedKept(s, t);
  }

  lemma CloseKeepsConsumed(s: System, t: System, b: nat)
    requires Safe(s) && Consumed(s) && Closes(s, t, b)
    ensures Consumed(t)
  {
    forall i | 0 <= i < |t.db.seats| ensures GivenUp(s.db.seats[i], t.db.seats[i], b) {
    }
    ConsumedKept(s, t);
  }

  lemma OwnStepKeepsConsumed(s: System, t: System, b: nat)
    requires Safe(s) && Consumed(s) && (OwnEffect(s, t, b) || Sells(s, t, b))
    ensures Consumed(t)
  {
    if Sells(s, t, b) {
      ConsumedThroughSale(s, t, b);
    } else if Closes(s, t, b) {
      CloseKeepsConsumed(s, t, b);
    } else {
      ConsumedKept(s, t);
    }
  }

  lemma OpenKeepsConsumed(s: System, t: System)
    requires Safe(s) && Consumed(s) && (Idles(s, t) || Opens(s, t))
    ensures Consumed(t)
  {
    ConsumedKept(s, t);
  }

  lemma StepKeepsConsumed(s: System, step: Step)
    requires Safe(s) && Consumed(s)
    ensures Consumed(Next(s, step))
  {
    var t := Next(s, step);
    StepEffect(s, step);
    match Owner(step)
    case None =>
      if Shuffles(s, t) {
        ShuffleKeepsConsumed(s, t);
      } else {
        OpenKeepsConsumed(s, t);
      }
    case Some(b) => OwnStepKeepsConsumed(s, t, b);
  }

  lemma {:induction false} RunKeepsConsumed(s: System, steps: seq<Step>)
    requires Safe(s) && Consumed(s)
    ensures Consumed(Exec(s, steps))
  {
    if steps != [] {
      RunKeepsConsumed(s, steps[..|steps| - 1]);
      RunIsSafe(s, steps[..|steps| - 1]);
      StepKeepsConsumed(Exec(s, steps[..|steps| - 1]), steps[|steps| - 1]);
    }
  }

  ghost predicate PinnedUnder(s: System, b: nat, hold: nat) {
    b < |s.sagas| && exists k :: 0 <= k < |s.sagas[b].rows| && s.sagas[b].rows[k].holdId == Some(hold)
  }

  /** Of all the sagas that ever pinned a common hold, in any interleaving, at most one issues tickets. */
  lemma OneSagaPerHold(s: System, hold: nat, b: nat, c: nat)
    requires Reachable(s) && PinnedUnder(s, b, hold) && PinnedUnder(s, c, hold)
    requires HasIssued(s.sagas[b]) && HasIssued(s.sagas[c])
    ensures b == c
  {
    var cfg: Config, now: int, seats: seq<Seat>, steps: seq<Step> :| Seeded(seats) && s == Exec(Start(cfg, now, seats), steps);
    StartIsSafe(cfg, now, seats);
    RunKeepsConsumed(Start(cfg, now, seats), steps);
    assert b != c ==> Apart(s.sagas[b].rows, s.sagas[c].rows);
  }
}
