/** Who sits where: a booking has one to six seats of its flight, in the order of the cabin, and keeps them. */
module Seating {
  import opened Domain
  import opened Inventory
  import opened Store
  import opened Machine
  import opened Safety
  import opened Steps
  import opened Runs

  /** The seat is further forward, or in the same row and earlier in the alphabet. */
  ghost predicate Before(a: Seat, b: Seat) {
    a.place.row < b.place.row || (a.place.row == b.place.row && a.place.letter < b.place.letter)
  }

  ghost predicate InCabinOrder(seats: seq<Seat>, ids: seq<nat>)
    requires InTable(seats, ids)
  {
    forall k, m :: 0 <= k < m < |ids| ==> Before(seats[ids[k]], seats[ids[m]])
  }

  ghost predicate Seated(s: System, b: nat)
    requires b < |s.db.bookings|
  {
    var ids := s.db.bookings[b].seats;
    1 <= |ids| <= 6 && InTable(s.db.seats, ids) && InCabinOrder(s.db.seats, ids)
  }

  ghost predicate AllSeated(s: System) {
    forall b: nat :: b < |s.db.bookings| ==> Seated(s, b)
  }

  /** A booking's columns other than its state. */
  ghost predicate SameTerms(before: Booking, after: Booking) {
    after == before.(state := after.state)
  }

  ghost predicate TermsStand(s: System, t: System) {
    && |s.db.bookings| <= |t.db.bookings|
    && forall b :: 0 <= b < |s.db.bookings| ==> SameTerms(s.db.bookings[b], t.db.bookings[b])
  }

  /** Distinct seats of one flight have distinct places, so sorting them leaves no ties. */
  lemma SortedIsCabinOrder(seats: seq<Seat>, nextHold: nat, ids: seq<nat>)
    requires HoldsOk(seats, nextHold) && InTable(seats, ids) && NoDuplicates(ids) && SortedByPlace(seats, ids)
    requires forall k, m :: 0 <= k < |ids| && 0 <= m < |ids| ==> seats[ids[k]].flight == seats[ids[m]].flight
    ensures InCabinOrder(seats, ids)
  {
    forall k, m | 0 <= k < m < |ids| ensures Before(seats[ids[k]], seats[ids[m]]) {
      var i, j := ids[k], ids[m];
      assert !PlaceLess(seats[j].place, seats[i].place);
      assert i < j ==> !Inventory.At(seats[j], seats[i].flight, seats[i].place);
      assert j < i ==> !Inventory.At(seats[i], seats[j].flight, seats[j].place);
    }
  }

  lemma NewBookingIsSeated(s: System, user: nat, key: string, holds: seq<nat>, passengers: nat)
    requires Safe(s) && ValidRequest(holds, passengers)
    requires Store.CreateBooking(s.db, user, key, holds, s.now).Created?
    ensures var t := DoCreateBooking(s, user, key, holds, passengers);
      && |t.db.bookings| == |s.db.bookings| + 1 && t.db.bookings[..|s.db.bookings|] == s.db.bookings
      && Seated(t, |s.db.bookings|) && SameSeats(s.db.seats, t.db.seats)
  {
    StepOneSeats(s, user, key, holds);
    var tables := Store.CreateBooking(s.db, user, key, holds, s.now).tables;
    CreatedTables(s.db, user, key, holds, s.now, tables);
    var ids := tables.bookings[|s.db.bookings|].seats;
    SortedIsCabinOrder(s.db.seats, s.db.nextHold, ids);
    PinKeepsSeats(s.db.seats, ids, |s.db.bookings|);
    OrderStays(s.db.seats, tables.seats, ids);
  }

  lemma OrderStays(before: seq<Seat>, after: seq<Seat>, ids: seq<nat>)
    requires SameSeats(before, after) && InTable(before, ids) && InCabinOrder(before, ids)
    ensures InTable(after, ids) && InCabinOrder(after, ids)
  {}

  lemma SameTermsSeated(s: System, t: System, b: nat)
    requires b < |s.db.bookings| && b < |t.db.bookings| && Seated(s, b)
    requires SameTerms(s.db.bookings[b], t.db.bookings[b]) && SameSeats(s.db.seats, t.db.seats)
    ensures Seated(t, b)
  {
    OrderStays(s.db.seats, t.db.seats, s.db.bookings[b].seats);
  }

  lemma EffectKeepsTerms(s: System, t: System, step: Step)
    requires Effect(s, t, step)
    ensures TermsStand(s, t)
  {
    if Owner(step).Some? {
      EffectIsFramed(s, t, step, Owner(step).value);
    }
  }

  lemma EffectKeepsSeated(s: System, t: System, step: Step)
    requires Effect(s, t, step) && !step.CreateBooking? && AllSeated(s)
    ensures AllSeated(t)
  {
    EffectKeepsSeats(s, t, step);
    EffectKeepsTerms(s, t, step);
    if Owner(step).Some? {
      EffectIsFramed(s, t, step, Owner(step).value);
    }
    forall b: nat | b < |t.db.bookings| ensures Seated(t, b) {
      SameTermsSeated(s, t, b);
    }
  }

  lemma CreateKeepsSeated(s: System, user: nat, key: string, holds: seq<nat>, passengers: nat)
    requires Safe(s) && AllSeated(s)
    ensures AllSeated(DoCreateBooking(s, user, key, holds, passengers))
  {
    var t := DoCreateBooking(s, user, key, holds, passengers);
    if ValidRequest(holds, passengers) && Store.CreateBooking(s.db, user, key, holds, s.now).Created? {
      NewBookingIsSeated(s, user, key, holds, passengers);
      forall b: nat | b < |t.db.bookings| ensures Seated(t, b) {
        if b < |s.db.bookings| {
          assert t.db.bookings[b] == t.db.bookings[..|s.db.bookings|][b];
          SameTermsSeated(s, t, b);
        }
      }
    }
  }

  lemma StepKeepsSeated(s: System, step: Step)
    requires Safe(s) && AllSeated(s)
    ensures AllSeated(Next(s, step)) && TermsStand(s, Next(s, step))
  {
    StepEffect(s, step);
    EffectKeepsTerms(s, Next(s, step), step);
    if step.CreateBooking? {
      CreateKeepsSeated(s, step.user, step.key, step.holds, step.passengers);
    } else {
      EffectKeepsSeated(s, Next(s, step), step);
    }
  }

  lemma TermsStandTwice(s: System, t: System, u: System)
    requires TermsStand(s, t) && TermsStand(t, u)
    ensures TermsStand(s, u)
  {
    forall b | 0 <= b < |s.db.bookings| ensures SameTerms(s.db.bookings[b], u.db.bookings[b]) {
      assert SameTerms(s.db.bookings[b], t.db.bookings[b]) && SameTerms(t.db.bookings[b], u.db.bookings[b]);
    }
  }

  lemma {:induction false} RunKeepsSeated(s: System, steps: seq<Step>)
    requires Safe(s) && AllSeated(s)
    ensures AllSeated(Exec(s, steps)) && TermsStand(s, Exec(s, steps))
  {
    if steps != [] {
      var front, last := steps[..|steps| - 1], steps[|steps| - 1];
      RunKeepsSeated(s, front);
      RunIsSafe(s, front);
      StepKeepsSeated(Exec(s, front), last);
      TermsStandTwice(s, Exec(s, front), Next(Exec(s, front), last));
    }
  }

  /** In every reachable state every booking has one to six seats, each before the next in its cabin; and in every
    * continuation it has the same seats, user, flight, total and key. */
  lemma EverybodySitsInOrder(s: System, steps: seq<Step>)
    requires Reachable(s)
    ensures AllSeated(s) && TermsStand(s, Exec(s, steps))
  {
    var cfg: Config, now: int, seats: seq<Seat>, run: seq<Step> :| Seeded(seats) && s == Exec(Start(cfg, now, seats), run);
    StartIsSafe(cfg, now, seats);
    RunKeepsSeated(Start(cfg, now, seats), run);
    ReachableIsSafe(s);
    RunKeepsSeated(s, steps);
  }
}
