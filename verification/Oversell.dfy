/** What the invariant means for inventory: no oversell, all or nothing, and a sufficient re-check. */
module Oversell {
  import opened Domain
  import opened Inventory
  import opened Store
  import opened Machine
  import opened Safety
  import opened Steps
  import opened Runs

  ghost predicate IsLive(s: System, t: int) {
    0 <= t < |s.db.tickets| && !s.db.tickets[t].voided
  }

  /** The states in which a booking may own live tickets. */
  predicate OwnsTickets(state: BookingState) {
    state == Ticketed || state == Confirmed || state == NeedsManualReview
  }

  /** No oversell: a seat is sold iff some live ticket names it, then exactly one does, and the ticket's
    * booking is the one the seat points at, in a state that may own tickets. */
  lemma NoOversell(s: System, i: nat)
    requires Reachable(s) && i < |s.db.seats|
    ensures s.db.seats[i].status.Booked? <==> exists t :: IsLive(s, t) && s.db.tickets[t].seat == i
    ensures forall t, u :: IsLive(s, t) && IsLive(s, u) && s.db.tickets[t].seat == s.db.tickets[u].seat == i ==> t == u
    ensures forall t :: IsLive(s, t) && s.db.tickets[t].seat == i ==>
      s.db.seats[i].booking == Some(s.db.tickets[t].booking)
      && s.db.tickets[t].booking < |s.db.bookings|
      && OwnsTickets(s.db.bookings[s.db.tickets[t].booking].state)
  {
    ReachableIsSafe(s);
    if s.db.seats[i].status.Booked? {
      SoldSeatHasTicket(s, i);
    }
    forall t | IsLive(s, t) && s.db.tickets[t].seat == i
      ensures TicketBacksSeat(s, t)
    {
      LiveTicketBacksSeat(s, t);
    }
    forall t, u | IsLive(s, t) && IsLive(s, u) && s.db.tickets[t].seat == s.db.tickets[u].seat == i ensures t == u {
      LiveTicketsDiffer(s, t, u);
    }
  }

  ghost predicate TicketBacksSeat(s: System, t: nat)
    requires t < |s.db.tickets|
  {
    var ticket := s.db.tickets[t];
    && ticket.seat < |s.db.seats|
    && s.db.seats[ticket.seat].status.Booked?
    && s.db.seats[ticket.seat].booking == Some(ticket.booking)
    && ticket.booking < |s.db.bookings|
    && OwnsTickets(s.db.bookings[ticket.booking].state)
  }

  lemma LiveTicketBacksSeat(s: System, t: nat)
    requires Safe(s) && IsLive(s, t)
    ensures TicketBacksSeat(s, t)
  {
    assert TicketOk(s, t);
    var b, k := s.db.tickets[t].booking, s.db.tickets[t].passenger;
    assert BookingOk(s, b) && PinOk(s, b, k);
    assert StateOk(s.sagas[b].pc, s.sagas[b].state, s.db.bookings[b].state);
  }

  lemma LiveTicketsDiffer(s: System, t: nat, u: nat)
    requires Safe(s) && IsLive(s, t) && IsLive(s, u)
    requires s.db.tickets[t].seat == s.db.tickets[u].seat
    ensures t == u
  {
    LiveTicketBacksSeat(s, t);
    LiveTicketBacksSeat(s, u);
    assert TicketOk(s, t) && TicketOk(s, u) && BookingOk(s, s.db.tickets[t].booking);
  }

  lemma SoldSeatHasTicket(s: System, i: nat)
    requires Safe(s) && i < |s.db.seats| && s.db.seats[i].status.Booked?
    ensures exists t :: IsLive(s, t) && s.db.tickets[t].seat == i
  {
    assert SeatOk(s.db.seats[i]) && LinkOk(s, i);
    var b := s.db.seats[i].booking.value;
    var k :| 0 <= k < |s.db.bookings[b].seats| && s.db.bookings[b].seats[k] == i;
    assert IssuedOk(s, b, k);
    assert IsLive(s, s.sagas[b].firstTicket + k);
  }

  // ----- all or nothing -----

  ghost predicate SamePassenger(s: System, t: int, u: int)
    requires IsLive(s, t) && IsLive(s, u)
  {
    s.db.tickets[t].booking == s.db.tickets[u].booking && s.db.tickets[t].passenger == s.db.tickets[u].passenger
  }

  predicate SoldTo(seat: Seat, b: nat, booking: Booking) {
    && seat.status.Booked? && seat.booking == Some(b)
    && seat.holder == Some(booking.user) && seat.flight == booking.flight
  }

  /** One live ticket per passenger, for that passenger's own seat, sold to this booking on its flight. */
  ghost predicate FullyTicketed(s: System, b: nat)
    requires b < |s.db.bookings|
  {
    var ids := s.db.bookings[b].seats;
    && InTable(s.db.seats, ids) && NoDuplicates(ids)
    && (forall k :: 0 <= k < |ids| ==> SoldTo(s.db.seats[ids[k]], b, s.db.bookings[b]))
    && (forall k: nat :: k < |ids| ==> exists t :: IsLive(s, t) && s.db.tickets[t] == Ticket(b, k, ids[k], false))
    && (forall t :: IsLive(s, t) && s.db.tickets[t].booking == b ==>
          s.db.tickets[t].passenger < |ids| && s.db.tickets[t].seat == ids[s.db.tickets[t].passenger])
    && (forall t, u :: IsLive(s, t) && IsLive(s, u) && s.db.tickets[t].booking == b && SamePassenger(s, t, u) ==> t == u)
    && (forall i: nat :: i < |s.db.seats| && s.db.seats[i].booking == Some(b) ==> i in ids)
  }

  ghost predicate Ticketless(s: System, b: nat) {
    && (forall t :: IsLive(s, t) ==> s.db.tickets[t].booking != b)
    && (forall i :: 0 <= i < |s.db.seats| && s.db.seats[i].status.Booked? ==> s.db.seats[i].booking != Some(b))
  }

  /** All or nothing: a booking whose saga has issued and which is not cancelled has every seat and
    * every ticket; any other has none. TICKETED and CONFIRMED always have all of them, and of the
    * remaining states only NEEDS_MANUAL_REVIEW may, when it was reached by a refused refund. */
  lemma AllOrNothing(s: System, b: nat)
    requires Reachable(s) && b < |s.db.bookings|
    ensures |s.sagas| == |s.db.bookings|
    ensures if HasIssued(s.sagas[b]) && s.db.bookings[b].state != Cancelled then FullyTicketed(s, b) else Ticketless(s, b)
    ensures s.db.bookings[b].state == Ticketed || s.db.bookings[b].state == Confirmed ==> FullyTicketed(s, b)
    ensures !OwnsTickets(s.db.bookings[b].state) ==> Ticketless(s, b)
  {
    ReachableIsSafe(s);
    PhaseIsState(s.sagas[b], s.db.bookings[b].state);
    assert StateOk(s.sagas[b].pc, s.sagas[b].state, s.db.bookings[b].state);
    if PhaseOf(s, b).Sold? {
      SoldIsFullyTicketed(s, b);
    } else {
      UnsoldIsTicketless(s, b);
    }
  }

  lemma PhaseIsState(saga: Saga, state: BookingState)
    requires StateOk(saga.pc, saga.state, state)
    ensures PhaseAt(saga.pc, state).Sold? <==> HasIssued(saga) && state != Cancelled
    ensures state == Ticketed || state == Confirmed ==> PhaseAt(saga.pc, state).Sold?
    ensures !OwnsTickets(state) ==> !PhaseAt(saga.pc, state).Sold?
  {}

  lemma PassengerIsTicketed(s: System, b: nat, k: nat)
    requires Safe(s) && b < |s.db.bookings| && PhaseOf(s, b).Sold? && BookingOk(s, b) && k < |s.db.bookings[b].seats|
    ensures SoldTo(s.db.seats[s.db.bookings[b].seats[k]], b, s.db.bookings[b])
    ensures exists t :: IsLive(s, t) && s.db.tickets[t] == Ticket(b, k, s.db.bookings[b].seats[k], false)
  {
    assert PinOk(s, b, k) && IssuedOk(s, b, k) && RowOk(s, b, k);
    assert IsLive(s, s.sagas[b].firstTicket + k);
  }

  lemma SoldIsFullyTicketed(s: System, b: nat)
    requires Safe(s) && b < |s.db.bookings| && PhaseOf(s, b).Sold?
    ensures FullyTicketed(s, b)
  {
    var ids := s.db.bookings[b].seats;
    assert BookingOk(s, b);
    forall k: nat | k < |ids|
      ensures SoldTo(s.db.seats[ids[k]], b, s.db.bookings[b])
      ensures exists t :: IsLive(s, t) && s.db.tickets[t] == Ticket(b, k, ids[k], false)
    {
      PassengerIsTicketed(s, b, k);
    }
    LiveTicketsFit(s, b);
    forall i: nat | i < |s.db.seats| && s.db.seats[i].booking == Some(b) ensures i in ids {
      assert LinkOk(s, i);
    }
  }

  lemma LiveTicketsFit(s: System, b: nat)
    requires Safe(s) && b < |s.db.bookings|
    ensures var ids := s.db.bookings[b].seats;
      && (forall t :: IsLive(s, t) && s.db.tickets[t].booking == b ==>
           s.db.tickets[t].passenger < |ids| && s.db.tickets[t].seat == ids[s.db.tickets[t].passenger])
      && (forall t, u :: IsLive(s, t) && IsLive(s, u) && s.db.tickets[t].booking == b && SamePassenger(s, t, u) ==> t == u)
  {
    forall t: nat | IsLive(s, t) ensures TicketOk(s, t) {
    }
  }

  lemma UnsoldIsTicketless(s: System, b: nat)
    requires Safe(s) && b < |s.db.bookings| && !PhaseOf(s, b).Sold?
    ensures Ticketless(s, b)
  {
    forall t | IsLive(s, t) ensures s.db.tickets[t].booking != b {
      assert TicketOk(s, t);
    }
    forall i | 0 <= i < |s.db.seats| && s.db.seats[i].status.Booked? ensures s.db.seats[i].booking != Some(b) {
      assert LinkOk(s, i);
    }
  }

  // ----- the schema's own constraints -----

  /** ck_held_seat_has_holder, ck_booked_seat_has_booking, ck_booking_total_nonneg, uq_ticket_live_per_seat,
    * uq_ticket_live_per_passenger. */
  ghost predicate ConstraintsHold(s: System) {
    && (forall i :: 0 <= i < |s.db.seats| && s.db.seats[i].status.Held? ==>
          s.db.seats[i].holder.Some? && s.db.seats[i].expires.Some? && s.db.seats[i].holdId.Some?)
    && (forall i :: 0 <= i < |s.db.seats| && s.db.seats[i].status.Booked? ==> s.db.seats[i].booking.Some?)
    && (forall b :: 0 <= b < |s.db.bookings| ==> s.db.bookings[b].total >= 0)
    && (forall t, u :: IsLive(s, t) && IsLive(s, u) && s.db.tickets[t].seat == s.db.tickets[u].seat ==> t == u)
    && (forall t, u :: IsLive(s, t) && IsLive(s, u) && SamePassenger(s, t, u) ==> t == u)
  }

  ghost predicate Priced(seats: seq<Seat>) {
    forall i :: 0 <= i < |seats| ==> seats[i].price >= 0
  }

  lemma StepKeepsSeats(s: System, step: Step)
    requires Safe(s)
    ensures SameSeats(s.db.seats, Next(s, step).db.seats)
  {
    StepEffect(s, step);
    EffectKeepsSeats(s, Next(s, step), step);
  }

  lemma {:induction false} RunKeepsPrices(s: System, steps: seq<Step>)
    requires Safe(s) && Priced(s.db.seats)
    ensures Priced(Exec(s, steps).db.seats)
  {
    if steps != [] {
      RunKeepsPrices(s, steps[..|steps| - 1]);
      RunIsSafe(s, steps[..|steps| - 1]);
      StepKeepsSeats(Exec(s, steps[..|steps| - 1]), steps[|steps| - 1]);
    }
  }

  lemma ReachablePrices(s: System)
    requires Reachable(s)
    ensures Priced(s.db.seats)
  {
    var cfg: Config, now: int, seats: seq<Seat>, steps: seq<Step> :| Seeded(seats) && s == Exec(Start(cfg, now, seats), steps);
    StartIsSafe(cfg, now, seats);
    RunKeepsPrices(Start(cfg, now, seats), steps);
  }

  lemma {:induction false} SumNotNegative(seats: seq<Seat>, ids: seq<nat>)
    requires InTable(seats, ids) && Priced(seats)
    ensures SumPrices(seats, ids) >= 0
  {
    if ids != [] {
      SumNotNegative(seats, ids[..|ids| - 1]);
    }
  }

  /** No transaction can fail on a CHECK or a partial unique index, and no saga dies of an unknown error:
    * the retry after a timeout is always answered and no transition the saga makes is illegal. */
  lemma NothingHitsTheSchema(s: System)
    requires Reachable(s)
    ensures ConstraintsHold(s)
    ensures forall b :: 0 <= b < |s.sagas| ==> !s.sagas[b].pc.Crashed?
  {
    ReachableIsSafe(s);
    ReachablePrices(s);
    forall i | 0 <= i < |s.db.seats| ensures SeatOk(s.db.seats[i]) {
    }
    forall b: nat | b < |s.db.bookings| ensures s.db.bookings[b].total >= 0 {
      assert BookingOk(s, b);
      SumNotNegative(s.db.seats, s.db.bookings[b].seats);
    }
    forall t, u | IsLive(s, t) && IsLive(s, u) && s.db.tickets[t].seat == s.db.tickets[u].seat ensures t == u {
      LiveTicketsDiffer(s, t, u);
    }
    forall t, u | IsLive(s, t) && IsLive(s, u) && SamePassenger(s, t, u) ensures t == u {
      assert TicketOk(s, t) && TicketOk(s, u);
    }
    forall b: nat | b < |s.sagas| ensures !s.sagas[b].pc.Crashed? {
      assert StateOk(s.sagas[b].pc, s.sagas[b].state, s.db.bookings[b].state);
    }
  }

  /** Free of ABA: if the re-check passes in any reachable state, the row has not been written since
    * step 1, and its hold is the one step 1 locked, although neither is looked at. */
  lemma RecheckIsSufficient(s: System, b: nat, k: nat)
    requires Reachable(s) && SagaAt(s, b, Authorized) && k < |s.db.bookings[b].seats|
    ensures |s.sagas[b].rows| == |s.db.bookings[b].seats| && InTable(s.db.seats, s.db.bookings[b].seats)
    ensures
      var seat := s.db.seats[s.db.bookings[b].seats[k]];
      !Lost(seat, b, s.db.bookings[b].user) <==> seat == s.sagas[b].rows[k]
    ensures s.sagas[b].rows[k].status.Held?
  {
    ReachableIsSafe(s);
    assert BookingOk(s, b) && RowOk(s, b, k);
    if StillOurs(s.db.seats[s.db.bookings[b].seats[k]], b, s.db.bookings[b].user) {
      StillOursIsUntouched(s, b, k);
    }
  }

  // ----- capacity -----

  ghost function LiveTicketsOn(s: System, flight: nat): set<nat> {
    set t: nat | t < |s.db.tickets| && !s.db.tickets[t].voided && s.db.tickets[t].seat < |s.db.seats|
                 && s.db.seats[s.db.tickets[t].seat].flight == flight
  }

  ghost function SoldOn(s: System, flight: nat): set<nat> {
    set i: nat | i < |s.db.seats| && s.db.seats[i].status.Booked? && s.db.seats[i].flight == flight
  }

  ghost function SeatsOn(s: System, flight: nat): set<nat> {
    set i: nat | i < |s.db.seats| && s.db.seats[i].flight == flight
  }

  /** A flight carries exactly as many live tickets as sold seats, so never more than it has seats. */
  lemma NeverAboveCapacity(s: System, flight: nat)
    requires Reachable(s)
    ensures |LiveTicketsOn(s, flight)| == |SoldOn(s, flight)| <= |SeatsOn(s, flight)|
    ensures forall t :: IsLive(s, t) ==> exists f :: t in LiveTicketsOn(s, f)
  {
    ReachableIsSafe(s);
    forall t | IsLive(s, t) ensures TicketBacksSeat(s, t) && t in LiveTicketsOn(s, s.db.seats[s.db.tickets[t].seat].flight) {
      LiveTicketBacksSeat(s, t);
    }
    forall i: nat | i in SoldOn(s, flight) ensures exists t :: t in LiveTicketsOn(s, flight) && s.db.tickets[t].seat == i {
      SoldSeatHasTicket(s, i);
      var t :| IsLive(s, t) && s.db.tickets[t].seat == i;
      assert t in LiveTicketsOn(s, flight);
    }
    forall t, u | t in LiveTicketsOn(s, flight) && u in LiveTicketsOn(s, flight) && s.db.tickets[t].seat == s.db.tickets[u].seat
      ensures t == u
    {
      LiveTicketsDiffer(s, t, u);
    }
    SameSize(LiveTicketsOn(s, flight), SoldOn(s, flight), s.db.tickets);
    SubsetIsSmaller(SoldOn(s, flight), SeatsOn(s, flight));
  }

  lemma {:induction false} SameSize(live: set<nat>, sold: set<nat>, tickets: seq<Ticket>)
    requires forall t :: t in live ==> t < |tickets| && tickets[t].seat in sold
    requires forall i :: i in sold ==> exists t :: t in live && t < |tickets| && tickets[t].seat == i
    requires forall t, u :: t in live && u in live && tickets[t].seat == tickets[u].seat ==> t == u
    ensures |live| == |sold|
  {
    if live == {} {
      assert sold == {};
    } else {
      var t :| t in live;
      var rest, less := live - {t}, sold - {tickets[t].seat};
      forall i | i in less ensures exists u :: u in rest && u < |tickets| && tickets[u].seat == i {
        var u :| u in live && u < |tickets| && tickets[u].seat == i;
        assert u in rest;
      }
      SameSize(rest, less, tickets);
    }
  }
}
