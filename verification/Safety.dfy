/** The joint invariant over seats, bookings and tickets, kept by every step of every interleaving. */
module Safety {
  import opened Domain
  import opened Inventory
  import opened Store
  import opened Machine

  // ----- a booking's relation to inventory -----

  datatype Phase =
    | Open    // its seats may be pinned, none is sold
    | Sold    // every passenger has a seat
    | Closed  // it has given its seats up for ever

  function PhaseAt(pc: Pc, state: BookingState): Phase {
    match pc
    case Issuing => Phase.Sold
    case CaptureSent => Phase.Sold
    case Succeeded => if state.Cancelled? then Closed else Phase.Sold
    case Failed => Closed
    case Undone => Closed
    case Stuck => Closed
    case _ => Open
  }

  predicate HasIssued(saga: Saga) {
    saga.pc.Issuing? || saga.pc.CaptureSent? || saga.pc.Succeeded?
  }

  function PhaseOf(s: System, b: nat): Phase
    requires b < |s.sagas| && b < |s.db.bookings|
  {
    PhaseAt(s.sagas[b].pc, s.db.bookings[b].state)
  }

  // ----- the conjuncts -----

  ghost predicate BookingOk(s: System, b: nat)
    requires b < |s.db.bookings| == |s.sagas|
  {
    var ids := s.db.bookings[b].seats;
    && 0 < |ids| == |s.sagas[b].rows|
    && InTable(s.db.seats, ids)
    && NoDuplicates(ids)
    && (forall k :: 0 <= k < |ids| ==> s.db.seats[ids[k]].flight == s.db.bookings[b].flight)
    && s.db.bookings[b].total == SumPrices(s.db.seats, ids)
  }

  ghost predicate Shape(s: System) {
    && |s.sagas| == |s.db.bookings|
    && (forall b: nat :: b < |s.db.bookings| ==> BookingOk(s, b))
    && (forall b :: b in s.db.payments ==> b < |s.db.bookings|)
    && (forall b :: b in s.cancels ==> b < |s.db.bookings|)
  }

  ghost predicate SeatOk(seat: Seat) {
    match seat.status
    case Available => seat.holder.None? && seat.holdId.None? && seat.expires.None?
    case Held => seat.holder.Some? && seat.holdId.Some? && seat.expires.Some?
    case Booked => seat.holder.Some? && seat.holdId.None? && seat.expires.None? && seat.booking.Some?
  }

  ghost predicate HoldsOk(seats: seq<Seat>, nextHold: nat) {
    && (forall i :: 0 <= i < |seats| ==> SeatOk(seats[i]))
    && (forall i :: 0 <= i < |seats| && seats[i].holdId.Some? ==> seats[i].holdId.value < nextHold)
    && (forall i, j :: 0 <= i < j < |seats| && seats[i].holdId.Some? ==> seats[i].holdId != seats[j].holdId)
    && (forall i, j :: 0 <= i < j < |seats| ==> !Inventory.At(seats[j], seats[i].flight, seats[i].place))
  }

  /** A seat's booking_id names a booking that was given the seat and has not given it up. */
  ghost predicate LinkOk(s: System, i: nat)
    requires Shape(s) && i < |s.db.seats|
  {
    s.db.seats[i].booking.Some? ==>
      var b := s.db.seats[i].booking.value;
      && b < |s.db.bookings|
      && i in s.db.bookings[b].seats
      && !PhaseOf(s, b).Closed?
      && (s.db.seats[i].status.Booked? ==> PhaseOf(s, b).Sold?)
  }

  /** The row the saga remembers was a hold of its own user, pinned to its own booking. */
  ghost predicate RowOk(s: System, b: nat, k: nat)
    requires Shape(s) && b < |s.db.bookings| && k < |s.db.bookings[b].seats|
  {
    assert BookingOk(s, b);
    var row := s.sagas[b].rows[k];
    && row.status.Held? && row.holder == Some(s.db.bookings[b].user) && row.booking == Some(b)
    && row.holdId.Some? && row.holdId.value < s.db.nextHold
  }

  /** While the seat stays held for the booking it is, to the last column, the row step 1 left;
    * once sold it is that row, sold. */
  ghost predicate PinOk(s: System, b: nat, k: nat)
    requires Shape(s) && b < |s.db.bookings| && k < |s.db.bookings[b].seats|
  {
    assert BookingOk(s, b);
    var i := s.db.bookings[b].seats[k];
    && (s.db.seats[i].booking == Some(b) && s.db.seats[i].status.Held? ==> s.db.seats[i] == s.sagas[b].rows[k])
    && (PhaseOf(s, b).Sold? ==> s.db.seats[i] == Inventory.Sold(s.sagas[b].rows[k], b))
  }

  ghost predicate TicketOk(s: System, t: nat)
    requires Shape(s) && t < |s.db.tickets|
  {
    var ticket := s.db.tickets[t];
    !ticket.voided ==>
      && ticket.booking < |s.db.bookings|
      && PhaseOf(s, ticket.booking).Sold?
      && ticket.passenger < |s.db.bookings[ticket.booking].seats|
      && t == s.sagas[ticket.booking].firstTicket + ticket.passenger
      && ticket.seat == s.db.bookings[ticket.booking].seats[ticket.passenger]
  }

  ghost predicate IssuedOk(s: System, b: nat, k: nat)
    requires Shape(s) && b < |s.db.bookings| && k < |s.db.bookings[b].seats|
  {
    PhaseOf(s, b).Sold? ==>
      && s.sagas[b].firstTicket + k < |s.db.tickets|
      && s.db.tickets[s.sagas[b].firstTicket + k] == Ticket(b, k, s.db.bookings[b].seats[k], false)
  }

  /** The (control point, booking state) table. TICKETED and CONFIRMED may have been overwritten by a
    * cancel whose refund failed. */
  ghost predicate StateOk(pc: Pc, local: BookingState, state: BookingState) {
    match pc
    case Opened => local == state == Pending
    case Charging => local == state == Pending
    case SawTimeout => local == state == Pending
    case Retrying => local == state == Pending
    case Answered(_) => local == state == Pending
    case Authorized => local == state == PaymentAuthorized
    case Issuing => local == Ticketed && (state == Ticketed || state == NeedsManualReview)
    case CaptureSent => local == Ticketed && (state == Ticketed || state == NeedsManualReview)
    case Succeeded => local == Confirmed && (state == Confirmed || state == Cancelled || state == NeedsManualReview)
    case Compensates => local == state == Compensating
    case Reversed(_) => local == state == Compensating
    case ReversalFailed => local == state == Compensating
    case Failed => local == state == PaymentFailed
    case Undone => local == state == Voided
    case Stuck => local == state == NeedsManualReview
    case Crashed => false
  }

  /** A retry finds its key answered or already timed out, so it is always answered. */
  ghost predicate RetryOk(s: System, b: nat)
    requires b < |s.db.bookings| == |s.sagas|
  {
    var key := AuthKey(s.db.bookings[b].key);
    s.sagas[b].pc.SawTimeout? || s.sagas[b].pc.Retrying? ==>
      key in s.gw.authorizations || key in s.gw.timedOutOnce
  }

  /** A cancel loaded TICKETED or CONFIRMED, and the booking has at most been confirmed since. */
  ghost predicate CancelRunOk(run: CancelRun, state: BookingState) {
    && (state == Ticketed || state == Confirmed)
    && (run.state == Confirmed || run.state == Ticketed)
    && (run.state == Confirmed ==> state == Confirmed)
  }

  ghost predicate CancelOk(s: System, b: nat)
    requires Shape(s) && b in s.cancels
  {
    CancelRunOk(s.cancels[b], s.db.bookings[b].state)
  }

  ghost predicate Safe(s: System) {
    && Shape(s)
    && HoldsOk(s.db.seats, s.db.nextHold)
    && (forall i: nat :: i < |s.db.seats| ==> LinkOk(s, i))
    && (forall b: nat, k: nat :: b < |s.db.bookings| && k < |s.db.bookings[b].seats| ==> RowOk(s, b, k))
    && (forall b: nat, k: nat :: b < |s.db.bookings| && k < |s.db.bookings[b].seats| ==> PinOk(s, b, k))
    && (forall t: nat :: t < |s.db.tickets| ==> TicketOk(s, t))
    && (forall b: nat, k: nat :: b < |s.db.bookings| && k < |s.db.bookings[b].seats| ==> IssuedOk(s, b, k))
    && (forall b: nat :: b < |s.db.bookings| ==>
         StateOk(s.sagas[b].pc, s.sagas[b].state, s.db.bookings[b].state) && RetryOk(s, b))
    && (forall b: nat :: b in s.cancels ==> CancelOk(s, b))
  }

  lemma StartIsSafe(cfg: Config, now: int, seats: seq<Seat>)
    requires Seeded(seats)
    ensures Safe(Start(cfg, now, seats))
  {}

  // ----- the six shapes a step's effect can have -----

  /** Nothing but booking b's own payment, and no clock, counter or configuration, has changed. */
  ghost predicate FrameOf(s: System, t: System, b: nat) {
    && b < |s.sagas| == |s.db.bookings| == |t.sagas| == |t.db.bookings|
    && t.cfg == s.cfg && t.now == s.now && t.counted == s.counted && t.db.nextHold == s.db.nextHold
    && t.sagas == s.sagas[b := s.sagas[b].(pc := t.sagas[b].pc, state := t.sagas[b].state, firstTicket := t.sagas[b].firstTicket)]
    && t.db.bookings == s.db.bookings[b := s.db.bookings[b].(state := t.db.bookings[b].state)]
    && t.db.payments.Keys <= s.db.payments.Keys + {b}
    && (forall c :: c in s.db.payments && c != b ==> c in t.db.payments && t.db.payments[c] == s.db.payments[c])
    && t.cancels.Keys <= s.cancels.Keys + {b}
    && (forall c :: c in t.cancels && c != b ==> t.cancels[c] == s.cancels[c])
    && s.gw.authorizations.Keys <= t.gw.authorizations.Keys && s.gw.timedOutOnce <= t.gw.timedOutOnce
  }

  ghost predicate Idles(s: System, t: System) {
    t == s.(now := t.now, counted := t.counted)
  }

  /** Booking b's state and its saga's control point move, within one phase; inventory is untouched. */
  ghost predicate Moves(s: System, t: System, b: nat) {
    && FrameOf(s, t, b)
    && t.db.seats == s.db.seats && t.db.tickets == s.db.tickets
    && t.sagas[b].firstTicket == s.sagas[b].firstTicket
    && PhaseOf(t, b) == PhaseOf(s, b) && HasIssued(t.sagas[b]) == HasIssued(s.sagas[b])
    && StateOk(t.sagas[b].pc, t.sagas[b].state, t.db.bookings[b].state) && RetryOk(t, b)
    && (b in t.cancels ==> CancelRunOk(t.cancels[b], t.db.bookings[b].state))
  }

  /** A seat may be taken afresh or let go, but only while it is not sold. */
  ghost predicate Shuffled(before: Seat, after: Seat, nextHold: nat) {
    before == after
    || (!before.status.Booked? && !after.status.Booked?
        && (after.holdId.Some? ==> after.holdId == Some(nextHold))
        && (after.booking.None? || (after.booking == before.booking && !after.status.Held?)))
  }

  ghost predicate Shuffles(s: System, t: System) {
    && t == s.(db := s.db.(seats := t.db.seats, nextHold := t.db.nextHold), counted := t.counted)
    && SameSeats(s.db.seats, t.db.seats) && s.db.nextHold <= t.db.nextHold
    && (forall i :: 0 <= i < |s.db.seats| ==> Shuffled(s.db.seats[i], t.db.seats[i], s.db.nextHold))
    && HoldsOk(t.db.seats, t.db.nextHold)
  }

  ghost predicate GivenUp(before: Seat, after: Seat, b: nat) {
    if before.booking == Some(b)
    then after.booking.None? && SeatOk(after) && (after.holdId.None? || after.holdId == before.holdId)
    else after == before
  }

  /** Booking b gives up its seats and its live tickets for ever. */
  ghost predicate Closes(s: System, t: System, b: nat) {
    && FrameOf(s, t, b)
    && SameSeats(s.db.seats, t.db.seats) && |t.db.tickets| == |s.db.tickets|
    && (forall i :: 0 <= i < |s.db.seats| ==> GivenUp(s.db.seats[i], t.db.seats[i], b))
    && (forall x :: 0 <= x < |s.db.tickets| ==>
         if s.db.tickets[x].booking == b then t.db.tickets[x].voided else t.db.tickets[x] == s.db.tickets[x])
    && t.sagas[b].firstTicket == s.sagas[b].firstTicket
    && PhaseOf(t, b).Closed? && HasIssued(t.sagas[b]) == HasIssued(s.sagas[b]) && b !in t.cancels
    && StateOk(t.sagas[b].pc, t.sagas[b].state, t.db.bookings[b].state)
  }

  /** Booking b's seats, every one still as step 1 left it, are sold and ticketed. */
  ghost predicate Sells(s: System, t: System, b: nat) {
    && FrameOf(s, t, b)
    && var ids := s.db.bookings[b].seats;
    && t.db.seats == Sell(s.db.seats, ids, b) && t.db.tickets == s.db.tickets + NewTickets(b, ids)
    && t.sagas[b].firstTicket == |s.db.tickets|
    && SagaAt(s, b, Authorized) && SagaAt(t, b, Issuing) && t.sagas[b].state == t.db.bookings[b].state == Ticketed
    && t.db.payments == s.db.payments && t.cancels == s.cancels && b !in s.cancels && t.gw == s.gw
    && BookingOk(s, b)
    && forall k :: 0 <= k < |ids| ==>
         s.db.seats[ids[k]] == s.sagas[b].rows[k] && s.db.seats[ids[k]].status.Held? && s.db.seats[ids[k]].booking == Some(b)
  }

  /** A new booking pins seats its user holds. */
  ghost predicate Opens(s: System, t: System) {
    && |s.sagas| == |s.db.bookings| && |t.sagas| == |t.db.bookings| == |s.sagas| + 1
    && var b := |s.db.bookings|;
    && var booking := t.db.bookings[b];
    && var ids := booking.seats;
    && t.db.bookings == s.db.bookings + [booking] && booking.state == Pending
    && t.sagas == s.sagas + [t.sagas[b]] && t.sagas[b].pc == Opened && t.sagas[b].state == Pending
    && t.db.seats == Pin(s.db.seats, ids, b)
    && InTable(s.db.seats, ids) && NoDuplicates(ids) && |ids| > 0
    && InTable(t.db.seats, ids) && t.sagas[b].rows == RowsAt(t.db.seats, ids)
    && (forall k :: 0 <= k < |ids| ==>
         s.db.seats[ids[k]].status.Held? && s.db.seats[ids[k]].holder == Some(booking.user)
         && s.db.seats[ids[k]].flight == booking.flight)
    && booking.total == SumPrices(s.db.seats, ids)
    && t.db.tickets == s.db.tickets && t.db.payments == s.db.payments && t.db.nextHold == s.db.nextHold
    && t.gw == s.gw && t.cancels == s.cancels && t.now == s.now && t.counted == s.counted && t.cfg == s.cfg
  }
}
