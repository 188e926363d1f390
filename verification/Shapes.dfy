/** Each of the six shapes keeps the invariant. */
module Shapes {
  import opened Domain
  import opened Inventory
  import opened Machine
  import opened Safety

  lemma MoveKeepsShape(s: System, t: System, b: nat)
    requires Safe(s) && Moves(s, t, b)
    ensures Shape(t)
  {
    forall c: nat | c < |t.db.bookings| ensures BookingOk(t, c) {
      assert BookingOk(s, c);
    }
  }

  lemma MoveKeepsLinks(s: System, t: System, b: nat)
    requires Safe(s) && Moves(s, t, b) && Shape(t)
    ensures forall i: nat :: i < |t.db.seats| ==> LinkOk(t, i)
    ensures forall x: nat :: x < |t.db.tickets| ==> TicketOk(t, x)
  {
    forall i: nat | i < |t.db.seats| ensures LinkOk(t, i) {
      assert LinkOk(s, i);
    }
    forall x: nat | x < |t.db.tickets| ensures TicketOk(t, x) {
      assert TicketOk(s, x);
    }
  }

  lemma MoveKeepsPins(s: System, t: System, b: nat, c: nat, k: nat)
    requires Safe(s) && Moves(s, t, b) && Shape(t)
    requires c < |t.db.bookings| && k < |t.db.bookings[c].seats|
    ensures RowOk(t, c, k) && PinOk(t, c, k) && IssuedOk(t, c, k)
  {
    assert k < |s.db.bookings[c].seats|;
    assert RowOk(s, c, k) && PinOk(s, c, k) && IssuedOk(s, c, k);
  }

  lemma MoveIsSafe(s: System, t: System, b: nat)
    requires Safe(s) && Moves(s, t, b)
    ensures Safe(t)
  {
    MoveKeepsShape(s, t, b);
    MoveKeepsLinks(s, t, b);
    forall c: nat, k: nat | c < |t.db.bookings| && k < |t.db.bookings[c].seats|
      ensures RowOk(t, c, k) && PinOk(t, c, k) && IssuedOk(t, c, k)
    {
      MoveKeepsPins(s, t, b, c, k);
    }
    forall c: nat | c < |t.db.bookings|
      ensures StateOk(t.sagas[c].pc, t.sagas[c].state, t.db.bookings[c].state) && RetryOk(t, c)
    {
      assert RetryOk(s, c) && StateOk(s.sagas[c].pc, s.sagas[c].state, s.db.bookings[c].state);
    }
    forall c: nat | c in t.cancels ensures CancelOk(t, c) {
      assert c != b ==> CancelOk(s, c);
    }
  }

  /** Safe reads neither the clock nor the configuration nor the acquires in flight. */
  lemma IdleIsSafe(s: System, t: System)
    requires Safe(s) && Idles(s, t)
    ensures Safe(t)
  {
    forall c: nat | c < |t.db.bookings| ensures BookingOk(t, c) {
      assert BookingOk(s, c);
    }
    forall i: nat | i < |t.db.seats| ensures LinkOk(t, i) {
      assert LinkOk(s, i);
    }
    forall x: nat | x < |t.db.tickets| ensures TicketOk(t, x) {
      assert TicketOk(s, x);
    }
    forall c: nat, k: nat | c < |t.db.bookings| && k < |t.db.bookings[c].seats|
      ensures RowOk(t, c, k) && PinOk(t, c, k) && IssuedOk(t, c, k)
    {
      assert RowOk(s, c, k) && PinOk(s, c, k) && IssuedOk(s, c, k);
    }
  }

  lemma ShuffleKeepsShape(s: System, t: System)
    requires Safe(s) && Shuffles(s, t)
    ensures Shape(t)
  {
    forall b: nat | b < |t.db.bookings| ensures BookingOk(t, b) {
      assert BookingOk(s, b);
      SumPricesFixed(s.db.seats, t.db.seats, s.db.bookings[b].seats);
    }
  }

  lemma ShuffleKeepsLinks(s: System, t: System)
    requires Safe(s) && Shuffles(s, t) && Shape(t)
    ensures forall i: nat :: i < |t.db.seats| ==> LinkOk(t, i)
    ensures forall x: nat :: x < |t.db.tickets| ==> TicketOk(t, x)
  {
    forall i: nat | i < |t.db.seats| ensures LinkOk(t, i) {
      assert LinkOk(s, i);
    }
    forall x: nat | x < |t.db.tickets| ensures TicketOk(t, x) {
      assert TicketOk(s, x);
    }
  }

  lemma ShuffleKeepsPins(s: System, t: System, c: nat, k: nat)
    requires Safe(s) && Shuffles(s, t) && Shape(t)
    requires c < |t.db.bookings| && k < |t.db.bookings[c].seats|
    ensures RowOk(t, c, k) && PinOk(t, c, k) && IssuedOk(t, c, k)
  {
    assert RowOk(s, c, k) && PinOk(s, c, k) && IssuedOk(s, c, k);
  }

  lemma ShuffleIsSafe(s: System, t: System)
    requires Safe(s) && Shuffles(s, t)
    ensures Safe(t)
  {
    ShuffleKeepsShape(s, t);
    ShuffleKeepsLinks(s, t);
    forall c: nat, k: nat | c < |t.db.bookings| && k < |t.db.bookings[c].seats|
      ensures RowOk(t, c, k) && PinOk(t, c, k) && IssuedOk(t, c, k)
    {
      ShuffleKeepsPins(s, t, c, k);
    }
    forall c: nat | c < |t.db.bookings|
      ensures StateOk(t.sagas[c].pc, t.sagas[c].state, t.db.bookings[c].state) && RetryOk(t, c)
    {
      assert RetryOk(s, c) && StateOk(s.sagas[c].pc, s.sagas[c].state, s.db.bookings[c].state);
    }
    forall c: nat | c in t.cancels ensures CancelOk(t, c) {
      assert CancelOk(s, c);
    }
  }

  lemma CloseKeepsShape(s: System, t: System, b: nat)
    requires Safe(s) && Closes(s, t, b)
    ensures Shape(t)
  {
    forall c: nat | c < |t.db.bookings| ensures BookingOk(t, c) {
      assert BookingOk(s, c);
      SumPricesFixed(s.db.seats, t.db.seats, s.db.bookings[c].seats);
    }
  }

  lemma CloseKeepsHolds(s: System, t: System, b: nat)
    requires Safe(s) && Closes(s, t, b)
    ensures HoldsOk(t.db.seats, t.db.nextHold)
  {
    forall i | 0 <= i < |t.db.seats| ensures SeatOk(t.db.seats[i]) && (t.db.seats[i].holdId.Some? ==> t.db.seats[i].holdId == s.db.seats[i].holdId) {
      assert GivenUp(s.db.seats[i], t.db.seats[i], b);
    }
  }

  lemma CloseKeepsLinks(s: System, t: System, b: nat)
    requires Safe(s) && Closes(s, t, b) && Shape(t)
    ensures forall i: nat :: i < |t.db.seats| ==> LinkOk(t, i)
    ensures forall x: nat :: x < |t.db.tickets| ==> TicketOk(t, x)
  {
    forall i: nat | i < |t.db.seats| ensures LinkOk(t, i) {
      assert LinkOk(s, i) && GivenUp(s.db.seats[i], t.db.seats[i], b);
    }
    forall x: nat | x < |t.db.tickets| ensures TicketOk(t, x) {
      assert TicketOk(s, x);
    }
  }

  lemma CloseKeepsPins(s: System, t: System, b: nat, c: nat, k: nat)
    requires Safe(s) && Closes(s, t, b) && Shape(t)
    requires c < |t.db.bookings| && k < |t.db.bookings[c].seats|
    ensures RowOk(t, c, k) && PinOk(t, c, k) && IssuedOk(t, c, k)
  {
    assert k < |s.db.bookings[c].seats| && BookingOk(s, c);
    assert RowOk(s, c, k) && PinOk(s, c, k) && IssuedOk(s, c, k);
    var i := s.db.bookings[c].seats[k];
    assert GivenUp(s.db.seats[i], t.db.seats[i], b);
    assert PhaseOf(t, c).Sold? ==> c != b && PhaseOf(s, c).Sold?;
  }

  lemma CloseIsSafe(s: System, t: System, b: nat)
    requires Safe(s) && Closes(s, t, b)
    ensures Safe(t)
  {
    CloseKeepsShape(s, t, b);
    CloseKeepsHolds(s, t, b);
    CloseKeepsLinks(s, t, b);
    forall c: nat, k: nat | c < |t.db.bookings| && k < |t.db.bookings[c].seats|
      ensures RowOk(t, c, k) && PinOk(t, c, k) && IssuedOk(t, c, k)
    {
      CloseKeepsPins(s, t, b, c, k);
    }
    forall c: nat | c < |t.db.bookings|
      ensures StateOk(t.sagas[c].pc, t.sagas[c].state, t.db.bookings[c].state) && RetryOk(t, c)
    {
      assert RetryOk(s, c) && StateOk(s.sagas[c].pc, s.sagas[c].state, s.db.bookings[c].state);
    }
    forall c: nat | c in t.cancels ensures CancelOk(t, c) {
      assert CancelOk(s, c);
    }
  }

  lemma SellKeepsShape(s: System, t: System, b: nat)
    requires Safe(s) && Sells(s, t, b)
    ensures Shape(t)
  {
    forall c: nat | c < |t.db.bookings| ensures BookingOk(t, c) {
      assert BookingOk(s, c);
      BookingStaysOk(s, t, c);
    }
  }

  /** A booking is as good as before while its row, its saga's rows and the fixed columns of the seats stand. */
  lemma BookingStaysOk(s: System, t: System, c: nat)
    requires c < |s.db.bookings| == |s.sagas| == |t.db.bookings| == |t.sagas| && BookingOk(s, c)
    requires SameSeats(s.db.seats, t.db.seats) && |t.sagas[c].rows| == |s.sagas[c].rows|
    requires t.db.bookings[c] == s.db.bookings[c].(state := t.db.bookings[c].state)
    ensures BookingOk(t, c)
  {
    SumPricesFixed(s.db.seats, t.db.seats, s.db.bookings[c].seats);
  }

  lemma SellKeepsHolds(seats: seq<Seat>, ids: seq<nat>, b: nat, nextHold: nat)
    requires HoldsOk(seats, nextHold) && forall k :: 0 <= k < |ids| ==> ids[k] < |seats| && seats[ids[k]].status.Held?
    ensures HoldsOk(Sell(seats, ids, b), nextHold)
  {
    var after := Sell(seats, ids, b);
    forall i | 0 <= i < |after| ensures SeatOk(after[i]) && (after[i].holdId.Some? ==> after[i].holdId == seats[i].holdId) {
      assert SeatOk(seats[i]);
      assert i in ids ==> exists k :: 0 <= k < |ids| && ids[k] == i;
    }
  }

  lemma SellKeepsLinks(s: System, t: System, b: nat)
    requires Safe(s) && Sells(s, t, b) && Shape(t)
    ensures forall i: nat :: i < |t.db.seats| ==> LinkOk(t, i)
  {
    forall i: nat | i < |t.db.seats| ensures LinkOk(t, i) {
      assert LinkOk(s, i);
    }
  }

  lemma SellKeepsTickets(s: System, t: System, b: nat)
    requires Safe(s) && Sells(s, t, b) && Shape(t)
    ensures forall x: nat :: x < |t.db.tickets| ==> TicketOk(t, x)
  {
    forall x: nat | x < |t.db.tickets| ensures TicketOk(t, x) {
      if x < |s.db.tickets| {
        assert TicketOk(s, x);
        assert t.db.tickets[x] == s.db.tickets[x];
      }
    }
  }

  lemma SellKeepsPins(s: System, t: System, b: nat, c: nat, k: nat)
    requires Safe(s) && Sells(s, t, b) && Shape(t)
    requires c < |t.db.bookings| && k < |t.db.bookings[c].seats|
    ensures RowOk(t, c, k) && PinOk(t, c, k) && IssuedOk(t, c, k)
  {
    if c == b { SellMakesOwnPins(s, t, b, k); } else { SellKeepsOtherPins(s, t, b, c, k); }
  }

  lemma SellMakesOwnPins(s: System, t: System, b: nat, k: nat)
    requires Safe(s) && Sells(s, t, b) && Shape(t)
    requires b < |t.db.bookings| && k < |t.db.bookings[b].seats|
    ensures RowOk(t, b, k) && PinOk(t, b, k) && IssuedOk(t, b, k)
  {
    assert k < |s.db.bookings[b].seats| && RowOk(s, b, k);
    assert s.db.seats[s.db.bookings[b].seats[k]] == s.sagas[b].rows[k];
  }

  lemma SellKeepsOtherPins(s: System, t: System, b: nat, c: nat, k: nat)
    requires Safe(s) && Sells(s, t, b) && Shape(t) && c != b
    requires c < |t.db.bookings| && k < |t.db.bookings[c].seats|
    ensures RowOk(t, c, k) && PinOk(t, c, k) && IssuedOk(t, c, k)
  {
    var booking := s.db.bookings[c];
    assert t.db.bookings[c] == booking && t.sagas[c] == s.sagas[c] && PhaseOf(t, c) == PhaseOf(s, c);
    assert RowOk(s, c, k) && PinOk(s, c, k) && IssuedOk(s, c, k);
    assert BookingOk(s, c);
    SoldApart(s.db.seats, s.db.bookings[b].seats, b, booking.seats[k], t.db.seats);
  }

  /** A sale rewrites only seats that were held for its own booking. */
  lemma SoldApart(before: seq<Seat>, ids: seq<nat>, b: nat, i: nat, after: seq<Seat>)
    requires after == Sell(before, ids, b) && i < |before| && InTable(before, ids)
    requires forall k :: 0 <= k < |ids| ==> before[ids[k]].status.Held? && before[ids[k]].booking == Some(b)
    ensures after[i] == before[i] || (before[i].status.Held? && before[i].booking == Some(b) == after[i].booking)
  {
    if i in ids {
      var j :| 0 <= j < |ids| && ids[j] == i;
    }
  }

  lemma SellIsSafe(s: System, t: System, b: nat)
    requires Safe(s) && Sells(s, t, b)
    ensures Safe(t)
  {
    SellKeepsShape(s, t, b);
    SellKeepsHolds(s.db.seats, s.db.bookings[b].seats, b, s.db.nextHold);
    SellKeepsLinks(s, t, b);
    SellKeepsTickets(s, t, b);
    forall c: nat, k: nat | c < |t.db.bookings| && k < |t.db.bookings[c].seats|
      ensures RowOk(t, c, k) && PinOk(t, c, k) && IssuedOk(t, c, k)
    {
      SellKeepsPins(s, t, b, c, k);
    }
    forall c: nat | c < |t.db.bookings|
      ensures StateOk(t.sagas[c].pc, t.sagas[c].state, t.db.bookings[c].state) && RetryOk(t, c)
    {
      assert RetryOk(s, c) && StateOk(s.sagas[c].pc, s.sagas[c].state, s.db.bookings[c].state);
    }
    forall c: nat | c in t.cancels ensures CancelOk(t, c) {
      assert CancelOk(s, c);
    }
  }

  lemma OpenKeepsShape(s: System, t: System)
    requires Safe(s) && Opens(s, t)
    ensures Shape(t)
  {
    forall c: nat | c < |t.db.bookings| ensures BookingOk(t, c) {
      if c < |s.db.bookings| {
        assert BookingOk(s, c);
      }
      SumPricesFixed(s.db.seats, t.db.seats, t.db.bookings[c].seats);
    }
  }

  lemma PinKeepsHolds(seats: seq<Seat>, ids: seq<nat>, b: nat, nextHold: nat)
    requires HoldsOk(seats, nextHold)
    ensures HoldsOk(Pin(seats, ids, b), nextHold)
  {
    var after := Pin(seats, ids, b);
    forall i | 0 <= i < |after| ensures SeatOk(after[i]) && after[i].holdId == seats[i].holdId {
      assert SeatOk(seats[i]);
    }
  }

  lemma OpenKeepsLinks(s: System, t: System)
    requires Safe(s) && Opens(s, t) && Shape(t)
    ensures forall i: nat :: i < |t.db.seats| ==> LinkOk(t, i)
    ensures forall x: nat :: x < |t.db.tickets| ==> TicketOk(t, x)
  {
    var ids := t.db.bookings[|s.db.bookings|].seats;
    forall i: nat | i < |t.db.seats| ensures LinkOk(t, i) {
      assert LinkOk(s, i);
      assert i in ids ==> exists k :: 0 <= k < |ids| && ids[k] == i;
    }
    forall x: nat | x < |t.db.tickets| ensures TicketOk(t, x) {
      assert TicketOk(s, x);
    }
  }

  lemma OpenKeepsOldPins(s: System, t: System, c: nat, k: nat)
    requires Safe(s) && Opens(s, t) && Shape(t)
    requires c < |s.db.bookings| && k < |s.db.bookings[c].seats|
    ensures RowOk(t, c, k) && PinOk(t, c, k) && IssuedOk(t, c, k)
  {
    var booking := s.db.bookings[c];
    assert t.db.bookings[c] == booking && t.sagas[c] == s.sagas[c] && PhaseOf(t, c) == PhaseOf(s, c);
    assert RowOk(s, c, k) && PinOk(s, c, k) && IssuedOk(s, c, k);
    assert BookingOk(s, c);
    PinnedApart(s.db.seats, t.db.bookings[|s.db.bookings|].seats, |s.db.bookings|, booking.seats[k], t.db.seats);
  }

  /** Pinning rewrites only held seats, and makes them point at the new booking. */
  lemma PinnedApart(before: seq<Seat>, ids: seq<nat>, b: nat, i: nat, after: seq<Seat>)
    requires after == Pin(before, ids, b) && i < |before| && InTable(before, ids)
    requires forall k :: 0 <= k < |ids| ==> before[ids[k]].status.Held?
    ensures after[i] == before[i] || (before[i].status.Held? && after[i].booking == Some(b))
  {
    if i in ids {
      var j :| 0 <= j < |ids| && ids[j] == i;
    }
  }

  lemma OpenMakesNewPins(s: System, t: System, k: nat)
    requires Safe(s) && Opens(s, t) && Shape(t)
    requires k < |t.db.bookings[|s.db.bookings|].seats|
    ensures RowOk(t, |s.db.bookings|, k) && PinOk(t, |s.db.bookings|, k) && IssuedOk(t, |s.db.bookings|, k)
  {
    assert SeatOk(s.db.seats[t.db.bookings[|s.db.bookings|].seats[k]]);
  }

  lemma OpenIsSafe(s: System, t: System)
    requires Safe(s) && Opens(s, t)
    ensures Safe(t)
  {
    OpenKeepsShape(s, t);
    PinKeepsHolds(s.db.seats, t.db.bookings[|s.db.bookings|].seats, |s.db.bookings|, s.db.nextHold);
    OpenKeepsLinks(s, t);
    forall c: nat, k: nat | c < |t.db.bookings| && k < |t.db.bookings[c].seats|
      ensures RowOk(t, c, k) && PinOk(t, c, k) && IssuedOk(t, c, k)
    {
      if c < |s.db.bookings| {
        OpenKeepsOldPins(s, t, c, k);
      } else {
        OpenMakesNewPins(s, t, k);
      }
    }
    OpenKeepsStates(s, t);
  }

  lemma OpenKeepsStates(s: System, t: System)
    requires Safe(s) && Opens(s, t) && Shape(t)
    ensures forall c: nat :: c < |t.db.bookings| ==> StateOk(t.sagas[c].pc, t.sagas[c].state, t.db.bookings[c].state) && RetryOk(t, c)
    ensures forall c: nat :: c in t.cancels ==> CancelOk(t, c)
  {
    forall c: nat | c < |t.db.bookings|
      ensures StateOk(t.sagas[c].pc, t.sagas[c].state, t.db.bookings[c].state) && RetryOk(t, c)
    {
      assert c < |s.db.bookings| ==> RetryOk(s, c) && StateOk(s.sagas[c].pc, s.sagas[c].state, s.db.bookings[c].state);
    }
    forall c: nat | c in t.cancels ensures CancelOk(t, c) {
      assert CancelOk(s, c);
    }
  }
}
