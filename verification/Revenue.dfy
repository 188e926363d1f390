/** Revenue conservation: what the sold seats of a flight cost is what its ticketed bookings were charged. */
module Revenue {
  import opened Domain
  import opened Inventory
  import opened Store
  import opened Machine
  import opened Safety
  import opened Runs
  import opened Oversell

  /** The prices of the sold seats of a flight, over the first n seats. */
  function SoldValue(seats: seq<Seat>, n: nat, flight: nat): int
    requires n <= |seats|
  {
    if n == 0 then 0
    else SoldValue(seats, n - 1, flight)
         + if seats[n - 1].status.Booked? && seats[n - 1].flight == flight then seats[n - 1].price else 0
  }

  ghost predicate OwnsLiveTicket(s: System, b: nat) {
    exists t :: IsLive(s, t) && s.db.tickets[t].booking == b
  }

  /** The totals of the bookings of a flight that own live tickets, over the first n bookings. */
  ghost function ChargedValue(s: System, n: nat, flight: nat): int
    requires n <= |s.db.bookings|
  {
    if n == 0 then 0
    else ChargedValue(s, n - 1, flight)
         + if s.db.bookings[n - 1].flight == flight && OwnsLiveTicket(s, n - 1) then s.db.bookings[n - 1].total else 0
  }

  // ----- the sold seats, booking by booking -----

  predicate SoldBelow(seat: Seat, flight: nat, m: nat) {
    seat.status.Booked? && seat.flight == flight && seat.booking.Some? && seat.booking.value < m
  }

  function ValueBelow(seats: seq<Seat>, n: nat, flight: nat, m: nat): int
    requires n <= |seats|
  {
    if n == 0 then 0
    else ValueBelow(seats, n - 1, flight, m) + if SoldBelow(seats[n - 1], flight, m) then seats[n - 1].price else 0
  }

  function ValueOf(seats: seq<Seat>, n: nat, ids: seq<nat>): int
    requires n <= |seats|
  {
    if n == 0 then 0 else ValueOf(seats, n - 1, ids) + if n - 1 in ids then seats[n - 1].price else 0
  }

  lemma {:induction false} ValueOfOneMore(seats: seq<Seat>, n: nat, front: seq<nat>, id: nat)
    requires n <= |seats| && id !in front
    ensures ValueOf(seats, n, front + [id]) == ValueOf(seats, n, front) + if id < n then seats[id].price else 0
  {
    if n > 0 {
      ValueOfOneMore(seats, n - 1, front, id);
    }
  }

  /** Summing seat by seat or passenger by passenger gives the same, as no seat is listed twice. */
  lemma {:induction false} ValueOfIsSum(seats: seq<Seat>, ids: seq<nat>)
    requires InTable(seats, ids) && NoDuplicates(ids)
    ensures ValueOf(seats, |seats|, ids) == SumPrices(seats, ids)
  {
    if ids == [] {
      ValueOfNone(seats, |seats|);
    } else {
      var front := ids[..|ids| - 1];
      assert ids == front + [ids[|ids| - 1]];
      ValueOfIsSum(seats, front);
      ValueOfOneMore(seats, |seats|, front, ids[|ids| - 1]);
    }
  }

  lemma {:induction false} ValueOfNone(seats: seq<Seat>, n: nat)
    requires n <= |seats|
    ensures ValueOf(seats, n, []) == 0
  {
    if n > 0 {
      ValueOfNone(seats, n - 1);
    }
  }

  lemma {:induction false} ValueBelowOneMore(seats: seq<Seat>, n: nat, flight: nat, m: nat, ids: seq<nat>)
    requires n <= |seats|
    requires forall i: nat :: i < n ==>
      (SoldBelow(seats[i], flight, m + 1) <==> (SoldBelow(seats[i], flight, m) || i in ids))
      && !(SoldBelow(seats[i], flight, m) && i in ids)
    ensures ValueBelow(seats, n, flight, m + 1) == ValueBelow(seats, n, flight, m) + ValueOf(seats, n, ids)
  {
    if n > 0 {
      ValueBelowOneMore(seats, n - 1, flight, m, ids);
    }
  }

  lemma {:induction false} ValueBelowZero(seats: seq<Seat>, n: nat, flight: nat)
    requires n <= |seats|
    ensures ValueBelow(seats, n, flight, 0) == 0
  {
    if n > 0 {
      ValueBelowZero(seats, n - 1, flight);
    }
  }

  lemma {:induction false} ValueBelowAll(seats: seq<Seat>, n: nat, flight: nat, m: nat)
    requires n <= |seats|
    requires forall i: nat :: i < n && seats[i].status.Booked? ==> seats[i].booking.Some? && seats[i].booking.value < m
    ensures ValueBelow(seats, n, flight, m) == SoldValue(seats, n, flight)
  {
    if n > 0 {
      ValueBelowAll(seats, n - 1, flight, m);
    }
  }

  /** The seats that booking m adds: its own if it is a ticketed booking of this flight, none otherwise. */
  ghost function Contribution(s: System, m: nat, flight: nat): seq<nat>
    requires m < |s.db.bookings|
  {
    if s.db.bookings[m].flight == flight && OwnsLiveTicket(s, m) then s.db.bookings[m].seats else []
  }

  lemma OwnsExactlyItsSeats(s: System, m: nat, i: nat)
    requires Safe(s) && m < |s.db.bookings| && i < |s.db.seats|
    ensures s.db.seats[i].status.Booked? && s.db.seats[i].booking == Some(m) <==> OwnsLiveTicket(s, m) && i in s.db.bookings[m].seats
  {
    if PhaseOf(s, m).Sold? {
      SoldIsFullyTicketed(s, m);
      assert BookingOk(s, m);
      assert exists t :: IsLive(s, t) && s.db.tickets[t] == Ticket(m, 0, s.db.bookings[m].seats[0], false);
      if i in s.db.bookings[m].seats {
        var k :| 0 <= k < |s.db.bookings[m].seats| && s.db.bookings[m].seats[k] == i;
        assert SoldTo(s.db.seats[s.db.bookings[m].seats[k]], m, s.db.bookings[m]);
      }
    } else {
      UnsoldIsTicketless(s, m);
    }
  }

  lemma ContributionIsExact(s: System, m: nat, flight: nat, i: nat)
    requires Safe(s) && m < |s.db.bookings| && i < |s.db.seats|
    ensures i in Contribution(s, m, flight) <==>
      s.db.seats[i].status.Booked? && s.db.seats[i].flight == flight && s.db.seats[i].booking == Some(m)
  {
    OwnsExactlyItsSeats(s, m, i);
    assert BookingOk(s, m);
    if i in s.db.bookings[m].seats {
      var k :| 0 <= k < |s.db.bookings[m].seats| && s.db.bookings[m].seats[k] == i;
      assert s.db.seats[s.db.bookings[m].seats[k]].flight == s.db.bookings[m].flight;
    }
  }

  lemma {:induction false} ChargedIsValueBelow(s: System, m: nat, flight: nat)
    requires Safe(s) && m <= |s.db.bookings|
    ensures ChargedValue(s, m, flight) == ValueBelow(s.db.seats, |s.db.seats|, flight, m)
  {
    if m == 0 {
      ValueBelowZero(s.db.seats, |s.db.seats|, flight);
    } else {
      ChargedIsValueBelow(s, m - 1, flight);
      ContributionAdds(s, m - 1, flight);
    }
  }

  /** Booking m adds to the sold seats' value what it adds to the totals charged. */
  lemma ContributionAdds(s: System, m: nat, flight: nat)
    requires Safe(s) && m < |s.db.bookings|
    ensures var charged := if s.db.bookings[m].flight == flight && OwnsLiveTicket(s, m) then s.db.bookings[m].total else 0;
      ValueBelow(s.db.seats, |s.db.seats|, flight, m + 1) == ValueBelow(s.db.seats, |s.db.seats|, flight, m) + charged
  {
    var ids := Contribution(s, m, flight);
    forall i: nat | i < |s.db.seats|
      ensures i in ids <==> s.db.seats[i].status.Booked? && s.db.seats[i].flight == flight && s.db.seats[i].booking == Some(m)
    {
      ContributionIsExact(s, m, flight, i);
    }
    ValueBelowOneMore(s.db.seats, |s.db.seats|, flight, m, ids);
    assert BookingOk(s, m);
    ValueOfIsSum(s.db.seats, ids);
  }

  /** In every reachable state, flight by flight: the prices of the sold seats add up to exactly what the
    * bookings that own live tickets were charged. */
  lemma RevenueIsConserved(s: System, flight: nat)
    requires Reachable(s)
    ensures SoldValue(s.db.seats, |s.db.seats|, flight) == ChargedValue(s, |s.db.bookings|, flight)
  {
    ReachableIsSafe(s);
    ChargedIsValueBelow(s, |s.db.bookings|, flight);
    forall i: nat | i < |s.db.seats| && s.db.seats[i].status.Booked?
      ensures s.db.seats[i].booking.Some? && s.db.seats[i].booking.value < |s.db.bookings|
    {
      assert SeatOk(s.db.seats[i]) && LinkOk(s, i);
    }
    ValueBelowAll(s.db.seats, |s.db.seats|, flight, |s.db.bookings|);
  }
}
