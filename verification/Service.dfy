/** The tables as the object the services update in place, one method per statement or transaction, each
  * proved to leave exactly the rows its specification in Inventory and Store says. */
module Service {
  import opened Domain
  import opened Inventory
  import opened Store
  import opened Expiry
  import Money

  datatype Acquire = Acquired(hold: nat) | TooManyHolds | NoSuchSeat | SeatUnavailable

  datatype Opening = Opened(b: nat) | NotYours | Expired | MixedFlights

  datatype Issuance = Done | Failed | Raised

  function CountIf(seats: seq<Seat>, n: nat, p: Seat -> bool): nat
    requires n <= |seats|
  {
    if n == 0 then 0 else CountIf(seats, n - 1, p) + if p(seats[n - 1]) then 1 else 0
  }

  lemma {:induction false} CountIfAny(seats: seq<Seat>, n: nat, p: Seat -> bool)
    requires n <= |seats|
    ensures CountIf(seats, n, p) > 0 <==> exists i :: 0 <= i < n && p(seats[i])
  {
    if n > 0 {
      CountIfAny(seats, n - 1, p);
    }
  }

  ghost function Satisfying(seats: seq<Seat>, n: nat, p: Seat -> bool): set<nat>
    requires n <= |seats|
  {
    set i: nat | i < n && p(seats[i])
  }

  lemma {:induction false} CountIfIsSize(seats: seq<Seat>, n: nat, p: Seat -> bool)
    requires n <= |seats|
    ensures CountIf(seats, n, p) == |Satisfying(seats, n, p)|
  {
    if n > 0 {
      CountIfIsSize(seats, n - 1, p);
      assert Satisfying(seats, n, p) == Satisfying(seats, n - 1, p) + if p(seats[n - 1]) then {n - 1} else {};
    }
  }

  /** The seat at that place, on sale or held past its expiry. */
  ghost predicate IsFree(row: Seat, flight: nat, place: Place, now: int) {
    row.flight == flight && row.place == place
    && (row.status == Available || (row.status == Held && row.expires.Some? && row.expires.value < now))
  }

  /** Held under that id, by that user if one is named. */
  ghost predicate IsHeldUnder(row: Seat, hold: nat, user: Option<nat>) {
    row.status == Held && row.holdId == Some(hold) && (user == None || row.holder == user)
  }

  class Database {
    var seats: seq<Seat>
    var bookings: seq<Booking>
    var payments: map<nat, Payment>
    var tickets: seq<Ticket>
    var audit: seq<AuditRow>
    var nextHold: nat

    function Rows(): Tables
      reads this
    {
      Tables(seats, bookings, payments, tickets, audit, nextHold)
    }

    constructor (inventory: seq<Seat>)
      ensures Rows() == Tables(inventory, [], map[], [], [], 0)
    {
      seats, bookings, payments := inventory, [], map[];
      tickets, audit, nextHold := [], [], 0;
    }

    /** The session's rollback: the rows are what they were when the transaction began. */
    method Rollback(saved: Tables)
      modifies this
      ensures Rows() == saved
    {
      seats, bookings, payments := saved.seats, saved.bookings, saved.payments;
      tickets, audit, nextHold := saved.tickets, saved.audit, saved.nextHold;
    }

    // ----- app/services/audit.py -----

    method Record(b: nat, event: Event, from: Option<BookingState>, to: Option<BookingState>)
      modifies this
      ensures Rows() == old(Rows()).(audit := Store.Record(old(audit), b, event, from, to))
    {
      var top := 0;
      for i := 0 to |audit|
        invariant top == MaxNumber(audit[..i], b)
      {
        assert audit[..i + 1][..i] == audit[..i];
        if audit[i].booking == b && audit[i].number > top {
          top := audit[i].number;
        }
      }
      assert audit[..|audit|] == audit;
      audit := audit + [AuditRow(b, top + 1, event, from, to)];
    }

    // ----- app/services/holds.py -----

    method CountActiveHolds(user: nat, now: int) returns (count: nat)
      ensures count == LiveHolds(seats, |seats|, user, now) == |HeldBy(seats, |seats|, user, now)|
    {
      LiveHoldsAreCounted(seats, |seats|, user, now);
      count := 0;
      for i := 0 to |seats|
        invariant count == LiveHolds(seats, i, user, now)
      {
        if seats[i].holder == Some(user) && HoldIsLive(seats[i], now) {
          count := count + 1;
        }
      }
    }

    /** The conditional UPDATE, and the number of rows it returned. */
    method TakeSeat(user: nat, flight: nat, place: Place, now: int, ttl: nat) returns (rows: nat)
      modifies this
      ensures Rows() == Store.TakeSeat(old(Rows()), user, flight, place, now, ttl)
      ensures rows == CountIf(old(seats), |old(seats)|, (seat: Seat) => Inventory.At(seat, flight, place) && Takeable(seat, now))
    {
      rows := 0;
      ghost var hit := (seat: Seat) => Inventory.At(seat, flight, place) && Takeable(seat, now);
      var hold := nextHold;
      nextHold := nextHold + 1;
      for i := 0 to |seats|
        invariant |seats| == |old(seats)| && Rows() == old(Rows()).(seats := seats, nextHold := hold + 1)
        invariant forall k :: 0 <= k < i ==> seats[k] == TakeAt(old(seats), flight, place, user, hold, now, ttl)[k]
        invariant forall k :: i <= k < |seats| ==> seats[k] == old(seats)[k]
        invariant rows == CountIf(old(seats), i, hit)
      {
        if Inventory.At(seats[i], flight, place) && Takeable(seats[i], now) {
          seats := seats[i := Taken(seats[i], user, hold, now + ttl)];
          rows := rows + 1;
        }
      }
      assert seats == TakeAt(old(seats), flight, place, user, hold, now, ttl);
    }

    /** One caller's acquire, undisturbed: refused above the cap, otherwise the seat is the caller's exactly if
      * it could be taken. A refusal leaves every row as it was. */
    method AcquireHold(user: nat, flight: nat, place: Place, now: int, ttl: nat, maxHolds: nat) returns (answer: Acquire)
      modifies this
      ensures old(|HeldBy(seats, |seats|, user, now)|) >= maxHolds ==> answer.TooManyHolds? && Rows() == old(Rows())
      ensures old(|HeldBy(seats, |seats|, user, now)|) < maxHolds ==>
        && Rows() == Store.TakeSeat(old(Rows()), user, flight, place, now, ttl)
        && (answer.Acquired? <==> exists i :: 0 <= i < |old(seats)| && IsFree(old(seats)[i], flight, place, now))
        && (answer.Acquired? ==> answer.hold == old(nextHold))
        && (!answer.Acquired? ==> seats == old(seats))
        && (answer.NoSuchSeat? <==> forall i :: 0 <= i < |old(seats)| ==> old(seats)[i].flight != flight || old(seats)[i].place != place)
        && !answer.TooManyHolds?
    {
      var active := CountActiveHolds(user, now);
      if active >= maxHolds {
        return TooManyHolds;
      }
      var hold := nextHold;
      var rows := TakeSeat(user, flight, place, now, ttl);
      CountIfAny(old(seats), |old(seats)|, (seat: Seat) => Inventory.At(seat, flight, place) && Takeable(seat, now));
      if rows > 0 {
        return Acquired(hold);
      }
      assert seats == old(seats);
      var known := false;
      for i := 0 to |seats|
        invariant known <==> exists k :: 0 <= k < i && Inventory.At(seats[k], flight, place)
      {
        known := known || Inventory.At(seats[i], flight, place);
      }
      return if known then SeatUnavailable else NoSuchSeat;
    }

    method ReleaseHold(hold: nat, user: Option<nat>) returns (released: bool)
      modifies this
      ensures Rows() == old(Rows()).(seats := Inventory.ReleaseHold(old(seats), hold, user))
      ensures released <==> exists i :: 0 <= i < |old(seats)| && IsHeldUnder(old(seats)[i], hold, user)
    {
      var rows := 0;
      for i := 0 to |seats|
        invariant |seats| == |old(seats)| && Rows() == old(Rows()).(seats := seats)
        invariant forall k :: 0 <= k < i ==> seats[k] == Inventory.ReleaseHold(old(seats), hold, user)[k]
        invariant forall k :: i <= k < |seats| ==> seats[k] == old(seats)[k]
        invariant rows >= 0 && (rows > 0 <==> exists k :: 0 <= k < i && HasHold(old(seats)[k], hold, user))
      {
        if HasHold(seats[i], hold, user) {
          seats := seats[i := LetGo(seats[i])];
          rows := rows + 1;
        }
      }
      assert seats == Inventory.ReleaseHold(old(seats), hold, user);
      return rows > 0;
    }

    method ReleaseSeatsForBooking(b: nat) returns (released: nat)
      modifies this
      ensures Rows() == ReturnSeats(old(Rows()), b)
      ensures released == CountIf(old(seats), |old(seats)|, (seat: Seat) => seat.booking == Some(b))
    {
      for t := 0 to |tickets|
        invariant |tickets| == |old(tickets)| && Rows() == old(Rows()).(tickets := tickets)
        invariant forall k :: 0 <= k < t ==> tickets[k] == VoidTickets(old(tickets), b)[k]
        invariant forall k :: t <= k < |tickets| ==> tickets[k] == old(tickets)[k]
      {
        if tickets[t].booking == b && !tickets[t].voided {
          tickets := tickets[t := tickets[t].(voided := true)];
        }
      }
      assert tickets == VoidTickets(old(tickets), b);
      released := 0;
      for i := 0 to |seats|
        invariant |seats| == |old(seats)| && Rows() == old(Rows()).(tickets := tickets, seats := seats)
        invariant tickets == VoidTickets(old(tickets), b)
        invariant forall k :: 0 <= k < i ==> seats[k] == Return(old(seats), b)[k]
        invariant forall k :: i <= k < |seats| ==> seats[k] == old(seats)[k]
        invariant released == CountIf(old(seats), i, (seat: Seat) => seat.booking == Some(b))
      {
        if seats[i].booking == Some(b) {
          seats := seats[i := Returned(seats[i])];
          released := released + 1;
        }
      }
      assert seats == Return(old(seats), b);
    }

    // ----- app/jobs/sweep.py -----

    method SweepExpiredHolds(now: int) returns (released: nat)
      modifies this
      ensures Rows() == old(Rows()).(seats := Sweep(old(seats), now))
      ensures FreesExactly(old(seats), seats, Overdue(old(seats), now))
      ensures released == |Overdue(old(seats), now)|
    {
      ghost var hit := (seat: Seat) => Sweepable(seat, now);
      released := 0;
      for i := 0 to |seats|
        invariant |seats| == |old(seats)| && Rows() == old(Rows()).(seats := seats)
        invariant forall k :: 0 <= k < i ==> seats[k] == Sweep(old(seats), now)[k]
        invariant forall k :: i <= k < |seats| ==> seats[k] == old(seats)[k]
        invariant released == CountIf(old(seats), i, hit)
      {
        if Sweepable(seats[i], now) {
          seats := seats[i := LetGo(seats[i])];
          released := released + 1;
        }
      }
      assert seats == Sweep(old(seats), now);
      CountIfIsSize(old(seats), |old(seats)|, hit);
      assert Overdue(old(seats), now) == Satisfying(old(seats), |old(seats)|, hit);
    }

    // ----- app/services/booking_saga.py -----

    method LockSeatsForHolds(holds: seq<nat>, user: nat) returns (ids: seq<nat>)
      ensures ids == Matched(seats, |seats|, holds, user)
    {
      ids := [];
      for i := 0 to |seats|
        invariant ids == Matched(seats, i, holds, user)
      {
        if Mine(seats[i], holds, user) {
          ids := ids + [i];
        }
      }
    }

    method AnyHoldExpired(ids: seq<nat>, now: int) returns (any: bool)
      requires InTable(seats, ids)
      ensures any <==> AnyExpired(seats, ids, now)
    {
      any := false;
      for k := 0 to |ids|
        invariant any <==> exists j :: 0 <= j < k && (Lapsed(seats[ids[j]], now) || !seats[ids[j]].status.Held?)
      {
        if Lapsed(seats[ids[k]], now) || !seats[ids[k]].status.Held? {
          any := true;
        }
      }
    }

    method FlightsOf(ids: seq<nat>) returns (flights: set<nat>)
      requires InTable(seats, ids)
      ensures |flights| == 1 <==> OneFlight(seats, ids)
    {
      flights := {};
      for k := 0 to |ids|
        invariant forall f :: f in flights <==> exists j :: 0 <= j < k && seats[ids[j]].flight == f
      {
        flights := flights + {seats[ids[k]].flight};
      }
      assert forall j :: 0 <= j < |ids| ==> seats[ids[j]].flight in flights;
      if OneFlight(seats, ids) {
        assert flights == {seats[ids[0]].flight};
      } else if |ids| > 0 {
        var j :| 0 <= j < |ids| && seats[ids[j]].flight != seats[ids[0]].flight;
        assert {seats[ids[0]].flight, seats[ids[j]].flight} <= flights;
        AtLeastTwo(flights, seats[ids[0]].flight, seats[ids[j]].flight);
      } else {
        assert flights == {};
      }
    }

    method SumOfPrices(ids: seq<nat>) returns (total: int)
      requires InTable(seats, ids)
      ensures total == Total(seats, ids)
    {
      var sum := 0.0;
      ghost var prices := PriceList(seats, ids);
      for k := 0 to |ids|
        invariant sum == Money.SumAmounts(prices[..k])
      {
        assert prices[..k + 1][..k] == prices[..k];
        sum := sum + Money.Amount(seats[ids[k]].price);
      }
      assert prices[..|ids|] == prices;
      return Money.Cents(sum);
    }

    /** The loop of step 1 that gives every passenger a seat. */
    method PinSeats(order: seq<nat>, b: nat)
      requires InTable(seats, order) && NoDuplicates(order)
      modifies this
      ensures Rows() == old(Rows()).(seats := Pin(old(seats), order, b))
    {
      for k := 0 to |order|
        invariant |seats| == |old(seats)| && Rows() == old(Rows()).(seats := seats)
        invariant forall i :: 0 <= i < |seats| ==> seats[i] == if i in order[..k] then Pinned(old(seats)[i], b) else old(seats)[i]
      {
        seats := seats[order[k] := Pinned(seats[order[k]], b)];
      }
      assert order[..|order|] == order;
      assert seats == Pin(old(seats), order, b);
    }

    /** Step 1. The booking exists exactly if every answer on the way was yes. */
    method CreateBooking(user: nat, key: string, holds: seq<nat>, now: int) returns (answer: Opening)
      modifies this
      ensures match Store.CreateBooking(old(Rows()), user, key, holds, now)
        case HoldsNotFound => answer.NotYours? && Rows() == old(Rows())
        case HoldExpired => answer.Expired? && Rows() == old(Rows())
        case NotOneFlight => answer.MixedFlights? && Rows() == old(Rows())
        case Created(tables) => answer == Opened(|old(bookings)|) && Rows() == tables
    {
      var ids := LockSeatsForHolds(holds, user);
      if |ids| != |holds| {
        return NotYours;
      }
      var expired := AnyHoldExpired(ids, now);
      if expired {
        return Expired;
      }
      var flights := FlightsOf(ids);
      if |flights| != 1 {
        return MixedFlights;
      }
      var total := SumOfPrices(ids);
      var b := |bookings|;
      var order := SortByPlace(seats, ids);
      bookings := bookings + [Booking(user, seats[ids[0]].flight, Pending, total, key, order)];
      MatchedIsExact(seats, |seats|, holds, user);
      SortByPlaceKeeps(seats, ids);
      SameMultiset(ids, order);
      PinSeats(order, b);
      Record(b, EvBookingCreated, None, Some(Pending));
      Record(b, EvSeatsLocked, None, None);
      return Opened(b);
    }

    method SetState(b: nat, event: Event, from: BookingState, to: BookingState)
      requires b < |bookings|
      modifies this
      ensures Rows() == Enter(old(Rows()), b, event, from, to)
    {
      Record(b, event, Some(from), Some(to));
      bookings := bookings[b := bookings[b].(state := to)];
    }

    method FailPayment(b: nat, from: BookingState) returns (ok: bool)
      requires b < |bookings|
      modifies this
      ensures match Store.FailPayment(old(Rows()), b, from)
        case None => !ok && Rows() == old(Rows())
        case Some(tables) => ok && Rows() == tables
    {
      if !CanTransition(from, PaymentFailed) {
        return false;
      }
      SetState(b, EvPaymentDeclined, from, PaymentFailed);
      ghost var before := Rows();
      for i := 0 to |seats|
        invariant |seats| == |before.seats| && Rows() == before.(seats := seats)
        invariant forall k :: 0 <= k < i ==> seats[k] == Unpin(before.seats, b)[k]
        invariant forall k :: i <= k < |seats| ==> seats[k] == before.seats[k]
      {
        if seats[i].booking == Some(b) {
          seats := seats[i := Unpinned(seats[i])];
        }
      }
      assert seats == Unpin(before.seats, b);
      return true;
    }

    method InsertPayment(b: nat)
      requires b < |bookings|
      modifies this
      ensures Rows() == Store.InsertPayment(old(Rows()), b)
    {
      payments := payments[b := Payment(bookings[b].total, PayPending, None, AuthKey(bookings[b].key))];
    }

    method MarkUnknown(b: nat)
      modifies this
      ensures Rows() == Store.RecordTimeout(old(Rows()), b)
    {
      if b in payments {
        payments := payments[b := payments[b].(state := PayUnknown)];
      }
      Record(b, EvPaymentUnknown, None, None);
    }

    method RecordDecline(b: nat, from: BookingState, ref: nat) returns (ok: bool)
      requires b < |bookings|
      modifies this
      ensures match Store.RecordDecline(old(Rows()), b, from, ref)
        case None => !ok && Rows() == old(Rows())
        case Some(tables) => ok && Rows() == tables
    {
      var saved := Rows();
      if b in payments {
        payments := payments[b := payments[b].(state := PayDeclined, ref := Some(ref))];
      }
      ok := FailPayment(b, from);
      if !ok {
        Rollback(saved);
      }
    }

    method RecordApproval(b: nat, from: BookingState, ref: nat) returns (ok: bool)
      requires b < |bookings|
      modifies this
      ensures match Store.RecordApproval(old(Rows()), b, from, ref)
        case None => !ok && Rows() == old(Rows())
        case Some(tables) => ok && Rows() == tables
    {
      var saved := Rows();
      if b in payments {
        payments := payments[b := payments[b].(state := PayAuthorized, ref := Some(ref))];
      }
      if !CanTransition(from, PaymentAuthorized) {
        Rollback(saved);
        return false;
      }
      SetState(b, EvPaymentAuthorized, from, PaymentAuthorized);
      return true;
    }

    /** The loop that re-verifies the re-locked rows: who was lost, and a log row for each reclaimed hold. */
    method Reverify(b: nat, ids: seq<nat>, user: nat, now: int) returns (lost: seq<nat>)
      requires InTable(seats, ids)
      modifies this
      ensures Rows() == old(Rows()).(audit := NoteReclaimed(old(audit), seats, |seats|, ids, b, user, now))
      ensures lost == [] <==> !AnyLost(seats, ids, b, user)
    {
      lost := [];
      for i := 0 to |seats|
        invariant seats == old(seats) && Rows() == old(Rows()).(audit := NoteReclaimed(old(audit), old(seats), i, ids, b, user, now))
        invariant lost != [] <==> exists j :: 0 <= j < i && j in ids && Lost(seats[j], b, user)
      {
        if i in ids {
          if Lost(seats[i], b, user) {
            lost := lost + [i];
          } else if Lapsed(seats[i], now) {
            Record(b, EvHoldLost, None, None);
          }
        }
      }
      if AnyLost(seats, ids, b, user) {
        var k :| 0 <= k < |ids| && Lost(seats[ids[k]], b, user);
        assert ids[k] in ids;
      }
    }

    method SellSeats(b: nat, ids: seq<nat>)
      requires InTable(seats, ids) && NoDuplicates(ids)
      modifies this
      ensures Rows() == old(Rows()).(tickets := old(tickets) + NewTickets(b, ids), seats := Sell(old(seats), ids, b))
    {
      for k := 0 to |ids|
        invariant |seats| == |old(seats)| && Rows() == old(Rows()).(tickets := tickets, seats := seats)
        invariant tickets == old(tickets) + NewTickets(b, ids)[..k]
        invariant forall i :: 0 <= i < |seats| ==> seats[i] == if i in ids[..k] then Inventory.Sold(old(seats)[i], b) else old(seats)[i]
      {
        tickets := tickets + [Ticket(b, k, ids[k], false)];
        seats := seats[ids[k] := Inventory.Sold(seats[ids[k]], b)];
      }
      assert ids[..|ids|] == ids;
      assert seats == Sell(old(seats), ids, b);
    }

    /** Failed leaves the log rows that the open transaction carries into _compensate. */
    method IssueTickets(b: nat, user: nat, from: BookingState, rejected: bool, now: int) returns (outcome: Issuance)
      requires b < |bookings| && InTable(seats, bookings[b].seats) && NoDuplicates(bookings[b].seats)
      modifies this
      ensures match Store.IssueTickets(old(Rows()), b, user, from, rejected, now)
        case Issued(tables) => outcome.Done? && Rows() == tables
        case Refused(tables) => outcome.Failed? && Rows() == tables
        case Illegal => outcome.Raised? && Rows() == old(Rows())
    {
      var saved := Rows();
      var ids := bookings[b].seats;
      var lost := Reverify(b, ids, user, now);
      if lost != [] {
        Record(b, EvHoldLost, None, None);
        return Failed;
      }
      if rejected {
        Record(b, EvTicketingFailed, None, None);
        return Failed;
      }
      SellSeats(b, ids);
      if !CanTransition(from, Ticketed) {
        Rollback(saved);
        return Raised;
      }
      SetState(b, EvTicketsIssued, from, Ticketed);
      return Done;
    }

    method BeginCompensation(b: nat, from: BookingState) returns (ok: bool)
      requires b < |bookings|
      modifies this
      ensures match Store.BeginCompensation(old(Rows()), b, from)
        case None => !ok && Rows() == old(Rows())
        case Some(tables) => ok && Rows() == tables
    {
      if !CanTransition(from, Compensating) {
        return false;
      }
      SetState(b, EvCompensationStarted, from, Compensating);
      return true;
    }

    method CompensationFailed(b: nat, from: BookingState)
      requires b < |bookings|
      modifies this
      ensures Rows() == Store.CompensationFailed(old(Rows()), b, from)
    {
      SetState(b, EvCompensationFailed, from, NeedsManualReview);
      var released := ReleaseSeatsForBooking(b);
      Record(b, EvSeatsReleased, None, None);
    }

    method CompensationDone(b: nat, from: BookingState, refunded: bool) returns (ok: bool)
      requires b < |bookings|
      modifies this
      ensures match Store.CompensationDone(old(Rows()), b, from, refunded)
        case None => !ok && Rows() == old(Rows())
        case Some(tables) => ok && Rows() == tables
      ensures ok && b in old(payments) ==> payments[b] == old(payments)[b].(state := if refunded then PayRefunded else PayVoided)
    {
      var saved := Rows();
      if b in payments {
        payments := payments[b := payments[b].(state := if refunded then PayRefunded else PayVoided)];
      }
      Record(b, if refunded then EvPaymentRefunded else EvPaymentVoided, None, None);
      var released := ReleaseSeatsForBooking(b);
      Record(b, EvSeatsReleased, None, None);
      if !CanTransition(from, Voided) {
        Rollback(saved);
        return false;
      }
      bookings := bookings[b := bookings[b].(state := Voided)];
      return true;
    }

    method Confirm(b: nat, from: BookingState) returns (ok: bool)
      requires b < |bookings|
      modifies this
      ensures match Store.Confirm(old(Rows()), b, from)
        case None => !ok && Rows() == old(Rows())
        case Some(tables) => ok && Rows() == tables
    {
      var saved := Rows();
      if b in payments {
        payments := payments[b := payments[b].(state := PayCaptured)];
      }
      if !CanTransition(from, Confirmed) {
        Rollback(saved);
        return false;
      }
      SetState(b, EvBookingConfirmed, from, Confirmed);
      return true;
    }

    method Cancel(b: nat, from: BookingState, refund: RefundResult) returns (ok: bool)
      requires b < |bookings|
      modifies this
      ensures match Store.Cancel(old(Rows()), b, from, refund)
        case None => !ok && Rows() == old(Rows())
        case Some(tables) => ok && Rows() == tables
    {
      var saved := Rows();
      if refund.RefundRejected? {
        SetState(b, EvCompensationFailed, from, NeedsManualReview);
        return true;
      }
      if refund.RefundDone? && b in payments {
        payments := payments[b := payments[b].(state := PayRefunded)];
      }
      var released := ReleaseSeatsForBooking(b);
      if !CanTransition(from, Cancelled) {
        Rollback(saved);
        return false;
      }
      SetState(b, EvBookingCancelled, from, Cancelled);
      return true;
    }
  }

  lemma AtLeastTwo(s: set<nat>, a: nat, b: nat)
    requires a in s && b in s && a != b
    ensures |s| >= 2
  {
    var rest := s - {a};
    assert b in rest;
    assert |rest| >= 1;
  }
}
