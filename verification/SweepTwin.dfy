/** The sweep is unobservable: a run and the same run with any sweeps added or removed stay twins. */
module SweepTwin {
  import opened Domain
  import opened Inventory
  import opened Store
  import opened Gateway
  import opened Machine
  import opened Safety
  import opened Steps
  import opened Runs
  import opened StepOne

  // ----- what the sweep may change -----

  /** A seat as availability sees it: an expired, unpinned hold is a free seat; versions do not matter. */
  function Seen(seat: Seat, now: int): Seat {
    if Sweepable(seat, now)
    then seat.(status := Available, holder := None, holdId := None, expires := None, version := 0)
    else seat.(version := 0)
  }

  ghost predicate SeatTwins(a: Seat, b: Seat, now: int) {
    Seen(a, now) == Seen(b, now)
  }

  ghost predicate SeatsTwin(s: seq<Seat>, t: seq<Seat>, now: int) {
    |s| == |t| && forall i :: 0 <= i < |s| ==> SeatTwins(s[i], t[i], now)
  }

  ghost predicate RowsTwin(a: seq<Seat>, b: seq<Seat>) {
    |a| == |b| && forall k :: 0 <= k < |a| ==> a[k].(version := 0) == b[k].(version := 0)
  }

  ghost predicate SagaTwins(a: Saga, b: Saga) {
    a.pc == b.pc && a.state == b.state && a.firstTicket == b.firstTicket && RowsTwin(a.rows, b.rows)
  }

  /** Equal in everything but expired unpinned holds and seat versions. */
  ghost predicate Twins(s: System, t: System) {
    && t == s.(db := s.db.(seats := t.db.seats), sagas := t.sagas)
    && SeatsTwin(s.db.seats, t.db.seats, s.now)
    && |s.sagas| == |t.sagas|
    && forall b :: 0 <= b < |s.sagas| ==> SagaTwins(s.sagas[b], t.sagas[b])
  }

  // ----- what a caller can observe is the same for twins -----

  lemma TwinsAgreeOnSeat(a: Seat, b: Seat, now: int)
    requires SeatTwins(a, b, now)
    ensures Takeable(a, now) == Takeable(b, now)
    ensures HoldIsLive(a, now) == HoldIsLive(b, now)
    ensures a.booking == b.booking && a.flight == b.flight && a.place == b.place && a.price == b.price
    ensures a.booking.Some? || (!Sweepable(a, now) && !Sweepable(b, now)) ==> a.(version := 0) == b.(version := 0)
    ensures a.status.Booked? == b.status.Booked?
  {}

  lemma {:induction false} TwinsAgreeOnCount(s: seq<Seat>, t: seq<Seat>, n: nat, user: nat, now: int)
    requires SeatsTwin(s, t, now) && n <= |s|
    ensures LiveHolds(s, n, user, now) == LiveHolds(t, n, user, now)
  {
    if n > 0 {
      TwinsAgreeOnCount(s, t, n - 1, user, now);
      assert SeatTwins(s[n - 1], t[n - 1], now);
    }
  }

  // ----- the steps on holds -----

  lemma TickTwins(s: System, t: System, seconds: nat)
    requires Twins(s, t)
    ensures Twins(Next(s, Tick(seconds)), Next(t, Tick(seconds)))
  {
    forall i | 0 <= i < |s.db.seats| ensures SeatTwins(s.db.seats[i], t.db.seats[i], s.now + seconds) {
      assert SeatTwins(s.db.seats[i], t.db.seats[i], s.now);
    }
  }

  lemma CountTwins(s: System, t: System, user: nat)
    requires Twins(s, t)
    ensures CountPasses(s, user) == CountPasses(t, user)
    ensures Twins(Next(s, CountHolds(user)), Next(t, CountHolds(user)))
  {
    TwinsAgreeOnCount(s.db.seats, t.db.seats, |s.db.seats|, user, s.now);
  }

  lemma TakeSeatTwins(s: System, t: System, user: nat, flight: nat, place: Place)
    requires Twins(s, t)
    ensures Twins(Next(s, TakeSeat(user, flight, place)), Next(t, TakeSeat(user, flight, place)))
  {
    var s', t' := Next(s, TakeSeat(user, flight, place)), Next(t, TakeSeat(user, flight, place));
    forall i | 0 <= i < |s.db.seats| ensures SeatTwins(s'.db.seats[i], t'.db.seats[i], s.now) {
      assert SeatTwins(s.db.seats[i], t.db.seats[i], s.now);
    }
  }

  lemma ReleaseHoldTwins(s: System, t: System, hold: nat, owner: Option<nat>)
    requires Twins(s, t)
    ensures Twins(Next(s, ReleaseHold(hold, owner)), Next(t, ReleaseHold(hold, owner)))
  {
    var s', t' := Next(s, ReleaseHold(hold, owner)), Next(t, ReleaseHold(hold, owner));
    forall i | 0 <= i < |s.db.seats| ensures SeatTwins(s'.db.seats[i], t'.db.seats[i], s.now) {
      assert SeatTwins(s.db.seats[i], t.db.seats[i], s.now);
    }
  }

  lemma SweepTwins(s: System, t: System)
    requires Twins(s, t)
    ensures Twins(Next(s, Sweep), t) && Twins(s, Next(t, Sweep))
  {
    forall i | 0 <= i < |s.db.seats|
      ensures SeatTwins(Next(s, Sweep).db.seats[i], t.db.seats[i], s.now) && SeatTwins(s.db.seats[i], Next(t, Sweep).db.seats[i], s.now)
    {
      assert SeatTwins(s.db.seats[i], t.db.seats[i], s.now);
    }
  }

  // ----- the steps of a saga -----

  lemma InsertPaymentTwins(s: System, t: System, b: nat)
    requires Twins(s, t)
    ensures Twins(DoInsertPayment(s, b), DoInsertPayment(t, b))
  {
    assert b < |s.sagas| ==> SagaTwins(s.sagas[b], t.sagas[b]);
  }

  lemma AuthorizeTwins(s: System, t: System, b: nat, trigger: Trigger)
    requires Twins(s, t)
    ensures Twins(DoAuthorize(s, b, trigger), DoAuthorize(t, b, trigger))
  {
    assert b < |s.sagas| ==> SagaTwins(s.sagas[b], t.sagas[b]);
  }

  lemma RecordTimeoutTwins(s: System, t: System, b: nat)
    requires Twins(s, t)
    ensures Twins(DoRecordTimeout(s, b), DoRecordTimeout(t, b))
  {
    assert b < |s.sagas| ==> SagaTwins(s.sagas[b], t.sagas[b]);
  }

  lemma ReverseTwins(s: System, t: System, b: nat, ok: bool)
    requires Twins(s, t)
    ensures Twins(DoReverse(s, b, ok), DoReverse(t, b, ok))
  {
    assert b < |s.sagas| ==> SagaTwins(s.sagas[b], t.sagas[b]);
  }

  lemma CaptureTwins(s: System, t: System, b: nat)
    requires Twins(s, t)
    ensures Twins(DoCapture(s, b), DoCapture(t, b))
  {
    assert b < |s.sagas| ==> SagaTwins(s.sagas[b], t.sagas[b]);
  }

  lemma ConfirmTwins(s: System, t: System, b: nat)
    requires Twins(s, t)
    ensures Twins(DoConfirm(s, b), DoConfirm(t, b))
  {
    assert b < |s.sagas| ==> SagaTwins(s.sagas[b], t.sagas[b]);
  }

  lemma UnpinTwins(s: seq<Seat>, t: seq<Seat>, b: nat, now: int)
    requires SeatsTwin(s, t, now)
    ensures SeatsTwin(Unpin(s, b), Unpin(t, b), now) && SeatsTwin(Return(s, b), Return(t, b), now)
  {
    forall i | 0 <= i < |s|
      ensures SeatTwins(Unpin(s, b)[i], Unpin(t, b)[i], now) && SeatTwins(Return(s, b)[i], Return(t, b)[i], now)
    {
      assert SeatTwins(s[i], t[i], now);
    }
  }

  lemma FraudBlockTwins(s: System, t: System, b: nat)
    requires Twins(s, t)
    ensures Twins(DoFraudBlock(s, b), DoFraudBlock(t, b))
  {
    assert b < |s.sagas| ==> SagaTwins(s.sagas[b], t.sagas[b]);
    UnpinTwins(s.db.seats, t.db.seats, b, s.now);
  }

  lemma ApprovalTwins(s: System, t: System, b: nat)
    requires Twins(s, t) && b < |s.sagas| && s.sagas[b].pc.Answered? && s.sagas[b].pc.result.approved
    ensures Twins(DoRecordAnswer(s, b), DoRecordAnswer(t, b))
  {
    assert SagaTwins(s.sagas[b], t.sagas[b]);
  }

  lemma DeclineTwins(s: System, t: System, b: nat)
    requires Twins(s, t) && b < |s.sagas| && s.sagas[b].pc.Answered? && !s.sagas[b].pc.result.approved
    ensures Twins(DoRecordAnswer(s, b), DoRecordAnswer(t, b))
  {
    assert SagaTwins(s.sagas[b], t.sagas[b]);
    UnpinTwins(s.db.seats, t.db.seats, b, s.now);
  }

  lemma RecordAnswerTwins(s: System, t: System, b: nat)
    requires Twins(s, t)
    ensures Twins(DoRecordAnswer(s, b), DoRecordAnswer(t, b))
  {
    if b < |s.sagas| {
      assert SagaTwins(s.sagas[b], t.sagas[b]);
      if s.sagas[b].pc.Answered? {
        if s.sagas[b].pc.result.approved { ApprovalTwins(s, t, b); } else { DeclineTwins(s, t, b); }
      }
    }
  }

  lemma ReversedTwins(s: System, t: System, b: nat)
    requires Twins(s, t) && b < |s.sagas| && b < |s.db.bookings| && s.sagas[b].pc.Reversed?
    ensures Twins(DoFinishCompensation(s, b), DoFinishCompensation(t, b))
  {
    assert SagaTwins(s.sagas[b], t.sagas[b]);
    var state, refunded := s.sagas[b].state, s.sagas[b].pc.refunded;
    FinishIsCommit(s, b);
    FinishIsCommit(t, b);
    DoneOnSeats(s.db, t.db, b, state, refunded);
    UnpinTwins(s.db.seats, t.db.seats, b, s.now);
    CommitTwins(s, t, b, CompensationDone(s.db, b, state, refunded), CompensationDone(t.db, b, state, refunded), Voided, Undone);
  }

  lemma DoneOnSeats(a: Tables, c: Tables, b: nat, state: BookingState, refunded: bool)
    requires b < |a.bookings| && c == a.(seats := c.seats)
    ensures var x, y := CompensationDone(a, b, state, refunded), CompensationDone(c, b, state, refunded);
      if x.None? then y.None?
      else x.value.seats == Return(a.seats, b) && y == Some(x.value.(seats := Return(c.seats, b)))
  {}

  lemma CommitTwins(s: System, t: System, b: nat, x: Option<Tables>, y: Option<Tables>, state: BookingState, pc: Pc)
    requires Twins(s, t) && b < |s.sagas|
    requires if x.None? then y.None? else y.Some? && y.value == x.value.(seats := y.value.seats) && SeatsTwin(x.value.seats, y.value.seats, s.now)
    ensures Twins(Commit(s, b, x, state, pc), Commit(t, b, y, state, pc))
  {
    assert SagaTwins(s.sagas[b], t.sagas[b]);
  }

  lemma FlaggedTwins(s: System, t: System, b: nat)
    requires Twins(s, t) && b < |s.sagas| && b < |s.db.bookings| && s.sagas[b].pc.ReversalFailed?
    ensures Twins(DoFinishCompensation(s, b), DoFinishCompensation(t, b))
  {
    assert SagaTwins(s.sagas[b], t.sagas[b]);
    UnpinTwins(s.db.seats, t.db.seats, b, s.now);
  }

  lemma NotReversing(s: System, b: nat)
    requires b >= |s.sagas| || b >= |s.db.bookings| || !(s.sagas[b].pc.Reversed? || s.sagas[b].pc.ReversalFailed?)
    ensures DoFinishCompensation(s, b) == s
  {}

  lemma FinishCompensationTwins(s: System, t: System, b: nat)
    requires Twins(s, t)
    ensures Twins(DoFinishCompensation(s, b), DoFinishCompensation(t, b))
  {
    if b < |s.sagas| {
      assert SagaTwins(s.sagas[b], t.sagas[b]);
    }
    if b >= |s.sagas| || b >= |s.db.bookings| || !(s.sagas[b].pc.Reversed? || s.sagas[b].pc.ReversalFailed?) {
      NotReversing(s, b);
      NotReversing(t, b);
    } else if s.sagas[b].pc.Reversed? {
      ReversedTwins(s, t, b);
    } else {
      FlaggedTwins(s, t, b);
    }
  }

  lemma CancelRefundTwins(s: System, t: System, b: nat, ok: bool)
    requires Twins(s, t)
    ensures Twins(DoCancelRefund(s, b, ok), DoCancelRefund(t, b, ok))
  {}

  lemma CancelCommitTwins(s: System, t: System, b: nat)
    requires Twins(s, t)
    ensures Twins(DoCancelCommit(s, b), DoCancelCommit(t, b))
  {
    UnpinTwins(s.db.seats, t.db.seats, b, s.now);
  }

  lemma {:induction false} ReclaimedTwins(audit: seq<AuditRow>, s: seq<Seat>, t: seq<Seat>, n: nat, ids: seq<nat>, b: nat, user: nat, now: int)
    requires SeatsTwin(s, t, now) && n <= |s|
    ensures NoteReclaimed(audit, s, n, ids, b, user, now) == NoteReclaimed(audit, t, n, ids, b, user, now)
  {
    if n > 0 {
      ReclaimedTwins(audit, s, t, n - 1, ids, b, user, now);
      TwinsAgreeOnSeat(s[n - 1], t[n - 1], now);
    }
  }

  lemma LostTwins(s: seq<Seat>, t: seq<Seat>, ids: seq<nat>, b: nat, user: nat, now: int)
    requires SeatsTwin(s, t, now) && InTable(s, ids)
    ensures InTable(t, ids) && AnyLost(s, ids, b, user) == AnyLost(t, ids, b, user)
    ensures !AnyLost(s, ids, b, user) ==> SeatsTwin(Sell(s, ids, b), Sell(t, ids, b), now)
  {
    forall k | 0 <= k < |ids| ensures Lost(s[ids[k]], b, user) == Lost(t[ids[k]], b, user) {
      assert SeatTwins(s[ids[k]], t[ids[k]], now);
    }
    if !AnyLost(s, ids, b, user) {
      forall i | 0 <= i < |s| ensures SeatTwins(Sell(s, ids, b)[i], Sell(t, ids, b)[i], now) {
        assert SeatTwins(s[i], t[i], now);
        if i in ids {
          var k :| 0 <= k < |ids| && ids[k] == i;
          assert !Lost(s[ids[k]], b, user);
        }
      }
    }
  }

  lemma SellTwins(s: System, t: System, b: nat)
    requires Twins(s, t) && SagaAt(s, b, Authorized) && InTable(s.db.seats, s.db.bookings[b].seats)
    requires !AnyLost(s.db.seats, s.db.bookings[b].seats, b, s.db.bookings[b].user)
    ensures Twins(DoIssueTickets(s, b, false), DoIssueTickets(t, b, false))
  {
    assert SagaTwins(s.sagas[b], t.sagas[b]);
    var ids, user := s.db.bookings[b].seats, s.db.bookings[b].user;
    ReclaimedTwins(s.db.audit, s.db.seats, t.db.seats, |s.db.seats|, ids, b, user, s.now);
    LostTwins(s.db.seats, t.db.seats, ids, b, user, s.now);
  }

  lemma RefusalTwins(s: System, t: System, b: nat, rejected: bool)
    requires Twins(s, t) && SagaAt(s, b, Authorized) && InTable(s.db.seats, s.db.bookings[b].seats)
    requires rejected || AnyLost(s.db.seats, s.db.bookings[b].seats, b, s.db.bookings[b].user)
    ensures Twins(DoIssueTickets(s, b, rejected), DoIssueTickets(t, b, rejected))
  {
    assert SagaTwins(s.sagas[b], t.sagas[b]);
    var ids, user := s.db.bookings[b].seats, s.db.bookings[b].user;
    ReclaimedTwins(s.db.audit, s.db.seats, t.db.seats, |s.db.seats|, ids, b, user, s.now);
    LostTwins(s.db.seats, t.db.seats, ids, b, user, s.now);
    var state := s.sagas[b].state;
    var refused := Store.IssueTickets(s.db, b, user, state, rejected, s.now).tables;
    var other := Store.IssueTickets(t.db, b, user, state, rejected, t.now).tables;
    assert other == refused.(seats := t.db.seats);
    RefusedTwins(s, t, b, refused, other);
  }

  lemma RefusedTwins(s: System, t: System, b: nat, refused: Tables, other: Tables)
    requires Twins(s, t) && b < |s.sagas| && b < |s.db.bookings|
    requires refused == s.db.(audit := refused.audit) && other == t.db.(audit := refused.audit)
    ensures Twins(Commit(s, b, BeginCompensation(refused, b, s.sagas[b].state), Compensating, Compensates),
                  Commit(t, b, BeginCompensation(other, b, t.sagas[b].state), Compensating, Compensates))
  {
    assert SagaTwins(s.sagas[b], t.sagas[b]);
  }

  lemma IssueTicketsTwins(s: System, t: System, b: nat, rejected: bool)
    requires Twins(s, t)
    ensures Twins(DoIssueTickets(s, b, rejected), DoIssueTickets(t, b, rejected))
  {
    if b < |s.sagas| {
      assert SagaTwins(s.sagas[b], t.sagas[b]);
    }
    if SagaAt(s, b, Authorized) && InTable(s.db.seats, s.db.bookings[b].seats) {
      if rejected || AnyLost(s.db.seats, s.db.bookings[b].seats, b, s.db.bookings[b].user) {
        RefusalTwins(s, t, b, rejected);
      } else {
        SellTwins(s, t, b);
      }
    }
  }

  // ----- step 1: an expired hold of one twin may be nobody's in the other -----

  /** If step 1 opens a booking in one twin, it finds the same rows in the other. */
  lemma FoundTwins(s: System, t: System, holds: seq<nat>, user: nat)
    requires Safe(s) && Safe(t) && Twins(s, t) && NoDuplicates(holds)
    requires |Matched(s.db.seats, |s.db.seats|, holds, user)| == |holds|
    requires !AnyExpired(s.db.seats, Matched(s.db.seats, |s.db.seats|, holds, user), s.now)
    ensures Matched(t.db.seats, |t.db.seats|, holds, user) == Matched(s.db.seats, |s.db.seats|, holds, user)
  {
    var ids := Matched(s.db.seats, |s.db.seats|, holds, user);
    MatchedIsExact(s.db.seats, |s.db.seats|, holds, user);
    forall i: nat | i < |s.db.seats| ensures Mine(s.db.seats[i], holds, user) <==> Mine(t.db.seats[i], holds, user) {
      assert SeatTwins(s.db.seats[i], t.db.seats[i], s.now);
      if Mine(s.db.seats[i], holds, user) {
        var k :| 0 <= k < |ids| && ids[k] == i;
        assert !Lapsed(s.db.seats[ids[k]], s.now);
      } else if Mine(t.db.seats[i], holds, user) {
        NobodyElseHasIt(s, t, holds, user, i);
      }
    }
    SameRowsFound(s.db.seats, t.db.seats, |s.db.seats|, holds, user);
  }

  /** When every hold was found in s, a seat of t that is mine is mine in s. */
  lemma NobodyElseHasIt(s: System, t: System, holds: seq<nat>, user: nat, i: nat)
    requires Safe(s) && Safe(t) && Twins(s, t) && NoDuplicates(holds) && i < |s.db.seats|
    requires |Matched(s.db.seats, |s.db.seats|, holds, user)| == |holds|
    requires !AnyExpired(s.db.seats, Matched(s.db.seats, |s.db.seats|, holds, user), s.now)
    requires Mine(t.db.seats[i], holds, user)
    ensures Mine(s.db.seats[i], holds, user)
  {
    var h := t.db.seats[i].holdId.value;
    LengthDecidesOwnership(s.db.seats, s.db.nextHold, holds, user);
    assert OwnHold(s.db.seats, h, user);
    var j: nat :| j < |s.db.seats| && s.db.seats[j].holdId == Some(h) && s.db.seats[j].holder == Some(user);
    FoundIsLive(s.db.seats, holds, user, s.now, j);
    assert SeatTwins(s.db.seats[j], t.db.seats[j], s.now);
    OneSeatPerHold(t.db.seats, t.db.nextHold, i, j);
  }

  lemma FoundIsLive(seats: seq<Seat>, holds: seq<nat>, user: nat, now: int, j: nat)
    requires j < |seats| && Mine(seats[j], holds, user)
    requires !AnyExpired(seats, Matched(seats, |seats|, holds, user), now)
    ensures !Lapsed(seats[j], now)
  {
    MatchedIsExact(seats, |seats|, holds, user);
    var ids := Matched(seats, |seats|, holds, user);
    assert j in ids;
    var k :| 0 <= k < |ids| && ids[k] == j;
    assert !Lapsed(seats[ids[k]], now);
  }

  lemma OneSeatPerHold(seats: seq<Seat>, nextHold: nat, i: nat, j: nat)
    requires HoldsOk(seats, nextHold) && i < |seats| && j < |seats| && seats[i].holdId.Some? && seats[i].holdId == seats[j].holdId
    ensures i == j
  {}

  lemma {:induction false} SortTwins(s: seq<Seat>, t: seq<Seat>, ids: seq<nat>)
    requires SameSeats(s, t) && InTable(s, ids)
    ensures SortByPlace(s, ids) == SortByPlace(t, ids)
  {
    if ids != [] {
      SortTwins(s, t, ids[..|ids| - 1]);
      InsertTwins(s, t, SortByPlace(s, ids[..|ids| - 1]), ids[|ids| - 1]);
    }
  }

  lemma {:induction false} InsertTwins(s: seq<Seat>, t: seq<Seat>, sorted: seq<nat>, id: nat)
    requires SameSeats(s, t) && InTable(s, sorted) && id < |s|
    ensures InsertByPlace(s, sorted, id) == InsertByPlace(t, sorted, id)
  {
    if sorted != [] {
      InsertTwins(s, t, sorted[..|sorted| - 1], id);
    }
  }

  /** A booking that step 1 opens in s it opens in t, over the same seats and at the same price. */
  lemma OpensInBoth(s: System, t: System, user: nat, key: string, holds: seq<nat>)
    requires Safe(s) && Safe(t) && Twins(s, t) && NoDuplicates(holds)
    requires Store.CreateBooking(s.db, user, key, holds, s.now).Created?
    ensures
      var a, b := Store.CreateBooking(s.db, user, key, holds, s.now), Store.CreateBooking(t.db, user, key, holds, t.now);
      && b.Created? && b.tables == a.tables.(seats := b.tables.seats)
      && |a.tables.bookings| == |s.db.bookings| + 1
      && var ids := a.tables.bookings[|s.db.bookings|].seats;
      && a.tables.seats == Pin(s.db.seats, ids, |s.db.bookings|) && b.tables.seats == Pin(t.db.seats, ids, |s.db.bookings|)
      && InTable(s.db.seats, ids)
      && forall k :: 0 <= k < |ids| ==> s.db.seats[ids[k]].(version := 0) == t.db.seats[ids[k]].(version := 0)
  {
    FoundTwins(s, t, holds, user);
    var ids := Matched(s.db.seats, |s.db.seats|, holds, user);
    SameSeatsOfTwins(s.db.seats, t.db.seats, s.now);
    SortTwins(s.db.seats, t.db.seats, ids);
    SumPricesFixed(s.db.seats, t.db.seats, ids);
    TotalIsSum(s.db.seats, ids);
    TotalIsSum(t.db.seats, ids);
    StepOneSeats(s, user, key, holds);
    LiveTwins(s.db.seats, t.db.seats, ids, s.now);
    var order := SortByPlace(s.db.seats, ids);
    forall k | 0 <= k < |order| ensures s.db.seats[order[k]].(version := 0) == t.db.seats[order[k]].(version := 0) {
      assert SeatTwins(s.db.seats[order[k]], t.db.seats[order[k]], s.now);
    }
  }

  lemma SameSeatsOfTwins(s: seq<Seat>, t: seq<Seat>, now: int)
    requires SeatsTwin(s, t, now)
    ensures SameSeats(s, t)
  {
    forall i | 0 <= i < |s| ensures s[i].flight == t[i].flight && s[i].place == t[i].place && s[i].price == t[i].price {
      assert SeatTwins(s[i], t[i], now);
    }
  }

  lemma LiveTwins(s: seq<Seat>, t: seq<Seat>, ids: seq<nat>, now: int)
    requires SeatsTwin(s, t, now) && InTable(s, ids) && !AnyExpired(s, ids, now)
    ensures !AnyExpired(t, ids, now) && (OneFlight(s, ids) <==> OneFlight(t, ids))
  {
    forall k | 0 <= k < |ids|
      ensures !Lapsed(t[ids[k]], now) && t[ids[k]].status.Held? && s[ids[k]].flight == t[ids[k]].flight
    {
      assert SeatTwins(s[ids[k]], t[ids[k]], now);
      assert !Lapsed(s[ids[k]], now) && s[ids[k]].status.Held?;
    }
  }

  lemma TwinsSymmetric(s: System, t: System)
    requires Twins(s, t)
    ensures Twins(t, s)
  {
    forall b | 0 <= b < |s.sagas| ensures SagaTwins(t.sagas[b], s.sagas[b]) {
      assert SagaTwins(s.sagas[b], t.sagas[b]);
    }
    forall i | 0 <= i < |s.db.seats| ensures SeatTwins(t.db.seats[i], s.db.seats[i], s.now) {
      assert SeatTwins(s.db.seats[i], t.db.seats[i], s.now);
    }
  }

  lemma PinTwins(s: seq<Seat>, t: seq<Seat>, ids: seq<nat>, b: nat, now: int)
    requires SeatsTwin(s, t, now) && InTable(s, ids)
    requires forall k :: 0 <= k < |ids| ==> s[ids[k]].(version := 0) == t[ids[k]].(version := 0)
    ensures SeatsTwin(Pin(s, ids, b), Pin(t, ids, b), now)
    ensures RowsTwin(RowsAt(Pin(s, ids, b), ids), RowsAt(Pin(t, ids, b), ids))
  {
    forall i | 0 <= i < |s| ensures SeatTwins(Pin(s, ids, b)[i], Pin(t, ids, b)[i], now) {
      assert SeatTwins(s[i], t[i], now);
    }
  }

  lemma CreatedTwins(s: System, t: System, user: nat, key: string, holds: seq<nat>, passengers: nat)
    requires Safe(s) && Safe(t) && Twins(s, t) && ValidRequest(holds, passengers)
    requires Store.CreateBooking(s.db, user, key, holds, s.now).Created?
    ensures Store.CreateBooking(t.db, user, key, holds, t.now).Created?
    ensures Twins(DoCreateBooking(s, user, key, holds, passengers), DoCreateBooking(t, user, key, holds, passengers))
  {
    OpensInBoth(s, t, user, key, holds);
    var s', t' := DoCreateBooking(s, user, key, holds, passengers), DoCreateBooking(t, user, key, holds, passengers);
    var ids := s'.db.bookings[|s.db.bookings|].seats;
    PinTwins(s.db.seats, t.db.seats, ids, |s.db.bookings|, s.now);
    var n := |s.sagas|;
    assert s'.sagas == s.sagas + [s'.sagas[n]] && t'.sagas == t.sagas + [t'.sagas[n]];
    assert SagaTwins(s'.sagas[n], t'.sagas[n]);
    OneMoreTwin(s.sagas, t.sagas, s'.sagas[n], t'.sagas[n]);
  }

  lemma OneMoreTwin(s: seq<Saga>, t: seq<Saga>, a: Saga, b: Saga)
    requires |s| == |t| && SagaTwins(a, b) && forall k :: 0 <= k < |s| ==> SagaTwins(s[k], t[k])
    ensures forall k :: 0 <= k < |s + [a]| ==> SagaTwins((s + [a])[k], (t + [b])[k])
  {}

  lemma CreateBookingTwins(s: System, t: System, user: nat, key: string, holds: seq<nat>, passengers: nat)
    requires Safe(s) && Safe(t) && Twins(s, t)
    ensures Twins(DoCreateBooking(s, user, key, holds, passengers), DoCreateBooking(t, user, key, holds, passengers))
    ensures |DoCreateBooking(s, user, key, holds, passengers).db.bookings| == |DoCreateBooking(t, user, key, holds, passengers).db.bookings|
  {
    TwinsSymmetric(s, t);
    if ValidRequest(holds, passengers) {
      if Store.CreateBooking(s.db, user, key, holds, s.now).Created? {
        CreatedTwins(s, t, user, key, holds, passengers);
      } else if Store.CreateBooking(t.db, user, key, holds, t.now).Created? {
        CreatedTwins(t, s, user, key, holds, passengers);
      }
    }
  }

  // ----- whole runs -----

  lemma HoldStepTwins(s: System, t: System, step: Step)
    requires Safe(s) && Safe(t) && Twins(s, t) && Owner(step).None? && !step.Sweep?
    ensures Twins(Next(s, step), Next(t, step))
  {
    match step
    case Tick(seconds) => TickTwins(s, t, seconds);
    case CountHolds(user) => CountTwins(s, t, user);
    case TakeSeat(user, flight, place) => TakeSeatTwins(s, t, user, flight, place);
    case ReleaseHold(hold, owner) => ReleaseHoldTwins(s, t, hold, owner);
    case CreateBooking(user, key, holds, passengers) => CreateBookingTwins(s, t, user, key, holds, passengers);
    case _ => {}
  }

  predicate IsPaymentStep(step: Step) {
    step.FraudBlock? || step.InsertPayment? || step.Authorize? || step.RecordTimeout? || step.RecordAnswer?
  }

  lemma PaymentStepTwins(s: System, t: System, step: Step)
    requires Twins(s, t) && IsPaymentStep(step)
    ensures Twins(Next(s, step), Next(t, step))
  {
    match step
    case FraudBlock(b) => FraudBlockTwins(s, t, b);
    case InsertPayment(b) => InsertPaymentTwins(s, t, b);
    case Authorize(b, trigger) => AuthorizeTwins(s, t, b, trigger);
    case RecordTimeout(b) => RecordTimeoutTwins(s, t, b);
    case RecordAnswer(b) => RecordAnswerTwins(s, t, b);
    case _ => {}
  }

  lemma SagaStepTwins(s: System, t: System, step: Step)
    requires Twins(s, t) && Owner(step).Some? && !IsPaymentStep(step)
    ensures Twins(Next(s, step), Next(t, step))
  {
    match step
    case IssueTickets(b, rejected) => IssueTicketsTwins(s, t, b, rejected);
    case Reverse(b, ok) => ReverseTwins(s, t, b, ok);
    case FinishCompensation(b) => FinishCompensationTwins(s, t, b);
    case Capture(b) => CaptureTwins(s, t, b);
    case Confirm(b) => ConfirmTwins(s, t, b);
    case CancelRefund(b, ok) => CancelRefundTwins(s, t, b, ok);
    case CancelCommit(b) => CancelCommitTwins(s, t, b);
    case _ => {}
  }

  lemma StepTwins(s: System, t: System, step: Step)
    requires Safe(s) && Safe(t) && Twins(s, t) && !step.Sweep?
    ensures Twins(Next(s, step), Next(t, step))
  {
    if IsPaymentStep(step) {
      PaymentStepTwins(s, t, step);
    } else if Owner(step).Some? {
      SagaStepTwins(s, t, step);
    } else {
      HoldStepTwins(s, t, step);
    }
  }

  function WithoutSweeps(steps: seq<Step>): seq<Step> {
    if steps == [] then []
    else WithoutSweeps(steps[..|steps| - 1]) + if steps[|steps| - 1].Sweep? then [] else [steps[|steps| - 1]]
  }

  /** Deleting every sweep from any run leaves a twin of what the run reached. */
  lemma {:induction false} SweepsAreUnobservable(s: System, steps: seq<Step>)
    requires Safe(s)
    ensures Twins(Exec(s, steps), Exec(s, WithoutSweeps(steps)))
  {
    if steps != [] {
      var n := |steps| - 1;
      var front, last := steps[..n], steps[n];
      SweepsAreUnobservable(s, front);
      RunIsSafe(s, front);
      RunIsSafe(s, WithoutSweeps(front));
      var kept := WithoutSweeps(front);
      if last.Sweep? {
        assert WithoutSweeps(steps) == kept;
        SweepTwins(Exec(s, front), Exec(s, kept));
      } else {
        assert WithoutSweeps(steps) == kept + [last];
        assert (kept + [last])[..|kept|] == kept;
        StepTwins(Exec(s, front), Exec(s, kept), last);
      }
    }
  }

  /** What the callers' successful answers are made of. */
  ghost predicate SameAnswers(s: System, t: System) {
    && s.db.bookings == t.db.bookings && s.db.payments == t.db.payments && s.db.tickets == t.db.tickets
    && s.db.audit == t.db.audit && s.gw == t.gw && s.cancels == t.cancels && s.counted == t.counted
    && |s.db.seats| == |t.db.seats|
    && (forall i :: 0 <= i < |s.db.seats| ==>
         && Takeable(s.db.seats[i], s.now) == Takeable(t.db.seats[i], t.now)
         && HoldIsLive(s.db.seats[i], s.now) == HoldIsLive(t.db.seats[i], t.now)
         && (HoldIsLive(s.db.seats[i], s.now) ==>
              s.db.seats[i].holdId == t.db.seats[i].holdId && s.db.seats[i].holder == t.db.seats[i].holder))
    && (forall user: nat :: CountPasses(s, user) == CountPasses(t, user))
    && (forall user: nat, key: string, holds: seq<nat> | NoDuplicates(holds) ::
         Store.CreateBooking(s.db, user, key, holds, s.now).Created? == Store.CreateBooking(t.db, user, key, holds, t.now).Created?)
  }

  lemma TwinsAnswerAlike(s: System, t: System)
    requires Safe(s) && Safe(t) && Twins(s, t)
    ensures SameAnswers(s, t)
  {
    TwinsSymmetric(s, t);
    forall i | 0 <= i < |s.db.seats|
      ensures Takeable(s.db.seats[i], s.now) == Takeable(t.db.seats[i], t.now)
      ensures HoldIsLive(s.db.seats[i], s.now) == HoldIsLive(t.db.seats[i], t.now)
      ensures HoldIsLive(s.db.seats[i], s.now) ==>
        s.db.seats[i].holdId == t.db.seats[i].holdId && s.db.seats[i].holder == t.db.seats[i].holder
    {
      TwinsAgreeOnSeat(s.db.seats[i], t.db.seats[i], s.now);
    }
    forall user: nat ensures CountPasses(s, user) == CountPasses(t, user) {
      CountTwins(s, t, user);
    }
    forall user: nat, key: string, holds: seq<nat> | NoDuplicates(holds)
      ensures Store.CreateBooking(s.db, user, key, holds, s.now).Created? == Store.CreateBooking(t.db, user, key, holds, t.now).Created?
    {
      if Store.CreateBooking(s.db, user, key, holds, s.now).Created? {
        OpensInBoth(s, t, user, key, holds);
      } else if Store.CreateBooking(t.db, user, key, holds, t.now).Created? {
        OpensInBoth(t, s, user, key, holds);
      }
    }
  }

  /** Two runs that differ only in where and how often the sweep ran end with the same bookings, payments,
    * tickets, log and gateway, the same seats for the taking, the same live holds and the same successes next. */
  lemma SweepsAnywhere(s: System, run: seq<Step>, other: seq<Step>)
    requires Safe(s) && WithoutSweeps(run) == WithoutSweeps(other)
    ensures SameAnswers(Exec(s, run), Exec(s, other))
  {
    var kept := WithoutSweeps(run);
    SweepsAreUnobservable(s, run);
    SweepsAreUnobservable(s, other);
    RunIsSafe(s, run);
    RunIsSafe(s, other);
    RunIsSafe(s, kept);
    TwinsAnswerAlike(Exec(s, run), Exec(s, kept));
    TwinsAnswerAlike(Exec(s, other), Exec(s, kept));
  }
}
