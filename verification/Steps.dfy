/** Which of the six shapes each step of the machine has. */
module Steps {
  import opened Domain
  import opened Inventory
  import opened Store
  import opened Gateway
  import opened Machine
  import opened Safety

  /** The booking whose saga or cancel takes the step. */
  function Owner(step: Step): Option<nat> {
    match step
    case FraudBlock(b) => Some(b)
    case InsertPayment(b) => Some(b)
    case Authorize(b, _) => Some(b)
    case RecordTimeout(b) => Some(b)
    case RecordAnswer(b) => Some(b)
    case IssueTickets(b, _) => Some(b)
    case Reverse(b, _) => Some(b)
    case FinishCompensation(b) => Some(b)
    case Capture(b) => Some(b)
    case Confirm(b) => Some(b)
    case CancelRefund(b, _) => Some(b)
    case CancelCommit(b) => Some(b)
    case _ => None
  }

  ghost predicate OwnEffect(s: System, t: System, b: nat) {
    t == s || Moves(s, t, b) || Closes(s, t, b)
  }

  ghost predicate Effect(s: System, t: System, step: Step) {
    match Owner(step)
    case Some(b) => OwnEffect(s, t, b) || (step.IssueTickets? && Sells(s, t, b))
    case None => Idles(s, t) || Shuffles(s, t) || (step.CreateBooking? && Opens(s, t))
  }

  /** The part of the invariant that is about booking b alone. */
  ghost predicate Local(s: System, b: nat) {
    && b < |s.sagas| == |s.db.bookings|
    && StateOk(s.sagas[b].pc, s.sagas[b].state, s.db.bookings[b].state) && RetryOk(s, b)
    && (b in s.cancels ==> CancelRunOk(s.cancels[b], s.db.bookings[b].state))
  }

  lemma SafeIsLocal(s: System, b: nat)
    requires Safe(s) && b < |s.sagas|
    ensures Local(s, b)
  {
    assert RetryOk(s, b);
    assert b in s.cancels ==> CancelOk(s, b);
  }

  lemma InsertPaymentMoves(s: System, b: nat)
    requires Local(s, b)
    ensures OwnEffect(s, DoInsertPayment(s, b), b)
  {
    assert SagaAt(s, b, Opened) ==> Moves(s, DoInsertPayment(s, b), b);
  }

  lemma AuthorizeOnlyAdds(gw: Ledger, key: string, trigger: Trigger)
    ensures
      var (after, reply) := AuthorizeOn(gw, key, trigger);
      && gw.authorizations.Keys <= after.authorizations.Keys && gw.timedOutOnce <= after.timedOutOnce
      && (reply.TimedOut? ==> key in after.timedOutOnce && key !in gw.timedOutOnce && key !in gw.authorizations)
  {}

  lemma AuthorizeMoves(s: System, b: nat, trigger: Trigger)
    requires Local(s, b)
    ensures OwnEffect(s, DoAuthorize(s, b, trigger), b)
  {
    if SagaAt(s, b, Charging) || SagaAt(s, b, Retrying) {
      AuthorizeOnlyAdds(s.gw, AuthKey(s.db.bookings[b].key), trigger);
      var t := DoAuthorize(s, b, trigger);
      assert t == Goto(s, b, t.sagas[b].pc).(gw := t.gw);
      assert FrameOf(s, t, b);
    }
  }

  lemma RecordTimeoutMoves(s: System, b: nat)
    requires Local(s, b)
    ensures OwnEffect(s, DoRecordTimeout(s, b), b)
  {
    assert SagaAt(s, b, SawTimeout) ==> Moves(s, DoRecordTimeout(s, b), b);
  }

  lemma ReverseMoves(s: System, b: nat, ok: bool)
    requires Local(s, b)
    ensures OwnEffect(s, DoReverse(s, b, ok), b)
  {
    assert SagaAt(s, b, Compensates) ==> Moves(s, DoReverse(s, b, ok), b);
  }

  lemma CaptureMoves(s: System, b: nat)
    requires Local(s, b)
    ensures OwnEffect(s, DoCapture(s, b), b)
  {
    assert SagaAt(s, b, Issuing) ==> Moves(s, DoCapture(s, b), b);
  }

  lemma ConfirmMoves(s: System, b: nat)
    requires Local(s, b)
    ensures OwnEffect(s, DoConfirm(s, b), b)
  {
    assert SagaAt(s, b, CaptureSent) ==> Moves(s, DoConfirm(s, b), b);
  }

  lemma CancelRefundMoves(s: System, b: nat, ok: bool)
    requires Local(s, b)
    ensures OwnEffect(s, DoCancelRefund(s, b, ok), b)
  {
    assert MayCancel(s, b) ==> Moves(s, DoCancelRefund(s, b, ok), b);
  }

  lemma ApprovalMoves(s: System, b: nat)
    requires Local(s, b) && s.sagas[b].pc.Answered? && s.sagas[b].pc.result.approved
    ensures Moves(s, DoRecordAnswer(s, b), b)
  {}

  lemma BeginCompensationMoves(s: System, b: nat, audit: seq<AuditRow>)
    requires Local(s, b) && SagaAt(s, b, Authorized)
    ensures Moves(s, Commit(s, b, BeginCompensation(s.db.(audit := audit), b, s.sagas[b].state), Compensating, Compensates), b)
  {}

  lemma TakeAtKeepsHolds(seats: seq<Seat>, flight: nat, place: Place, user: nat, hold: nat, now: int, ttl: nat)
    requires HoldsOk(seats, hold)
    ensures HoldsOk(TakeAt(seats, flight, place, user, hold, now, ttl), hold + 1)
  {}

  lemma TakeSeatShuffles(s: System, user: nat, flight: nat, place: Place)
    requires Safe(s) && CountedFor(s, user) != 0
    ensures Shuffles(s, DoTakeSeat(s, user, flight, place))
  {
    TakeAtKeepsHolds(s.db.seats, flight, place, user, s.db.nextHold, s.now, s.cfg.holdTtl);
  }

  lemma ReleaseHoldShuffles(s: System, hold: nat, owner: Option<nat>)
    requires Safe(s)
    ensures Shuffles(s, s.(db := s.db.(seats := Inventory.ReleaseHold(s.db.seats, hold, owner))))
  {}

  lemma SweepShuffles(s: System)
    requires Safe(s)
    ensures Shuffles(s, s.(db := s.db.(seats := Inventory.Sweep(s.db.seats, s.now))))
  {}

  /** An open booking has no live ticket and no cancel in flight. */
  lemma OpenHasNoTicket(s: System, b: nat)
    requires Safe(s) && b < |s.sagas| && PhaseOf(s, b).Open?
    ensures forall x :: 0 <= x < |s.db.tickets| && s.db.tickets[x].booking == b ==> s.db.tickets[x].voided
    ensures b !in s.cancels
  {
    forall x: nat | x < |s.db.tickets| && s.db.tickets[x].booking == b ensures s.db.tickets[x].voided {
      assert TicketOk(s, x);
    }
    assert b in s.cancels ==> CancelOk(s, b);
  }

  lemma UnpinCloses(s: System, t: System, b: nat)
    requires Safe(s) && FrameOf(s, t, b) && PhaseOf(s, b).Open?
    requires t.cancels == s.cancels && t.db.tickets == s.db.tickets && t.db.seats == Unpin(s.db.seats, b)
    requires t.sagas[b].pc == Failed && t.sagas[b].state == t.db.bookings[b].state == PaymentFailed
    requires t.sagas[b].firstTicket == s.sagas[b].firstTicket
    ensures Closes(s, t, b)
  {
    OpenHasNoTicket(s, b);
    forall i: nat | i < |s.db.seats| ensures GivenUp(s.db.seats[i], t.db.seats[i], b) {
      assert LinkOk(s, i) && SeatOk(s.db.seats[i]);
    }
  }

  lemma FraudBlockCloses(s: System, b: nat)
    requires Safe(s) && SagaAt(s, b, Opened)
    ensures Closes(s, DoFraudBlock(s, b), b)
  {
    UnpinCloses(s, DoFraudBlock(s, b), b);
  }

  lemma DeclineCloses(s: System, b: nat)
    requires Safe(s) && b < |s.sagas| && s.sagas[b].pc.Answered? && !s.sagas[b].pc.result.approved
    ensures Closes(s, DoRecordAnswer(s, b), b)
  {
    UnpinCloses(s, DoRecordAnswer(s, b), b);
  }

  /** Releasing a booking's seats touches its own seats and tickets only. */
  lemma ReturnGivesUp(db: Tables, b: nat)
    ensures var t := ReturnSeats(db, b);
      && SameSeats(db.seats, t.seats) && |t.tickets| == |db.tickets|
      && (forall i :: 0 <= i < |db.seats| ==> GivenUp(db.seats[i], t.seats[i], b))
      && (forall x :: 0 <= x < |db.tickets| ==>
           if db.tickets[x].booking == b then t.tickets[x].voided else t.tickets[x] == db.tickets[x])
  {}

  lemma FinishIsCommit(s: System, b: nat)
    requires b < |s.sagas| && b < |s.db.bookings| && s.sagas[b].pc.Reversed?
    ensures DoFinishCompensation(s, b)
      == Commit(s, b, CompensationDone(s.db, b, s.sagas[b].state, s.sagas[b].pc.refunded), Voided, Undone)
  {}

  lemma ReversedCloses(s: System, b: nat)
    requires Local(s, b) && s.sagas[b].pc.Reversed? && b !in s.cancels
    ensures Closes(s, DoFinishCompensation(s, b), b)
  {
    var t := DoFinishCompensation(s, b);
    ReturnGivesUp(s.db, b);
    assert t.db.seats == ReturnSeats(s.db, b).seats && t.db.tickets == ReturnSeats(s.db, b).tickets;
    assert FrameOf(s, t, b);
  }

  lemma ReversalFailedCloses(s: System, b: nat)
    requires Local(s, b) && s.sagas[b].pc.ReversalFailed? && b !in s.cancels
    ensures Closes(s, DoFinishCompensation(s, b), b)
  {}

  lemma FinishCompensationCloses(s: System, b: nat)
    requires Local(s, b) && (PhaseOf(s, b).Open? ==> b !in s.cancels)
    ensures OwnEffect(s, DoFinishCompensation(s, b), b)
  {
    if s.sagas[b].pc.Reversed? {
      ReversedCloses(s, b);
    } else if s.sagas[b].pc.ReversalFailed? {
      ReversalFailedCloses(s, b);
    }
  }

  lemma CancelCloses(s: System, b: nat)
    requires Local(s, b) && b in s.cancels && !s.cancels[b].refund.RefundRejected? && s.cancels[b].state == Confirmed
    ensures Closes(s, DoCancelCommit(s, b), b)
  {
    var t := DoCancelCommit(s, b);
    ReturnGivesUp(s.db, b);
    assert t.db.seats == ReturnSeats(s.db, b).seats && t.db.tickets == ReturnSeats(s.db, b).tickets;
  }

  lemma CancelCommitEffect(s: System, b: nat)
    requires Local(s, b)
    ensures OwnEffect(s, DoCancelCommit(s, b), b)
  {
    if b in s.cancels {
      if !s.cancels[b].refund.RefundRejected? && s.cancels[b].state == Confirmed {
        CancelCloses(s, b);
      } else {
        assert Moves(s, DoCancelCommit(s, b), b);
      }
    }
  }

  // ----- issuing tickets -----

  /** Re-verification suffices: a row that carries this booking's id and this user is, column for
    * column, the row step 1 pinned, still held under the very same hold and version. */
  lemma StillOursIsUntouched(s: System, b: nat, k: nat)
    requires Safe(s) && b < |s.db.bookings| && k < |s.db.bookings[b].seats|
    requires BookingOk(s, b) && PhaseOf(s, b).Open?
    requires StillOurs(s.db.seats[s.db.bookings[b].seats[k]], b, s.db.bookings[b].user)
    ensures s.db.seats[s.db.bookings[b].seats[k]] == s.sagas[b].rows[k]
    ensures s.db.seats[s.db.bookings[b].seats[k]].status.Held?
  {
    var i := s.db.bookings[b].seats[k];
    assert LinkOk(s, i) && PinOk(s, b, k) && SeatOk(s.db.seats[i]);
  }

  lemma IssueTicketsEffect(s: System, b: nat, rejected: bool)
    requires Safe(s)
    ensures OwnEffect(s, DoIssueTickets(s, b, rejected), b) || Sells(s, DoIssueTickets(s, b, rejected), b)
  {
    if SagaAt(s, b, Authorized) {
      SafeIsLocal(s, b);
      assert BookingOk(s, b);
      var ids := s.db.bookings[b].seats;
      var user := s.db.bookings[b].user;
      match Store.IssueTickets(s.db, b, user, s.sagas[b].state, rejected, s.now)
      case Refused(db) => BeginCompensationMoves(s, b, db.audit);
      case Issued(db) => IssueSells(s, b, rejected);
      case Illegal =>
    }
  }

  lemma IssueSells(s: System, b: nat, rejected: bool)
    requires Safe(s) && SagaAt(s, b, Authorized) && BookingOk(s, b)
    requires Store.IssueTickets(s.db, b, s.db.bookings[b].user, s.sagas[b].state, rejected, s.now).Issued?
    ensures Sells(s, DoIssueTickets(s, b, rejected), b)
  {
    var ids, user := s.db.bookings[b].seats, s.db.bookings[b].user;
    SafeIsLocal(s, b);
    forall k | 0 <= k < |ids|
      ensures s.db.seats[ids[k]] == s.sagas[b].rows[k] && s.db.seats[ids[k]].status.Held? && s.db.seats[ids[k]].booking == Some(b)
    {
      assert !Lost(s.db.seats[ids[k]], b, user);
      StillOursIsUntouched(s, b, k);
    }
    assert b !in s.cancels;
  }

  // ----- opening a booking -----

  /** The seats step 1 pins are exactly its holds: each of the caller's hold ids once, all live. */
  lemma StepOneSeats(s: System, user: nat, key: string, holds: seq<nat>)
    requires Safe(s) && Store.CreateBooking(s.db, user, key, holds, s.now).Created?
    ensures
      var t := Store.CreateBooking(s.db, user, key, holds, s.now).tables;
      && |t.bookings| == |s.db.bookings| + 1
      && var ids := t.bookings[|s.db.bookings|].seats;
      && |ids| == |holds| && |ids| > 0 && InTable(s.db.seats, ids) && NoDuplicates(ids)
      && (forall k :: 0 <= k < |ids| ==>
           Mine(s.db.seats[ids[k]], holds, user) && HoldIsLive(s.db.seats[ids[k]], s.now)
           && s.db.seats[ids[k]].flight == t.bookings[|s.db.bookings|].flight)
      && t.bookings[|s.db.bookings|].total == SumPrices(s.db.seats, ids)
      && SortedByPlace(s.db.seats, ids)
  {
    var found := Matched(s.db.seats, |s.db.seats|, holds, user);
    FoundSeats(s.db.seats, holds, user, s.now);
    SumPricesPermuted(s.db.seats, found, SortByPlace(s.db.seats, found));
    TotalIsSum(s.db.seats, found);
  }

  lemma FoundSeats(seats: seq<Seat>, holds: seq<nat>, user: nat, now: int)
    ensures
      var found := Matched(seats, |seats|, holds, user);
      var ids := SortByPlace(seats, found);
      && multiset(ids) == multiset(found) && |ids| == |found| && NoDuplicates(ids) && SortedByPlace(seats, ids)
      && (!AnyExpired(seats, found, now) && OneFlight(seats, found) ==>
           forall k :: 0 <= k < |ids| ==>
             Mine(seats[ids[k]], holds, user) && HoldIsLive(seats[ids[k]], now) && seats[ids[k]].flight == seats[found[0]].flight)
  {
    var found := Matched(seats, |seats|, holds, user);
    MatchedIsExact(seats, |seats|, holds, user);
    SortByPlaceKeeps(seats, found);
    SortByPlaceSorts(seats, found);
    var ids := SortByPlace(seats, found);
    SameMultiset(found, ids);
    forall k | 0 <= k < |ids|
      ensures exists j :: 0 <= j < |found| && found[j] == ids[k]
      ensures Mine(seats[ids[k]], holds, user)
    {
      assert ids[k] in found;
    }
  }

  lemma CreateBookingOpens(s: System, user: nat, key: string, holds: seq<nat>, passengers: nat)
    requires Safe(s)
    ensures var t := DoCreateBooking(s, user, key, holds, passengers); t == s || Opens(s, t)
  {
    if ValidRequest(holds, passengers) && Store.CreateBooking(s.db, user, key, holds, s.now).Created? {
      StepOneSeats(s, user, key, holds);
      var tables := Store.CreateBooking(s.db, user, key, holds, s.now).tables;
      CreatedTables(s.db, user, key, holds, s.now, tables);
      CreatedOpens(s, DoCreateBooking(s, user, key, holds, passengers), tables);
    }
  }

  lemma CreatedTables(db: Tables, user: nat, key: string, holds: seq<nat>, now: int, tables: Tables)
    requires Store.CreateBooking(db, user, key, holds, now) == Created(tables)
    ensures |tables.bookings| == |db.bookings| + 1
    ensures var booking := tables.bookings[|db.bookings|];
      && tables == db.(bookings := db.bookings + [booking], seats := tables.seats, audit := tables.audit)
      && tables.seats == Pin(db.seats, booking.seats, |db.bookings|) && booking.state == Pending && booking.user == user
  {}

  lemma CreatedOpens(s: System, t: System, tables: Tables)
    requires |s.sagas| == |s.db.bookings| && |tables.bookings| == |s.db.bookings| + 1
    requires var booking := tables.bookings[|s.db.bookings|];
      var ids := booking.seats;
      && tables == s.db.(bookings := s.db.bookings + [booking], seats := tables.seats, audit := tables.audit)
      && tables.seats == Pin(s.db.seats, ids, |s.db.bookings|) && booking.state == Pending
      && |ids| > 0 && InTable(s.db.seats, ids) && NoDuplicates(ids) && booking.total == SumPrices(s.db.seats, ids)
      && (forall k :: 0 <= k < |ids| ==> s.db.seats[ids[k]].holder == Some(booking.user) && s.db.seats[ids[k]].status.Held?
                                         && s.db.seats[ids[k]].flight == booking.flight)
      && t == s.(db := tables, sagas := s.sagas + [Saga(Opened, Pending, RowsAt(tables.seats, ids), 0)])
    ensures Opens(s, t)
  {}

  // ----- what every shape leaves as it is -----

  lemma OwnEffectKeeps(s: System, t: System, b: nat)
    requires t == s || FrameOf(s, t, b)
    ensures t.cfg == s.cfg && t.now == s.now && t.counted == s.counted && t.db.nextHold == s.db.nextHold
    ensures |t.db.bookings| == |s.db.bookings|
    ensures forall c :: 0 <= c < |s.db.bookings| ==> t.db.bookings[c].key == s.db.bookings[c].key
  {}

  lemma EffectIsFramed(s: System, t: System, step: Step, b: nat)
    requires Effect(s, t, step) && Owner(step) == Some(b)
    ensures t == s || FrameOf(s, t, b)
  {}

  lemma EffectKeepsSeats(s: System, t: System, step: Step)
    requires Effect(s, t, step)
    ensures SameSeats(s.db.seats, t.db.seats)
  {
    match Owner(step)
    case Some(b) => SagaKeepsSeats(s, t, b);
    case None =>
      if step.CreateBooking? && Opens(s, t) {
        PinKeepsSeats(s.db.seats, t.db.bookings[|s.db.bookings|].seats, |s.db.bookings|);
      }
  }

  lemma PinKeepsSeats(seats: seq<Seat>, ids: seq<nat>, b: nat)
    ensures SameSeats(seats, Pin(seats, ids, b)) && SameSeats(seats, Sell(seats, ids, b))
  {}

  lemma SagaKeepsSeats(s: System, t: System, b: nat)
    requires OwnEffect(s, t, b) || Sells(s, t, b)
    ensures SameSeats(s.db.seats, t.db.seats)
  {
    if Sells(s, t, b) {
      PinKeepsSeats(s.db.seats, s.db.bookings[b].seats, b);
    }
  }

  // ----- every step has one of the shapes -----

  lemma HoldStepEffect(s: System, step: Step)
    requires Safe(s) && Owner(step).None?
    ensures Effect(s, Next(s, step), step)
  {
    match step
    case Tick(seconds) =>
    case CountHolds(user) =>
    case TakeSeat(user, flight, place) => if CountedFor(s, user) != 0 { TakeSeatShuffles(s, user, flight, place); }
    case ReleaseHold(hold, owner) => ReleaseHoldShuffles(s, hold, owner);
    case Sweep => SweepShuffles(s);
    case CreateBooking(user, key, holds, passengers) => CreateBookingOpens(s, user, key, holds, passengers);
  }

  lemma PaymentStepEffect(s: System, step: Step)
    requires Safe(s)
    requires step.FraudBlock? || step.InsertPayment? || step.Authorize? || step.RecordTimeout? || step.RecordAnswer?
    requires Local(s, step.b)
    ensures Effect(s, Next(s, step), step)
  {
    match step
    case FraudBlock(b) => if SagaAt(s, b, Opened) { FraudBlockCloses(s, b); }
    case InsertPayment(b) => InsertPaymentMoves(s, b);
    case Authorize(b, trigger) => AuthorizeMoves(s, b, trigger);
    case RecordTimeout(b) => RecordTimeoutMoves(s, b);
    case RecordAnswer(b) =>
      if b < |s.sagas| && s.sagas[b].pc.Answered? {
        if s.sagas[b].pc.result.approved { ApprovalMoves(s, b); } else { DeclineCloses(s, b); }
      }
  }

  /** The shape of every step from every safe state. */
  lemma StepEffect(s: System, step: Step)
    requires Safe(s)
    ensures Effect(s, Next(s, step), step)
  {
    if Owner(step).None? {
      HoldStepEffect(s, step);
    } else if Owner(step).value >= |s.sagas| {
      NoSuchBooking(s, step);
    } else {
      SafeIsLocal(s, Owner(step).value);
      SagaStepEffect(s, step);
    }
  }

  lemma NoSuchBooking(s: System, step: Step)
    requires Safe(s) && Owner(step).Some? && Owner(step).value >= |s.sagas|
    ensures Next(s, step) == s
  {}

  lemma SagaStepEffect(s: System, step: Step)
    requires Safe(s) && Owner(step).Some? && Local(s, Owner(step).value)
    ensures Effect(s, Next(s, step), step)
  {
    if step.FraudBlock? || step.InsertPayment? || step.Authorize? || step.RecordTimeout? || step.RecordAnswer? {
      PaymentStepEffect(s, step);
    } else {
      match step
      case IssueTickets(b, rejected) => IssueTicketsEffect(s, b, rejected);
      case Reverse(b, ok) => ReverseMoves(s, b, ok);
      case FinishCompensation(b) =>
        if PhaseOf(s, b).Open? { OpenHasNoTicket(s, b); }
        FinishCompensationCloses(s, b);
      case Capture(b) => CaptureMoves(s, b);
      case Confirm(b) => ConfirmMoves(s, b);
      case CancelRefund(b, ok) => CancelRefundMoves(s, b, ok);
      case CancelCommit(b) => CancelCommitEffect(s, b);
    }
  }
}
