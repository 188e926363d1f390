/** run() of app/services/booking_saga.py as the code it is, over the table object and the gateway object.
  * Undisturbed by others it takes a schedule of the machine's steps, and its answer tells the truth. */
module Coroutine {
  import opened Domain
  import opened Inventory
  import opened Store
  import opened Gateway
  import opened Machine
  import opened Safety
  import opened Steps
  import Holds
  import Service

  /** Everything about one request that the code does not decide itself. */
  datatype World = World(
    blocked: bool,     // the fraud verdict
    trigger: Trigger,  // what the card token makes the gateway do
    rejected: bool,    // the ticketing system's verdict
    armed: bool,       // the card token asks for its refund to fail
    now: int,          // when step 1 runs
    delay: nat)        // how long payment takes

  datatype Answer =
    | NotFound | HoldExpired | SeatUnavailable   // step 1 refused, nothing happened
    | PaymentBlocked(b: nat) | PaymentDeclined(b: nat)
    | BookingCompensated(b: nat)
    | Created(b: nat)

  lemma ExecMore(s: System, steps: seq<Step>, step: Step)
    ensures Exec(s, steps + [step]) == Next(Exec(s, steps), step)
  {
    assert (steps + [step])[..|steps|] == steps;
  }

  /** The objects are what the machine's tables and ledger are. */
  ghost predicate Shows(db: Service.Database, gateway: FakePaymentGateway, t: System)
    reads db, gateway
  {
    db.Rows() == t.db && gateway.State() == t.gw
  }

  ghost predicate Stands(t: System, b: nat, pc: Pc, state: BookingState) {
    SagaAt(t, b, pc) && t.sagas[b].state == state
  }

  /** What the gateway will say: what it said before under this key, or else what the card asks for. */
  predicate Approves(gw: Ledger, key: string, trigger: Trigger) {
    if AuthKey(key) in gw.authorizations then gw.authorizations[AuthKey(key)].approved else !trigger.Decline?
  }

  // ----- the machine's step from each control point -----

  lemma AtInsertPayment(t: System, b: nat)
    requires Stands(t, b, Opened, Pending)
    ensures var u := Next(t, Step.InsertPayment(b));
      u.db == Store.InsertPayment(t.db, b) && u.gw == t.gw && u.now == t.now && Stands(u, b, Charging, Pending)
  {}

  lemma AtAuthorize(t: System, b: nat, trigger: Trigger)
    requires Stands(t, b, Charging, Pending) || Stands(t, b, Retrying, Pending)
    ensures var u := Next(t, Step.Authorize(b, trigger));
      var (gw, reply) := AuthorizeOn(t.gw, AuthKey(t.db.bookings[b].key), trigger);
      && u.db == t.db && u.gw == gw && u.now == t.now
      && (reply.Answer? ==> Stands(u, b, Answered(reply.result), Pending))
      && (reply.TimedOut? && t.sagas[b].pc.Charging? ==> Stands(u, b, SawTimeout, Pending))
  {}

  lemma AtRecordTimeout(t: System, b: nat)
    requires Stands(t, b, SawTimeout, Pending)
    ensures var u := Next(t, Step.RecordTimeout(b));
      u.db == Store.RecordTimeout(t.db, b) && u.gw == t.gw && u.now == t.now && Stands(u, b, Retrying, Pending)
  {}

  lemma AtReverse(t: System, b: nat, ok: bool)
    requires Stands(t, b, Compensates, Compensating) && RefOf(t, b).Some?
    ensures var u := Next(t, Step.Reverse(b, ok));
      var ref := RefOf(t, b).value;
      && u.db == t.db && u.gw == (if !ok then t.gw else if MustRefund(t, b) then RefundOn(t.gw, ref) else VoidOn(t.gw, ref))
      && Stands(u, b, if ok then Reversed(MustRefund(t, b)) else ReversalFailed, Compensating)
  {}

  lemma AtCommit(t: System, b: nat, tables: Option<Tables>, state: BookingState, pc: Pc)
    requires b < |t.sagas| && b < |t.db.bookings| && tables.Some? && b < |tables.value.bookings|
    ensures var u := Commit(t, b, tables, state, pc);
      u.db == tables.value && u.gw == t.gw && Stands(u, b, pc, state)
  {}

  lemma DoneIsLegal(db: Tables, b: nat, refund: bool)
    requires b < |db.bookings|
    ensures Store.CompensationDone(db, b, Compensating, refund).Some?
    ensures |Store.CompensationDone(db, b, Compensating, refund).value.bookings| == |db.bookings|
  {
    assert CanTransition(Compensating, Voided);
  }

  lemma FailedFinishIsCommit(t: System, b: nat)
    requires SagaAt(t, b, ReversalFailed) && t.sagas[b].state == Compensating
    ensures DoFinishCompensation(t, b) == Commit(t, b, Some(Store.CompensationFailed(t.db, b, Compensating)), NeedsManualReview, Stuck)
  {}

  lemma Commits(t: System, b: nat, done: Tables, state: BookingState, pc: Pc)
    requires b < |t.sagas|
    ensures Commit(t, b, Some(done), state, pc).db == done && Commit(t, b, Some(done), state, pc).gw == t.gw
  {}

  lemma FinishingStep(t: System, b: nat)
    ensures Next(t, Step.FinishCompensation(b)) == DoFinishCompensation(t, b)
  {}

  lemma AtFinish(t: System, b: nat, refund: bool)
    requires Stands(t, b, Reversed(refund), Compensating)
    ensures var u := Next(t, Step.FinishCompensation(b));
      u.gw == t.gw && Some(u.db) == Store.CompensationDone(t.db, b, Compensating, refund)
  {
    DoneIsLegal(t.db, b, refund);
    FinishingStep(t, b);
    FinishIsCommit(t, b);
    Commits(t, b, Store.CompensationDone(t.db, b, Compensating, refund).value, Voided, Undone);
  }

  lemma AtFailedFinish(t: System, b: nat)
    requires Stands(t, b, ReversalFailed, Compensating)
    ensures var u := Next(t, Step.FinishCompensation(b));
      u.gw == t.gw && u.db == Store.CompensationFailed(t.db, b, Compensating)
  {
    FinishingStep(t, b);
    FailedFinishIsCommit(t, b);
    Commits(t, b, Store.CompensationFailed(t.db, b, Compensating), NeedsManualReview, Stuck);
  }

  lemma ApprovalIsLegal(db: Tables, b: nat, ref: nat)
    requires b < |db.bookings|
    ensures Store.RecordApproval(db, b, Pending, ref).Some?
    ensures |Store.RecordApproval(db, b, Pending, ref).value.bookings| == |db.bookings|
  {
    assert CanTransition(Pending, PaymentAuthorized);
  }

  lemma FailureIsLegal(db: Tables, b: nat)
    requires b < |db.bookings|
    ensures Store.FailPayment(db, b, Pending).Some?
    ensures |Store.FailPayment(db, b, Pending).value.bookings| == |db.bookings|
    ensures Store.FailPayment(db, b, Pending).value.bookings[b].state.PaymentFailed?
  {
    assert CanTransition(Pending, PaymentFailed);
  }

  lemma AtFraudBlock(t: System, b: nat)
    requires Stands(t, b, Opened, Pending)
    ensures var u := Next(t, Step.FraudBlock(b));
      u.gw == t.gw && Some(u.db) == Store.FailPayment(t.db, b, Pending)
  {
    FailureIsLegal(t.db, b);
    AtCommit(t, b, Store.FailPayment(t.db, b, Pending), PaymentFailed, Pc.Failed);
  }

  lemma AtApproval(t: System, b: nat, result: Authorization)
    requires Stands(t, b, Answered(result), Pending) && result.approved
    ensures var u := Next(t, Step.RecordAnswer(b));
      && u.gw == t.gw && u.now == t.now && Some(u.db) == Store.RecordApproval(t.db, b, Pending, result.ref)
      && Stands(u, b, Pc.Authorized, PaymentAuthorized)
  {
    ApprovalIsLegal(t.db, b, result.ref);
    AtCommit(t, b, Store.RecordApproval(t.db, b, Pending, result.ref), PaymentAuthorized, Pc.Authorized);
  }

  lemma AtDecline(t: System, b: nat, result: Authorization)
    requires Stands(t, b, Answered(result), Pending) && !result.approved
    ensures var u := Next(t, Step.RecordAnswer(b));
      u.gw == t.gw && Some(u.db) == Store.RecordDecline(t.db, b, Pending, result.ref) && u.db.bookings[b].state.PaymentFailed?
  {
    FailureIsLegal(SetPayment(t.db, b, PayDeclined, Some(result.ref)), b);
    AtCommit(t, b, Store.RecordDecline(t.db, b, Pending, result.ref), PaymentFailed, Pc.Failed);
  }

  lemma IssueIsLegal(db: Tables, b: nat, user: nat, rejected: bool, now: int)
    requires b < |db.bookings| && InTable(db.seats, db.bookings[b].seats)
    ensures var issue := Store.IssueTickets(db, b, user, PaymentAuthorized, rejected, now);
      var lost := AnyLost(db.seats, db.bookings[b].seats, b, user);
      && (issue.Issued? <==> !lost && !rejected) && (issue.Refused? <==> lost || rejected)
      && (issue.Refused? ==> |issue.tables.bookings| == |db.bookings| && issue.tables.payments == db.payments)
      && (issue.Issued? ==> |issue.tables.bookings| == |db.bookings| && issue.tables.payments == db.payments)
  {
    assert CanTransition(PaymentAuthorized, Ticketed);
  }

  lemma BeginIsLegal(db: Tables, b: nat)
    requires b < |db.bookings|
    ensures Store.BeginCompensation(db, b, PaymentAuthorized).Some?
    ensures var begun := Store.BeginCompensation(db, b, PaymentAuthorized).value;
      |begun.bookings| == |db.bookings| && begun.payments == db.payments
  {
    assert CanTransition(PaymentAuthorized, Compensating);
  }

  lemma AtIssue(t: System, b: nat, rejected: bool)
    requires Stands(t, b, Pc.Authorized, PaymentAuthorized) && InTable(t.db.seats, t.db.bookings[b].seats)
    ensures var u := Next(t, Step.IssueTickets(b, rejected));
      var issue := Store.IssueTickets(t.db, b, t.db.bookings[b].user, PaymentAuthorized, rejected, t.now);
      && u.gw == t.gw
      && (issue.Issued? ==> u.db == issue.tables && Stands(u, b, Issuing, Ticketed))
  {
    IssueIsLegal(t.db, b, t.db.bookings[b].user, rejected, t.now);
  }

  lemma AtRefusal(t: System, b: nat, rejected: bool)
    requires Stands(t, b, Pc.Authorized, PaymentAuthorized) && InTable(t.db.seats, t.db.bookings[b].seats)
    requires Store.IssueTickets(t.db, b, t.db.bookings[b].user, PaymentAuthorized, rejected, t.now).Refused?
    ensures var u := Next(t, Step.IssueTickets(b, rejected));
      var issue := Store.IssueTickets(t.db, b, t.db.bookings[b].user, PaymentAuthorized, rejected, t.now);
      && u.gw == t.gw && |issue.tables.bookings| == |t.db.bookings|
      && Some(u.db) == Store.BeginCompensation(issue.tables, b, PaymentAuthorized) && Stands(u, b, Compensates, Compensating)
  {
    var issue := Store.IssueTickets(t.db, b, t.db.bookings[b].user, PaymentAuthorized, rejected, t.now);
    IssueIsLegal(t.db, b, t.db.bookings[b].user, rejected, t.now);
    BeginIsLegal(issue.tables, b);
    AtCommit(t, b, Store.BeginCompensation(issue.tables, b, PaymentAuthorized), Compensating, Compensates);
  }

  lemma AtCapture(t: System, b: nat)
    requires Stands(t, b, Issuing, Ticketed) && RefOf(t, b).Some?
    ensures var u := Next(t, Step.Capture(b));
      u.db == t.db && u.gw == CaptureOn(t.gw, RefOf(t, b).value) && Stands(u, b, CaptureSent, Ticketed)
  {}

  lemma ConfirmIsLegal(db: Tables, b: nat)
    requires b < |db.bookings|
    ensures Store.Confirm(db, b, Ticketed).Some?
    ensures |Store.Confirm(db, b, Ticketed).value.bookings| == |db.bookings|
    ensures Store.Confirm(db, b, Ticketed).value.bookings[b].state.Confirmed?
  {
    assert CanTransition(Ticketed, Confirmed);
  }

  lemma AtConfirm(t: System, b: nat)
    requires Stands(t, b, CaptureSent, Ticketed)
    ensures var u := Next(t, Step.Confirm(b));
      u.gw == t.gw && Some(u.db) == Store.Confirm(t.db, b, Ticketed)
  {
    ConfirmIsLegal(t.db, b);
    AtCommit(t, b, Store.Confirm(t.db, b, Ticketed), Confirmed, Succeeded);
  }

  // ----- the code -----

  /** The call that is always answered: the key has been answered, or has timed out once. */
  method Retry(db: Service.Database, gateway: FakePaymentGateway, b: nat, trigger: Trigger, ghost t: System)
    returns (result: Authorization, ghost steps: seq<Step>)
    requires Shows(db, gateway, t) && Stands(t, b, SawTimeout, Pending) && b in db.payments
    requires AuthKey(db.bookings[b].key) in gateway.timedOutOnce && AuthKey(db.bookings[b].key) !in gateway.authorizations
    modifies db, gateway
    ensures Shows(db, gateway, Exec(t, steps)) && Stands(Exec(t, steps), b, Answered(result), Pending)
    ensures b in db.payments && db.bookings == old(db.bookings) && db.seats == old(db.seats) && Exec(t, steps).now == t.now
    ensures result.approved == !trigger.Decline?
  {
    db.MarkUnknown(b);
    AtRecordTimeout(t, b);
    ghost var u := Next(t, Step.RecordTimeout(b));
    ExecMore(t, [], Step.RecordTimeout(b));
    steps := [Step.RecordTimeout(b)];
    var reply := gateway.Authorize(AuthKey(db.bookings[b].key), trigger);
    AtAuthorize(u, b, trigger);
    ExecMore(t, steps, Step.Authorize(b, trigger));
    steps := steps + [Step.Authorize(b, trigger)];
    result := reply.result;
  }

  /** Step 3 with its one retry; the retry is always answered. */
  method AuthorizeCharge(db: Service.Database, gateway: FakePaymentGateway, b: nat, trigger: Trigger, ghost t: System)
    returns (result: Authorization, ghost steps: seq<Step>)
    requires Shows(db, gateway, t) && Stands(t, b, Opened, Pending)
    modifies db, gateway
    ensures Shows(db, gateway, Exec(t, steps)) && Stands(Exec(t, steps), b, Answered(result), Pending)
    ensures b in db.payments && db.bookings == old(db.bookings) && db.seats == old(db.seats) && Exec(t, steps).now == t.now
    ensures result.approved == old(Approves(gateway.State(), db.bookings[b].key, trigger))
  {
    db.InsertPayment(b);
    AtInsertPayment(t, b);
    steps := [Step.InsertPayment(b)];
    ExecMore(t, [], Step.InsertPayment(b));
    ghost var u := Next(t, Step.InsertPayment(b));
    var reply := gateway.Authorize(AuthKey(db.bookings[b].key), trigger);
    AtAuthorize(u, b, trigger);
    ExecMore(t, steps, Step.Authorize(b, trigger));
    u := Next(u, Step.Authorize(b, trigger));
    steps := steps + [Step.Authorize(b, trigger)];
    if reply.Answer? {
      return reply.result, steps;
    }
    ghost var more;
    result, more := Retry(db, gateway, b, trigger, u);
    ExecJoin(t, steps, more);
    steps := steps + more;
  }

  /** The reversal and its aftermath, one after the other. */
  lemma CompensationRuns(t: System, b: nat, ok: bool)
    requires Stands(t, b, Compensates, Compensating) && RefOf(t, b).Some?
    ensures var u := Exec(t, [Step.Reverse(b, ok), Step.FinishCompensation(b)]);
      var ref := RefOf(t, b).value;
      && u.gw == (if !ok then t.gw else if MustRefund(t, b) then RefundOn(t.gw, ref) else VoidOn(t.gw, ref))
      && Store.CompensationDone(t.db, b, Compensating, MustRefund(t, b)).Some?
      && u.db == if ok then Store.CompensationDone(t.db, b, Compensating, MustRefund(t, b)).value
                 else Store.CompensationFailed(t.db, b, Compensating)
  {
    AtReverse(t, b, ok);
    var u := Next(t, Step.Reverse(b, ok));
    if ok { AtFinish(u, b, MustRefund(t, b)); } else { AtFailedFinish(u, b); }
    DoneIsLegal(t.db, b, MustRefund(t, b));
    ExecMore(t, [], Step.Reverse(b, ok));
    ExecMore(t, [Step.Reverse(b, ok)], Step.FinishCompensation(b));
    assert [Step.Reverse(b, ok)] + [Step.FinishCompensation(b)] == [Step.Reverse(b, ok), Step.FinishCompensation(b)];
  }

  /** _compensate, after its first commit. */
  method Compensate(db: Service.Database, gateway: FakePaymentGateway, b: nat, armed: bool, ghost t: System)
    returns (ghost steps: seq<Step>)
    requires Shows(db, gateway, t) && Stands(t, b, Compensates, Compensating)
    requires b in db.payments && db.payments[b].ref.Some?
    modifies db, gateway
    ensures Shows(db, gateway, Exec(t, steps))
    ensures b < |db.bookings| && (db.bookings[b].state.Voided? || db.bookings[b].state.NeedsManualReview?)
  {
    var ref := db.payments[b].ref.value;
    if armed {
      gateway.ArmRefundFailure(ref);
    }
    var refund := db.payments[b].state.PayCaptured?;
    var ok := true;
    if refund {
      ok := gateway.Refund(ref);
    } else {
      gateway.Void(ref);
    }
    CompensationRuns(t, b, ok);
    steps := [Step.Reverse(b, ok), Step.FinishCompensation(b)];
    if ok {
      var done := db.CompensationDone(b, Compensating, refund);
    } else {
      db.CompensationFailed(b, Compensating);
    }
  }

  /** Steps 4 and 5, or the compensation. */
  method TicketAndConfirm(db: Service.Database, gateway: FakePaymentGateway, b: nat, rejected: bool, armed: bool, now: int, ghost t: System)
    returns (answer: Answer, ghost steps: seq<Step>)
    requires Shows(db, gateway, t) && Stands(t, b, Pc.Authorized, PaymentAuthorized) && t.now == now
    requires b in db.payments && db.payments[b].ref.Some?
    requires InTable(db.seats, db.bookings[b].seats) && NoDuplicates(db.bookings[b].seats)
    modifies db, gateway
    ensures Shows(db, gateway, Exec(t, steps)) && b < |db.bookings|
    ensures if rejected || old(AnyLost(db.seats, db.bookings[b].seats, b, db.bookings[b].user))
      then answer == BookingCompensated(b) && (db.bookings[b].state.Voided? || db.bookings[b].state.NeedsManualReview?)
      else answer == Answer.Created(b) && db.bookings[b].state.Confirmed?
  {
    var user := db.bookings[b].user;
    var ref := db.payments[b].ref.value;
    IssueIsLegal(t.db, b, user, rejected, now);
    AtIssue(t, b, rejected);
    steps := [Step.IssueTickets(b, rejected)];
    ExecMore(t, [], Step.IssueTickets(b, rejected));
    ghost var u := Next(t, Step.IssueTickets(b, rejected));
    var issued := db.IssueTickets(b, user, PaymentAuthorized, rejected, now);
    if issued.Failed? {
      AtRefusal(t, b, rejected);
      ghost var open := db.Rows();
      BeginIsLegal(open, b);
      var begun := db.BeginCompensation(b, PaymentAuthorized);
      ghost var more := Compensate(db, gateway, b, armed, u);
      ExecJoin(t, steps, more);
      steps := steps + more;
      return BookingCompensated(b), steps;
    }
    gateway.Capture(ref);
    AtCapture(u, b);
    ExecMore(t, steps, Step.Capture(b));
    u := Next(u, Step.Capture(b));
    steps := steps + [Step.Capture(b)];
    ConfirmIsLegal(db.Rows(), b);
    var confirmed := db.Confirm(b, Ticketed);
    AtConfirm(u, b);
    ExecMore(t, steps, Step.Confirm(b));
    steps := steps + [Step.Confirm(b)];
    return Answer.Created(b), steps;
  }

  lemma ExecJoin(t: System, steps: seq<Step>, more: seq<Step>)
    ensures Exec(t, steps + more) == Exec(Exec(t, steps), more)
  {
    Holds.ExecSplit(t, steps + more, |steps|);
    assert (steps + more)[..|steps|] == steps && (steps + more)[|steps|..] == more;
  }

  ghost predicate Pinned(t: System, b: nat, user: nat) {
    && b < |t.db.bookings| && t.db.bookings[b].user == user
    && var ids := t.db.bookings[b].seats;
    && InTable(t.db.seats, ids) && NoDuplicates(ids) && !AnyLost(t.db.seats, ids, b, user)
  }

  lemma CreatingStep(s: System, user: nat, key: string, holds: seq<nat>, passengers: nat)
    ensures Next(s, Step.CreateBooking(user, key, holds, passengers)) == DoCreateBooking(s, user, key, holds, passengers)
  {}

  lemma CreatedIsPinned(s: System, user: nat, key: string, holds: seq<nat>, passengers: nat, tables: Tables)
    requires Safe(s) && ValidRequest(holds, passengers)
    requires Store.CreateBooking(s.db, user, key, holds, s.now) == Creation.Created(tables)
    ensures Pinned(DoCreateBooking(s, user, key, holds, passengers), |s.db.bookings|, user)
  {
    StepOneSeats(s, user, key, holds);
    CreatedStands(s, user, key, holds, passengers, tables);
    PinnedRowsAreOurs(s.db.seats, tables.bookings[|s.db.bookings|].seats, |s.db.bookings|, user);
  }

  /** What the machine does with a request: the new booking stands opened and pinned, or nothing has changed. */
  ghost predicate CreatesOrNot(s: System, u: System, user: nat, key: string, creation: Creation) {
    match creation
    case Created(tables) =>
      && u.db == tables && u.gw == s.gw && u.now == s.now && Stands(u, |s.db.bookings|, Opened, Pending)
      && Pinned(u, |s.db.bookings|, user) && u.db.bookings[|s.db.bookings|].key == key
    case _ => u == s
  }

  lemma AtCreate(s: System, user: nat, key: string, holds: seq<nat>, passengers: nat)
    requires Safe(s) && ValidRequest(holds, passengers)
    ensures CreatesOrNot(s, Next(s, Step.CreateBooking(user, key, holds, passengers)), user, key, Store.CreateBooking(s.db, user, key, holds, s.now))
  {
    CreatingStep(s, user, key, holds, passengers);
    match Store.CreateBooking(s.db, user, key, holds, s.now)
    case Created(tables) =>
      CreatedIsPinned(s, user, key, holds, passengers, tables);
      CreatedStands(s, user, key, holds, passengers, tables);
    case _ => NotCreated(s, user, key, holds, passengers);
  }

  lemma NotCreated(s: System, user: nat, key: string, holds: seq<nat>, passengers: nat)
    requires !Store.CreateBooking(s.db, user, key, holds, s.now).Created?
    ensures DoCreateBooking(s, user, key, holds, passengers) == s
  {}

  lemma PinnedRowsAreOurs(seats: seq<Seat>, ids: seq<nat>, b: nat, user: nat)
    requires InTable(seats, ids)
    requires forall k :: 0 <= k < |ids| ==> seats[ids[k]].holder == Some(user)
    ensures !AnyLost(Pin(seats, ids, b), ids, b, user)
  {}

  lemma CreatedStands(s: System, user: nat, key: string, holds: seq<nat>, passengers: nat, tables: Tables)
    requires |s.sagas| == |s.db.bookings| && ValidRequest(holds, passengers)
    requires Store.CreateBooking(s.db, user, key, holds, s.now) == Creation.Created(tables)
    ensures |tables.bookings| == |s.db.bookings| + 1
    ensures var u := DoCreateBooking(s, user, key, holds, passengers);
      var booking := tables.bookings[|s.db.bookings|];
      && u.db == tables && u.gw == s.gw && u.now == s.now && Stands(u, |s.db.bookings|, Opened, Pending)
      && booking.user == user && booking.key == key && InTable(s.db.seats, booking.seats)
      && tables.seats == Pin(s.db.seats, booking.seats, |s.db.bookings|)
  {}

  /** What the caller is told when nobody interferes. */
  function Expected(db: Tables, gw: Ledger, user: nat, key: string, holds: seq<nat>, world: World): Answer {
    match Store.CreateBooking(db, user, key, holds, world.now)
    case HoldsNotFound => NotFound
    case HoldExpired => Answer.HoldExpired
    case NotOneFlight => SeatUnavailable
    case Created(_) =>
      var b := |db.bookings|;
      if world.blocked then PaymentBlocked(b)
      else if !Approves(gw, key, world.trigger) then PaymentDeclined(b)
      else if world.rejected then BookingCompensated(b)
      else Answer.Created(b)
  }

  /** The answer and the row agree. */
  predicate Truthful(answer: Answer, bookings: seq<Booking>) {
    match answer
    case PaymentBlocked(b) => b < |bookings| && bookings[b].state.PaymentFailed?
    case PaymentDeclined(b) => b < |bookings| && bookings[b].state.PaymentFailed?
    case BookingCompensated(b) => b < |bookings| && (bookings[b].state.Voided? || bookings[b].state.NeedsManualReview?)
    case Created(b) => b < |bookings| && bookings[b].state.Confirmed?
    case _ => true
  }

  lemma ApprovalKeepsPins(db: Tables, b: nat, ref: nat)
    requires b < |db.bookings|
    ensures Store.RecordApproval(db, b, Pending, ref).Some?
    ensures var after := Store.RecordApproval(db, b, Pending, ref).value;
      && |after.bookings| == |db.bookings| && after.seats == db.seats
      && after.bookings[b].seats == db.bookings[b].seats && after.bookings[b].user == db.bookings[b].user
      && (b in db.payments ==> b in after.payments && after.payments[b].ref == Some(ref))
  {
    assert CanTransition(Pending, PaymentAuthorized);
  }

  lemma AtTick(t: System, seconds: nat)
    ensures Next(t, Step.Tick(seconds)) == t.(now := t.now + seconds)
  {}

  /** The approval recorded, and the time that passes before tickets are issued. */
  lemma ApprovalRuns(t: System, b: nat, result: Authorization, delay: nat)
    requires Stands(t, b, Answered(result), Pending) && result.approved
    ensures var u := Exec(t, [Step.RecordAnswer(b), Step.Tick(delay)]);
      && u.gw == t.gw && u.now == t.now + delay && Some(u.db) == Store.RecordApproval(t.db, b, Pending, result.ref)
      && Stands(u, b, Pc.Authorized, PaymentAuthorized)
  {
    AtApproval(t, b, result);
    AtTick(Next(t, Step.RecordAnswer(b)), delay);
    ExecMore(t, [], Step.RecordAnswer(b));
    ExecMore(t, [Step.RecordAnswer(b)], Step.Tick(delay));
    assert [Step.RecordAnswer(b)] + [Step.Tick(delay)] == [Step.RecordAnswer(b), Step.Tick(delay)];
  }

  /** An approved booking whose seats are still pinned can be ticketed. */
  lemma ApprovedIsReady(t: System, b: nat, user: nat, result: Authorization, delay: nat)
    requires Stands(t, b, Answered(result), Pending) && result.approved && b in t.db.payments && Pinned(t, b, user)
    ensures var u := Exec(t, [Step.RecordAnswer(b), Step.Tick(delay)]);
      && u.gw == t.gw && u.now == t.now + delay && Some(u.db) == Store.RecordApproval(t.db, b, Pending, result.ref)
      && Stands(u, b, Pc.Authorized, PaymentAuthorized) && Pinned(u, b, user)
      && b in u.db.payments && u.db.payments[b].ref.Some?
  {
    ApprovalKeepsPins(t.db, b, result.ref);
    ApprovalRuns(t, b, result, delay);
  }

  lemma DeclineRuns(t: System, b: nat, result: Authorization)
    requires Stands(t, b, Answered(result), Pending) && !result.approved
    ensures var u := Exec(t, [Step.RecordAnswer(b)]);
      && u.gw == t.gw && Some(u.db) == Store.RecordDecline(t.db, b, Pending, result.ref)
      && |u.db.bookings| == |t.db.bookings| && u.db.bookings[b].state.PaymentFailed?
  {
    FailureIsLegal(SetPayment(t.db, b, PayDeclined, Some(result.ref)), b);
    AtDecline(t, b, result);
    ExecMore(t, [], Step.RecordAnswer(b));
  }

  /** The answer recorded, and the rest of the saga after an approval. */
  method RecordAndTicket(db: Service.Database, gateway: FakePaymentGateway, b: nat, result: Authorization, world: World, ghost t: System)
    returns (answer: Answer, ghost steps: seq<Step>)
    requires Shows(db, gateway, t) && Stands(t, b, Answered(result), Pending) && t.now == world.now
    requires b in db.payments && Pinned(t, b, db.bookings[b].user)
    modifies db, gateway
    ensures Shows(db, gateway, Exec(t, steps)) && Truthful(answer, db.bookings)
    ensures answer ==
      if !result.approved then PaymentDeclined(b)
      else if world.rejected then BookingCompensated(b)
      else Answer.Created(b)
  {
    if !result.approved {
      DeclineRuns(t, b, result);
      var declined := db.RecordDecline(b, Pending, result.ref);
      return PaymentDeclined(b), [Step.RecordAnswer(b)];
    }
    ApprovedIsReady(t, b, db.bookings[b].user, result, world.delay);
    steps := [Step.RecordAnswer(b), Step.Tick(world.delay)];
    var approved := db.RecordApproval(b, Pending, result.ref);
    ghost var more;
    answer, more := TicketAndConfirm(db, gateway, b, world.rejected, world.armed, world.now + world.delay, Exec(t, steps));
    ExecJoin(t, steps, more);
    steps := steps + more;
  }

  /** Steps 2 to 5 for a booking just opened. */
  method Proceed(db: Service.Database, gateway: FakePaymentGateway, b: nat, world: World, ghost t: System)
    returns (answer: Answer, ghost steps: seq<Step>)
    requires Shows(db, gateway, t) && Stands(t, b, Opened, Pending) && t.now == world.now && Pinned(t, b, db.bookings[b].user)
    modifies db, gateway
    ensures Shows(db, gateway, Exec(t, steps)) && Truthful(answer, db.bookings)
    ensures answer ==
      if world.blocked then PaymentBlocked(b)
      else if !old(Approves(gateway.State(), db.bookings[b].key, world.trigger)) then PaymentDeclined(b)
      else if world.rejected then BookingCompensated(b)
      else Answer.Created(b)
  {
    if world.blocked {
      FailureIsLegal(t.db, b);
      AtFraudBlock(t, b);
      var failed := db.FailPayment(b, Pending);
      ExecMore(t, [], Step.FraudBlock(b));
      return PaymentBlocked(b), [Step.FraudBlock(b)];
    }
    var result;
    result, steps := AuthorizeCharge(db, gateway, b, world.trigger, t);
    ghost var more;
    answer, more := RecordAndTicket(db, gateway, b, result, world, Exec(t, steps));
    ExecJoin(t, steps, more);
    steps := steps + more;
  }

  /** The whole saga. However long payment takes, and even if the holds lapse meanwhile, an undisturbed request
    * ends as Expected says, the tables and the gateway are where the machine's own run leads, and nothing
    * has happened at all if step 1 said no. */
  method Run(db: Service.Database, gateway: FakePaymentGateway, user: nat, key: string, holds: seq<nat>, passengers: nat, world: World, ghost s: System)
    returns (answer: Answer, ghost steps: seq<Step>)
    requires Safe(s) && Shows(db, gateway, s) && s.now == world.now && ValidRequest(holds, passengers)
    modifies db, gateway
    ensures Shows(db, gateway, Exec(s, steps)) && Truthful(answer, db.bookings)
    ensures answer == Expected(old(db.Rows()), old(gateway.State()), user, key, holds, world)
    ensures answer.NotFound? || answer.HoldExpired? || answer.SeatUnavailable? ==>
      db.Rows() == old(db.Rows()) && gateway.State() == old(gateway.State())
  {
    AtCreate(s, user, key, holds, passengers);
    var first := db.CreateBooking(user, key, holds, world.now);
    match first
    case NotYours => return NotFound, [];
    case Expired => return Answer.HoldExpired, [];
    case MixedFlights => return SeatUnavailable, [];
    case Opened(b) =>
      ghost var create := Step.CreateBooking(user, key, holds, passengers);
      ghost var more;
      ExecMore(s, [], create);
      answer, more := Proceed(db, gateway, b, world, Next(s, create));
      steps := [create] + more;
      ExecJoin(s, [create], more);
  }

  datatype Cancellation = NotCancellable | Cancelled(refunded: bool) | FlaggedForReview | Aborted

  lemma AtCancelRefund(t: System, b: nat, ok: bool)
    requires MayCancel(t, b)
    ensures var u := Next(t, Step.CancelRefund(b, ok));
      && u.db == t.db && b in u.cancels && u.cancels[b].state == t.db.bookings[b].state
      && if !Refundable(t.db, b) || RefOf(t, b).None? then u.gw == t.gw && u.cancels[b].refund == NothingToRefund
         else if !ok then u.gw == t.gw && u.cancels[b].refund == RefundRejected
         else u.gw == RefundOn(t.gw, RefOf(t, b).value) && u.cancels[b].refund == RefundDone
  {}

  lemma AtCancelCommit(t: System, b: nat)
    requires b in t.cancels && b < |t.db.bookings|
    ensures var u := Next(t, Step.CancelCommit(b));
      var done := Store.Cancel(t.db, b, t.cancels[b].state, t.cancels[b].refund);
      u.gw == t.gw && u.db == match done case None => t.db case Some(db) => db
  {}

  /** What the gateway call of a cancel results in. */
  function RefundOutcome(t: System, b: nat, ok: bool): RefundResult {
    if !Refundable(t.db, b) || RefOf(t, b).None? then NothingToRefund else if ok then RefundDone else RefundRejected
  }

  /** The two steps of a cancel, one after the other. */
  lemma CancelRuns(t: System, b: nat, ok: bool)
    requires MayCancel(t, b)
    ensures var u := Exec(t, [Step.CancelRefund(b, ok), Step.CancelCommit(b)]);
      var result := RefundOutcome(t, b, ok);
      && u.gw == (if result.RefundDone? then RefundOn(t.gw, RefOf(t, b).value) else t.gw)
      && u.db == match Store.Cancel(t.db, b, t.db.bookings[b].state, result) case None => t.db case Some(db) => db
  {
    AtCancelRefund(t, b, ok);
    var u := Next(t, Step.CancelRefund(b, ok));
    AtCancelCommit(u, b);
    ExecMore(t, [], Step.CancelRefund(b, ok));
    ExecMore(t, [Step.CancelRefund(b, ok)], Step.CancelCommit(b));
    assert [Step.CancelRefund(b, ok)] + [Step.CancelCommit(b)] == [Step.CancelRefund(b, ok), Step.CancelCommit(b)];
  }

  /** cancel_booking's guard and cancel(). A cancel that begins in CONFIRMED cancels or is flagged; one that
    * begins in TICKETED refunds the money and then aborts with every row as it was. */
  method CancelBooking(db: Service.Database, gateway: FakePaymentGateway, b: nat, ghost t: System)
    returns (answer: Cancellation, ghost steps: seq<Step>)
    requires Shows(db, gateway, t) && b < |db.bookings|
    modifies db, gateway
    ensures Shows(db, gateway, Exec(t, steps)) && b < |db.bookings|
    ensures var state := old(db.bookings)[b].state;
      var paid := old(Refundable(db.Rows(), b) && db.payments[b].ref.Some?);
      var refused := paid && old(db.payments)[b].ref.value in old(gateway.refundFailures);
      answer ==
        if !state.Confirmed? && !state.Ticketed? then NotCancellable
        else if refused then FlaggedForReview
        else if state.Confirmed? then Cancellation.Cancelled(paid)
        else Aborted
    ensures answer.Cancelled? ==> db.bookings[b].state.Cancelled?
    ensures answer.FlaggedForReview? ==> db.bookings[b].state.NeedsManualReview?
    ensures answer.NotCancellable? || answer.Aborted? ==> db.Rows() == old(db.Rows())
    ensures answer.Cancelled? || answer.Aborted? ==>
      (old(Refundable(db.Rows(), b) && db.payments[b].ref.Some?) ==> old(db.payments)[b].ref.value in gateway.refunded)
  {
    var state := db.bookings[b].state;
    if state != Confirmed && state != Ticketed {
      return NotCancellable, [];
    }
    var result := NothingToRefund;
    if Refundable(db.Rows(), b) && db.payments[b].ref.Some? {
      var ok := gateway.Refund(db.payments[b].ref.value);
      result := if ok then RefundDone else RefundRejected;
    }
    ghost var ok := !result.RefundRejected?;
    CancelRuns(t, b, ok);
    steps := [Step.CancelRefund(b, ok), Step.CancelCommit(b)];
    var committed := db.Cancel(b, state, result);
    if result.RefundRejected? {
      return FlaggedForReview, steps;
    }
    return if committed then Cancellation.Cancelled(result.RefundDone?) else Aborted, steps;
  }
}
