/** The whole service as a step machine: every transaction and every gateway call is one step,
  * any number of users and sagas interleave, and a saga that takes no further step has crashed. */
module Machine {
  import opened Domain
  import opened Inventory
  import opened Store
  import opened Gateway

  /** Where a saga's coroutine stands between two commits or gateway calls. */
  datatype Pc =
    | Opened                                  // step 1 committed
    | Charging                                // payment row committed
    | SawTimeout                              // the first authorize raised PaymentTimeout
    | Retrying                                // UNKNOWN committed
    | Answered(result: Authorization)         // the gateway answered, nothing recorded yet
    | Authorized
    | Issuing                                 // TICKETED committed
    | CaptureSent
    | Compensates                             // COMPENSATING committed
    | Reversed(refunded: bool)                // the gateway voided or refunded
    | ReversalFailed
    | Failed | Succeeded | Undone | Stuck     // the coroutine returned or raised a known error
    | Crashed                                 // an unknown exception escaped

  /** A saga's local variables: the booking state and the rows of `ordered_seats` as it remembers them. */
  datatype Saga = Saga(pc: Pc, state: BookingState, rows: seq<Seat>, firstTicket: nat)

  /** A cancel request after its gateway call: the booking state it loaded, and the refund's outcome. */
  datatype CancelRun = CancelRun(state: BookingState, refund: RefundResult)

  datatype Config = Config(holdTtl: nat, maxHolds: nat)

  datatype System = System(
    cfg: Config,
    now: int,
    db: Tables,
    gw: Ledger,
    sagas: seq<Saga>,               // saga b works for booking b
    cancels: map<nat, CancelRun>,   // the cancel in flight for booking b
    counted: map<nat, nat>)         // acquires of a user between the count and the UPDATE

  datatype Step =
    | Tick(seconds: nat)
    | CountHolds(user: nat)
    | TakeSeat(user: nat, flight: nat, place: Place)
    | ReleaseHold(hold: nat, owner: Option<nat>)
    | Sweep
    | CreateBooking(user: nat, key: string, holds: seq<nat>, passengers: nat)
    | FraudBlock(b: nat)
    | InsertPayment(b: nat)
    | Authorize(b: nat, trigger: Trigger)
    | RecordTimeout(b: nat)
    | RecordAnswer(b: nat)
    | IssueTickets(b: nat, rejected: bool)
    | Reverse(b: nat, ok: bool)
    | FinishCompensation(b: nat)
    | Capture(b: nat)
    | Confirm(b: nat)
    | CancelRefund(b: nat, ok: bool)
    | CancelCommit(b: nat)

  function CountedFor(s: System, user: nat): nat {
    if user in s.counted then s.counted[user] else 0
  }

  predicate SagaAt(s: System, b: nat, pc: Pc) {
    b < |s.sagas| && b < |s.db.bookings| && s.sagas[b].pc == pc
  }

  function Goto(s: System, b: nat, pc: Pc): System
    requires b < |s.sagas|
  {
    s.(sagas := s.sagas[b := s.sagas[b].(pc := pc)])
  }

  /** Commit the transaction and move on, or crash if it raised IllegalTransition. */
  function Commit(s: System, b: nat, tables: Option<Tables>, state: BookingState, pc: Pc): System
    requires b < |s.sagas|
  {
    match tables
    case None => Goto(s, b, Crashed)
    case Some(db) => s.(db := db, sagas := s.sagas[b := s.sagas[b].(pc := pc, state := state)])
  }

  // ----- holds -----

  predicate CountPasses(s: System, user: nat) {
    LiveHolds(s.db.seats, |s.db.seats|, user, s.now) < s.cfg.maxHolds
  }

  function DoCountHolds(s: System, user: nat): System {
    if CountPasses(s, user) then s.(counted := s.counted[user := CountedFor(s, user) + 1]) else s
  }

  function DoTakeSeat(s: System, user: nat, flight: nat, place: Place): System {
    if CountedFor(s, user) == 0 then s
    else s.(db := Store.TakeSeat(s.db, user, flight, place, s.now, s.cfg.holdTtl),
            counted := s.counted[user := CountedFor(s, user) - 1])
  }

  // ----- the saga -----

  /** BookingCreate's own validation: one hold per passenger, no hold twice, at most six. */
  predicate ValidRequest(holds: seq<nat>, passengers: nat) {
    1 <= |holds| <= 6 && |holds| == passengers && NoDuplicates(holds)
  }

  function RowsAt(seats: seq<Seat>, ids: seq<nat>): seq<Seat>
    requires InTable(seats, ids)
  {
    seq(|ids|, k requires 0 <= k < |ids| => seats[ids[k]])
  }

  function DoCreateBooking(s: System, user: nat, key: string, holds: seq<nat>, passengers: nat): System {
    if !ValidRequest(holds, passengers) then s
    else
      match Store.CreateBooking(s.db, user, key, holds, s.now)
      case Created(db) =>
        var order := db.bookings[|db.bookings| - 1].seats;
        s.(db := db, sagas := s.sagas + [Saga(Opened, Pending, RowsAt(db.seats, order), 0)])
      case _ => s
  }

  function DoFraudBlock(s: System, b: nat): System {
    if !SagaAt(s, b, Opened) then s
    else Commit(s, b, FailPayment(s.db, b, s.sagas[b].state), PaymentFailed, Failed)
  }

  function DoInsertPayment(s: System, b: nat): System {
    if !SagaAt(s, b, Opened) then s
    else Goto(s, b, Charging).(db := Store.InsertPayment(s.db, b))
  }

  function DoAuthorize(s: System, b: nat, trigger: Trigger): System {
    if !SagaAt(s, b, Charging) && !SagaAt(s, b, Retrying) then s
    else
      var (gw, reply) := AuthorizeOn(s.gw, AuthKey(s.db.bookings[b].key), trigger);
      match reply
      case Answer(result) => Goto(s, b, Answered(result)).(gw := gw)
      case TimedOut => Goto(s, b, if s.sagas[b].pc.Charging? then SawTimeout else Crashed).(gw := gw)
  }

  function DoRecordTimeout(s: System, b: nat): System {
    if !SagaAt(s, b, SawTimeout) then s
    else Goto(s, b, Retrying).(db := Store.RecordTimeout(s.db, b))
  }

  function DoRecordAnswer(s: System, b: nat): System {
    if b >= |s.sagas| || b >= |s.db.bookings| || !s.sagas[b].pc.Answered? then s
    else
      var result := s.sagas[b].pc.result;
      if result.approved
      then Commit(s, b, RecordApproval(s.db, b, s.sagas[b].state, result.ref), PaymentAuthorized, Authorized)
      else Commit(s, b, RecordDecline(s.db, b, s.sagas[b].state, result.ref), PaymentFailed, Failed)
  }

  function DoIssueTickets(s: System, b: nat, rejected: bool): System {
    if !SagaAt(s, b, Authorized) || !InTable(s.db.seats, s.db.bookings[b].seats) then s
    else
      match Store.IssueTickets(s.db, b, s.db.bookings[b].user, s.sagas[b].state, rejected, s.now)
      case Illegal => Goto(s, b, Crashed)
      case Issued(db) =>
        s.(db := db, sagas := s.sagas[b := s.sagas[b].(pc := Issuing, state := Ticketed, firstTicket := |s.db.tickets|)])
      case Refused(db) => Commit(s, b, BeginCompensation(db, b, s.sagas[b].state), Compensating, Compensates)
  }

  function RefOf(s: System, b: nat): Option<nat> {
    if b in s.db.payments then s.db.payments[b].ref else None
  }

  predicate MustRefund(s: System, b: nat) {
    b in s.db.payments && s.db.payments[b].state.PayCaptured?
  }

  function DoReverse(s: System, b: nat, ok: bool): System {
    if !SagaAt(s, b, Compensates) then s
    else if !ok || RefOf(s, b).None? then Goto(s, b, ReversalFailed)
    else
      var refund := MustRefund(s, b);
      var ref := RefOf(s, b).value;
      Goto(s, b, Reversed(refund)).(gw := if refund then RefundOn(s.gw, ref) else VoidOn(s.gw, ref))
  }

  function DoFinishCompensation(s: System, b: nat): System {
    if b >= |s.sagas| || b >= |s.db.bookings| then s
    else
      match s.sagas[b].pc
      case Reversed(refunded) =>
        Commit(s, b, CompensationDone(s.db, b, s.sagas[b].state, refunded), Voided, Undone)
      case ReversalFailed =>
        Commit(s, b, Some(CompensationFailed(s.db, b, s.sagas[b].state)), NeedsManualReview, Stuck)
      case _ => s
  }

  function DoCapture(s: System, b: nat): System {
    if !SagaAt(s, b, Issuing) || RefOf(s, b).None? then s
    else Goto(s, b, CaptureSent).(gw := CaptureOn(s.gw, RefOf(s, b).value))
  }

  function DoConfirm(s: System, b: nat): System {
    if !SagaAt(s, b, CaptureSent) then s
    else Commit(s, b, Store.Confirm(s.db, b, s.sagas[b].state), Confirmed, Succeeded)
  }

  // ----- cancellation -----

  /** cancel_booking's guard. */
  predicate MayCancel(s: System, b: nat) {
    b < |s.db.bookings| && (s.db.bookings[b].state.Confirmed? || s.db.bookings[b].state.Ticketed?)
  }

  function DoCancelRefund(s: System, b: nat, ok: bool): System {
    if !MayCancel(s, b) then s
    else
      var state := s.db.bookings[b].state;
      if !Refundable(s.db, b) || RefOf(s, b).None? then s.(cancels := s.cancels[b := CancelRun(state, NothingToRefund)])
      else if !ok then s.(cancels := s.cancels[b := CancelRun(state, RefundRejected)])
      else s.(cancels := s.cancels[b := CancelRun(state, RefundDone)], gw := RefundOn(s.gw, RefOf(s, b).value))
  }

  function DoCancelCommit(s: System, b: nat): System {
    if b !in s.cancels || b >= |s.db.bookings| then s
    else
      var run := s.cancels[b];
      var over := s.(cancels := s.cancels - {b});
      match Cancel(s.db, b, run.state, run.refund)
      case None => over
      case Some(db) => over.(db := db)
  }

  // ----- the machine -----

  function Next(s: System, step: Step): System {
    match step
    case Tick(seconds) => s.(now := s.now + seconds)
    case CountHolds(user) => DoCountHolds(s, user)
    case TakeSeat(user, flight, place) => DoTakeSeat(s, user, flight, place)
    case ReleaseHold(hold, owner) => s.(db := s.db.(seats := Inventory.ReleaseHold(s.db.seats, hold, owner)))
    case Sweep => s.(db := s.db.(seats := Inventory.Sweep(s.db.seats, s.now)))
    case CreateBooking(user, key, holds, passengers) => DoCreateBooking(s, user, key, holds, passengers)
    case FraudBlock(b) => DoFraudBlock(s, b)
    case InsertPayment(b) => DoInsertPayment(s, b)
    case Authorize(b, trigger) => DoAuthorize(s, b, trigger)
    case RecordTimeout(b) => DoRecordTimeout(s, b)
    case RecordAnswer(b) => DoRecordAnswer(s, b)
    case IssueTickets(b, rejected) => DoIssueTickets(s, b, rejected)
    case Reverse(b, ok) => DoReverse(s, b, ok)
    case FinishCompensation(b) => DoFinishCompensation(s, b)
    case Capture(b) => DoCapture(s, b)
    case Confirm(b) => DoConfirm(s, b)
    case CancelRefund(b, ok) => DoCancelRefund(s, b, ok)
    case CancelCommit(b) => DoCancelCommit(s, b)
  }

  function Exec(s: System, steps: seq<Step>): System {
    if steps == [] then s else Next(Exec(s, steps[..|steps| - 1]), steps[|steps| - 1])
  }

  /** A freshly seeded inventory: every seat on sale at a price, one row per seat of a flight. */
  ghost predicate Seeded(seats: seq<Seat>) {
    && (forall i :: 0 <= i < |seats| ==>
         seats[i].status.Available? && seats[i].holder.None? && seats[i].holdId.None?
         && seats[i].expires.None? && seats[i].booking.None? && seats[i].price >= 0)
    && (forall i, j :: 0 <= i < j < |seats| ==> !Inventory.At(seats[j], seats[i].flight, seats[i].place))
  }

  function Start(cfg: Config, now: int, seats: seq<Seat>): System {
    System(cfg, now, Tables(seats, [], map[], [], [], 0), Ledger(map[], {}, {}, {}, {}, 0), [], map[], map[])
  }
}
