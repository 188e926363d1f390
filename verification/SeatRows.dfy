/** The contended row, column by column: what every step leaves in it, and that its version tells it apart. */
module SeatRows {
  import opened Domain
  import opened Inventory
  import opened Store
  import opened Machine
  import opened Safety
  import opened Steps
  import opened Runs
  import opened StepOne
  import opened Holds
  import opened Stranded

  // ----- when a step writes, in the columns -----

  /** On sale, or held past its expiry. */
  ghost predicate MayBeTaken(row: Seat, now: int) {
    row.status == Available || (row.status == Held && row.expires.Some? && row.expires.value < now)
  }

  /** A live hold of the user, under the id asked for. */
  ghost predicate LiveFor(row: Seat, hold: nat, user: nat, now: int) {
    row.status == Held && row.holdId == Some(hold) && row.holder == Some(user) && row.expires.Some? && row.expires.value > now
  }

  ghost predicate AllLive(seats: seq<Seat>, holds: seq<nat>, user: nat, now: int) {
    forall h :: h in holds ==> exists i :: 0 <= i < |seats| && LiveFor(seats[i], h, user, now)
  }

  ghost predicate SameFlight(seats: seq<Seat>, holds: seq<nat>, user: nat) {
    forall i, j :: 0 <= i < |seats| && 0 <= j < |seats| && AskedFor(seats[i], holds, user) && AskedFor(seats[j], holds, user) ==>
      seats[i].flight == seats[j].flight
  }

  ghost predicate AskedFor(row: Seat, holds: seq<nat>, user: nat) {
    row.holder == Some(user) && row.holdId.Some? && row.holdId.value in holds
  }

  /** One to six holds, as many as passengers, none twice, each of them live and the caller's, all on one flight. */
  ghost predicate Accepts(s: System, user: nat, holds: seq<nat>, passengers: nat) {
    && 0 < |holds| < 7 && passengers == |holds| && (forall i, j :: 0 <= i < j < |holds| ==> holds[i] != holds[j])
    && AllLive(s.db.seats, holds, user, s.now) && SameFlight(s.db.seats, holds, user)
  }

  /** Every seat of the booking still carries its id and its user. */
  ghost predicate KeepsAll(s: System, b: nat)
    requires b < |s.db.bookings|
  {
    forall k :: 0 <= k < |s.db.bookings[b].seats| ==> Carries(s, b, s.db.bookings[b].seats[k])
  }

  ghost predicate Carries(s: System, b: nat, i: nat)
    requires b < |s.db.bookings|
  {
    i < |s.db.seats| && s.db.seats[i].booking == Some(b) && s.db.seats[i].holder == Some(s.db.bookings[b].user)
  }

  ghost predicate SagaIsAt(s: System, b: nat, pc: Pc) {
    b < |s.sagas| && b < |s.db.bookings| && s.sagas[b].pc == pc
  }

  ghost predicate IsDeclined(s: System, b: nat) {
    b < |s.sagas| && s.sagas[b].pc.Answered? && !s.sagas[b].pc.result.approved
  }

  ghost predicate IsUndone(s: System, b: nat) {
    b < |s.sagas| && (s.sagas[b].pc.Reversed? || s.sagas[b].pc.ReversalFailed?)
  }

  ghost predicate IsCancelled(s: System, b: nat) {
    b in s.cancels && s.cancels[b].state == Confirmed && s.cancels[b].refund != RefundRejected
  }

  // ----- what it writes -----

  /** The row with these columns, one version on. */
  ghost function Write(row: Seat, status: SeatStatus, holder: Option<nat>, hold: Option<nat>, expires: Option<int>, booking: Option<nat>): Seat {
    Seat(row.flight, row.place, row.price, status, holder, hold, expires, booking, row.version + 1)
  }

  ghost function Link(row: Seat, booking: Option<nat>): Seat {
    Write(row, row.status, row.holder, row.holdId, row.expires, booking)
  }

  /** What step leaves in row i. */
  ghost function RowAfter(s: System, step: Step, i: nat): Seat
    requires i < |s.db.seats|
  {
    var row := s.db.seats[i];
    match step
    case TakeSeat(user, flight, place) =>
      if user in s.counted && s.counted[user] > 0 && row.flight == flight && row.place == place && MayBeTaken(row, s.now)
      then Write(row, Held, Some(user), Some(s.db.nextHold), Some(s.now + s.cfg.holdTtl), None) else row
    case ReleaseHold(hold, owner) =>
      if row.status == Held && row.holdId == Some(hold) && (owner == None || owner == row.holder)
      then Write(row, Available, None, None, None, row.booking) else row
    case Sweep =>
      if row.status == Held && row.booking == None && row.expires.Some? && row.expires.value < s.now
      then Write(row, Available, None, None, None, None) else row
    case CreateBooking(user, _, holds, passengers) =>
      if Accepts(s, user, holds, passengers) && AskedFor(row, holds, user) then Link(row, Some(|s.db.bookings|)) else row
    case FraudBlock(b) => if SagaIsAt(s, b, Opened) && row.booking == Some(b) then Link(row, None) else row
    case RecordAnswer(b) => if IsDeclined(s, b) && row.booking == Some(b) then Link(row, None) else row
    case IssueTickets(b, rejected) =>
      if SagaIsAt(s, b, Authorized) && !rejected && KeepsAll(s, b) && i in s.db.bookings[b].seats
      then Write(row, Booked, row.holder, None, None, Some(b)) else row
    case FinishCompensation(b) =>
      if IsUndone(s, b) && row.booking == Some(b) then Write(row, Available, None, None, None, None) else row
    case CancelCommit(b) =>
      if IsCancelled(s, b) && row.booking == Some(b) then Write(row, Available, None, None, None, None) else row
    case _ => row
  }

  // ----- that it does -----

  lemma LiveIsAsked(seats: seq<Seat>, nextHold: nat, holds: seq<nat>, user: nat, now: int)
    requires HoldsOk(seats, nextHold)
    ensures AllLive(seats, holds, user, now) <==>
      && (forall h :: h in holds ==> OwnHold(seats, h, user))
      && (forall i :: i in MineSet(seats, holds, user) ==> HoldIsLive(seats[i], now))
  {
    if AllLive(seats, holds, user, now) {
      forall h | h in holds ensures OwnHold(seats, h, user) {
        var i :| 0 <= i < |seats| && LiveFor(seats[i], h, user, now);
        assert seats[i].holdId == Some(h);
      }
      forall i | i in MineSet(seats, holds, user) ensures HoldIsLive(seats[i], now) {
        var h := seats[i].holdId.value;
        var j :| 0 <= j < |seats| && LiveFor(seats[j], h, user, now);
        assert i == j;
      }
    }
    if (forall h :: h in holds ==> OwnHold(seats, h, user)) && (forall i :: i in MineSet(seats, holds, user) ==> HoldIsLive(seats[i], now)) {
      forall h | h in holds ensures exists i :: 0 <= i < |seats| && LiveFor(seats[i], h, user, now) {
        var i: nat :| i < |seats| && seats[i].holdId == Some(h) && seats[i].holder == Some(user);
        assert i in MineSet(seats, holds, user);
        assert LiveFor(seats[i], h, user, now);
      }
    }
  }

  /** A request opens a booking exactly if it is accepted. */
  lemma OpensIffAccepted(s: System, user: nat, key: string, holds: seq<nat>, passengers: nat)
    requires Safe(s)
    ensures Accepts(s, user, holds, passengers) <==>
      ValidRequest(holds, passengers) && Store.CreateBooking(s.db, user, key, holds, s.now).Created?
  {
    if ValidRequest(holds, passengers) {
      SafeStepOneDecides(s, user, key, holds);
      LiveIsAsked(s.db.seats, s.db.nextHold, holds, user, s.now);
      MineIsAsked(s.db.seats, holds, user);
    }
  }

  lemma MineIsAsked(seats: seq<Seat>, holds: seq<nat>, user: nat)
    ensures forall i: nat :: i in MineSet(seats, holds, user) <==> i < |seats| && AskedFor(seats[i], holds, user)
    ensures SameFlight(seats, holds, user) <==>
      forall i, j :: i in MineSet(seats, holds, user) && j in MineSet(seats, holds, user) ==> seats[i].flight == seats[j].flight
  {
    forall i: nat ensures i in MineSet(seats, holds, user) <==> i < |seats| && AskedFor(seats[i], holds, user) {}
    if forall i, j :: i in MineSet(seats, holds, user) && j in MineSet(seats, holds, user) ==> seats[i].flight == seats[j].flight {
      forall i, j | 0 <= i < |seats| && 0 <= j < |seats| && AskedFor(seats[i], holds, user) && AskedFor(seats[j], holds, user)
        ensures seats[i].flight == seats[j].flight
      {
        assert i in MineSet(seats, holds, user) && j in MineSet(seats, holds, user);
      }
    }
  }

  lemma CreateRow(s: System, user: nat, key: string, holds: seq<nat>, passengers: nat, i: nat)
    requires Safe(s) && i < |s.db.seats|
    ensures var t := DoCreateBooking(s, user, key, holds, passengers);
      |t.db.seats| == |s.db.seats| && t.db.seats[i] == RowAfter(s, CreateBooking(user, key, holds, passengers), i)
  {
    OpensIffAccepted(s, user, key, holds, passengers);
    if Accepts(s, user, holds, passengers) {
      CreatedPinsMine(s.db, user, key, holds, s.now, i);
    }
  }

  lemma KeepsAllIffNoneLost(s: System, b: nat)
    requires Safe(s) && b < |s.db.bookings|
    ensures InTable(s.db.seats, s.db.bookings[b].seats)
    ensures KeepsAll(s, b) <==> !AnyLost(s.db.seats, s.db.bookings[b].seats, b, s.db.bookings[b].user)
  {
    assert BookingOk(s, b);
    var ids, user := s.db.bookings[b].seats, s.db.bookings[b].user;
    if !AnyLost(s.db.seats, ids, b, user) {
      forall k | 0 <= k < |ids| ensures Carries(s, b, ids[k]) {
        assert !Lost(s.db.seats[ids[k]], b, user);
      }
    } else {
      var k :| 0 <= k < |ids| && Lost(s.db.seats[ids[k]], b, user);
      assert !Carries(s, b, ids[k]);
    }
  }

  lemma IssuedSeats(db: Tables, b: nat, user: nat, rejected: bool, now: int)
    requires Exists(db, b) && InTable(db.seats, db.bookings[b].seats)
    ensures var issue := Store.IssueTickets(db, b, user, PaymentAuthorized, rejected, now);
      match issue
      case Issued(after) => !AnyLost(db.seats, db.bookings[b].seats, b, user) && !rejected && after.seats == Sell(db.seats, db.bookings[b].seats, b)
      case Refused(after) => (AnyLost(db.seats, db.bookings[b].seats, b, user) || rejected) && after.seats == db.seats && after.bookings == db.bookings
      case Illegal => false
  {}

  lemma IssueTable(s: System, b: nat, rejected: bool)
    requires Safe(s) && Local(s, b)
    ensures DoIssueTickets(s, b, rejected).db.seats ==
      if SagaIsAt(s, b, Authorized) && !rejected && KeepsAll(s, b) then Sell(s.db.seats, s.db.bookings[b].seats, b) else s.db.seats
  {
    if SagaAt(s, b, Authorized) {
      KeepsAllIffNoneLost(s, b);
      IssuedSeats(s.db, b, s.db.bookings[b].user, rejected, s.now);
    }
  }

  lemma FraudTable(s: System, b: nat)
    requires Local(s, b)
    ensures DoFraudBlock(s, b).db.seats == if SagaIsAt(s, b, Opened) then Unpin(s.db.seats, b) else s.db.seats
  {}

  lemma AnswerTable(s: System, b: nat)
    requires Local(s, b)
    ensures DoRecordAnswer(s, b).db.seats == if IsDeclined(s, b) then Unpin(s.db.seats, b) else s.db.seats
  {}

  lemma FinishTable(s: System, b: nat)
    requires Local(s, b)
    ensures DoFinishCompensation(s, b).db.seats == if IsUndone(s, b) then Return(s.db.seats, b) else s.db.seats
  {
    if s.sagas[b].pc.Reversed? {
      FinishIsCommit(s, b);
    }
  }

  lemma CancelTable(s: System, b: nat)
    requires Local(s, b)
    ensures DoCancelCommit(s, b).db.seats == if IsCancelled(s, b) then Return(s.db.seats, b) else s.db.seats
  {}

  predicate WritesSeats(step: Step) {
    step.IssueTickets? || step.FraudBlock? || step.RecordAnswer? || step.FinishCompensation? || step.CancelCommit?
  }

  /** A saga's or a cancel's step, as the statement it runs on the whole table. */
  ghost function TableAfter(s: System, step: Step): seq<Seat>
    requires WritesSeats(step) && step.b < |s.db.bookings|
  {
    var b := step.b;
    match step
    case IssueTickets(_, rejected) =>
      if SagaIsAt(s, b, Authorized) && !rejected && KeepsAll(s, b) then Sell(s.db.seats, s.db.bookings[b].seats, b) else s.db.seats
    case FraudBlock(_) => if SagaIsAt(s, b, Opened) then Unpin(s.db.seats, b) else s.db.seats
    case RecordAnswer(_) => if IsDeclined(s, b) then Unpin(s.db.seats, b) else s.db.seats
    case FinishCompensation(_) => if IsUndone(s, b) then Return(s.db.seats, b) else s.db.seats
    case CancelCommit(_) => if IsCancelled(s, b) then Return(s.db.seats, b) else s.db.seats
    case _ => s.db.seats
  }

  lemma SagaTable(s: System, step: Step)
    requires Safe(s) && WritesSeats(step) && Local(s, step.b)
    ensures Next(s, step).db.seats == TableAfter(s, step)
  {
    match step
    case IssueTickets(b, rejected) => IssueTable(s, b, rejected);
    case FraudBlock(b) => FraudTable(s, b);
    case RecordAnswer(b) => AnswerTable(s, b);
    case FinishCompensation(b) => FinishTable(s, b);
    case CancelCommit(b) => CancelTable(s, b);
    case _ => {}
  }

  lemma TableRow(s: System, step: Step, i: nat)
    requires WritesSeats(step) && step.b < |s.db.bookings| && i < |s.db.seats|
    ensures |TableAfter(s, step)| == |s.db.seats| && TableAfter(s, step)[i] == RowAfter(s, step, i)
  {
    TableWrites(s.db.seats, step.b, s.db.bookings[step.b].seats, i);
  }

  lemma TakeRow(s: System, user: nat, flight: nat, place: Place, i: nat)
    requires i < |s.db.seats|
    ensures var t := DoTakeSeat(s, user, flight, place);
      |t.db.seats| == |s.db.seats| && t.db.seats[i] == RowAfter(s, TakeSeat(user, flight, place), i)
  {}

  lemma ReleaseRow(s: System, hold: nat, owner: Option<nat>, i: nat)
    requires i < |s.db.seats|
    ensures var after := Inventory.ReleaseHold(s.db.seats, hold, owner);
      |after| == |s.db.seats| && after[i] == RowAfter(s, Step.ReleaseHold(hold, owner), i)
  {}

  lemma SweepRow(s: System, i: nat)
    requires i < |s.db.seats|
    ensures var after := Inventory.Sweep(s.db.seats, s.now);
      |after| == |s.db.seats| && after[i] == RowAfter(s, Step.Sweep, i)
  {}

  lemma SagaRow(s: System, step: Step, i: nat)
    requires Safe(s) && i < |s.db.seats| && Owner(step).Some?
    ensures |Next(s, step).db.seats| == |s.db.seats| && Next(s, step).db.seats[i] == RowAfter(s, step, i)
  {
    if !WritesSeats(step) {
      QuietSteps(s, step);
    } else if step.b < |s.sagas| {
      SafeIsLocal(s, step.b);
      SagaTable(s, step);
      TableRow(s, step, i);
    } else {
      NoSuchBooking(s, step);
    }
  }

  /** From every safe state, every step leaves in every row exactly what the table of columns says. */
  lemma NextRow(s: System, step: Step, i: nat)
    requires Safe(s) && i < |s.db.seats|
    ensures |Next(s, step).db.seats| == |s.db.seats|
    ensures Next(s, step).db.seats[i] == RowAfter(s, step, i)
  {
    match step
    case CreateBooking(user, key, holds, passengers) => CreateRow(s, user, key, holds, passengers, i);
    case TakeSeat(user, flight, place) => TakeRow(s, user, flight, place, i);
    case ReleaseHold(hold, owner) => ReleaseRow(s, hold, owner, i);
    case Sweep => SweepRow(s, i);
    case Tick(_) =>
    case CountHolds(_) =>
    case _ => SagaRow(s, step, i);
  }

  // ----- the version -----

  lemma StepCountsItsWrite(s: System, step: Step, i: nat)
    requires Safe(s) && i < |s.db.seats|
    ensures |Next(s, step).db.seats| == |s.db.seats|
    ensures Next(s, step).db.seats[i].version == s.db.seats[i].version + if Next(s, step).db.seats[i] == s.db.seats[i] then 0 else 1
  {
    NextRow(s, step, i);
  }

  /** How often a run changes row i. */
  ghost function Writes(s: System, steps: seq<Step>, i: nat): nat {
    if steps == [] then 0
    else
      var front := steps[..|steps| - 1];
      var before, after := Exec(s, front).db.seats, Exec(s, steps).db.seats;
      Writes(s, front, i) + if i < |before| && i < |after| && after[i] != before[i] then 1 else 0
  }

  /** Over any run a row's version counts the changes to it, so that equal versions mean an untouched row. */
  lemma {:induction false} VersionCountsWrites(s: System, steps: seq<Step>, i: nat)
    requires Safe(s) && i < |s.db.seats|
    ensures |Exec(s, steps).db.seats| == |s.db.seats|
    ensures Exec(s, steps).db.seats[i].version == s.db.seats[i].version + Writes(s, steps, i)
    ensures Exec(s, steps).db.seats[i].version == s.db.seats[i].version ==> Exec(s, steps).db.seats[i] == s.db.seats[i]
  {
    if steps != [] {
      var front, last := steps[..|steps| - 1], steps[|steps| - 1];
      VersionCountsWrites(s, front, i);
      RunIsSafe(s, front);
      StepCountsItsWrite(Exec(s, front), last, i);
    }
  }
}
