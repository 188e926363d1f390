/** The payment row follows its saga in every run, careful or not, whatever other bookings do under the same key. */
module PaymentRows {
  import opened Domain
  import opened Inventory
  import opened Store
  import opened Gateway
  import opened Machine
  import opened Safety
  import opened Steps
  import opened Runs

  predicate RowIs(row: Option<Payment>, state: PaymentState) {
    row.Some? && row.value.state == state
  }

  /** What the row says at each control point of the saga and state of the booking. */
  predicate Fits(pc: Pc, state: BookingState, row: Option<Payment>) {
    match pc
    case Opened => row.None?
    case Charging => RowIs(row, PayPending) && row.value.ref.None?
    case SawTimeout => RowIs(row, PayPending) && row.value.ref.None?
    case Retrying => RowIs(row, PayUnknown) && row.value.ref.None?
    case Answered(_) => RowIs(row, PayPending) || RowIs(row, PayUnknown)
    case Failed => row.None? || (RowIs(row, PayDeclined) && row.value.ref.Some?)
    case Undone => RowIs(row, PayVoided) && row.value.ref.Some?
    case Reversed(refunded) => !refunded && RowIs(row, PayAuthorized) && row.value.ref.Some?
    case Succeeded => RowIs(row, if state == Cancelled then PayRefunded else PayCaptured) && row.value.ref.Some?
    case Crashed => false
    case _ => RowIs(row, PayAuthorized) && row.value.ref.Some?
  }

  function RowOf(s: System, b: nat): Option<Payment> {
    if b in s.db.payments then Some(s.db.payments[b]) else None
  }

  /** A cancel of a confirmed booking always has something to refund. */
  ghost predicate RowFollows(s: System, b: nat) {
    && b < |s.sagas| == |s.db.bookings|
    && Fits(s.sagas[b].pc, s.db.bookings[b].state, RowOf(s, b))
    && (b in s.cancels && s.cancels[b].state == Confirmed ==> s.sagas[b].pc.Succeeded? && !s.cancels[b].refund.NothingToRefund?)
  }

  ghost predicate RowsFollow(s: System) {
    && |s.sagas| == |s.db.bookings|
    && (forall b: nat :: b < |s.db.bookings| ==> RowFollows(s, b))
    && (forall b: nat :: b in s.db.payments ==> b < |s.db.bookings|)
  }

  // ----- each step of a booking -----

  lemma FraudFollows(s: System, b: nat)
    requires Local(s, b) && RowFollows(s, b)
    ensures RowFollows(DoFraudBlock(s, b), b)
  {}

  lemma InsertFollows(s: System, b: nat)
    requires Local(s, b) && RowFollows(s, b)
    ensures RowFollows(DoInsertPayment(s, b), b)
  {}

  lemma AuthorizeFollows(s: System, b: nat, trigger: Trigger)
    requires Local(s, b) && RowFollows(s, b)
    ensures RowFollows(DoAuthorize(s, b, trigger), b)
  {}

  lemma TimeoutFollows(s: System, b: nat)
    requires Local(s, b) && RowFollows(s, b)
    ensures RowFollows(DoRecordTimeout(s, b), b)
  {}

  lemma AnswerFollows(s: System, b: nat)
    requires Local(s, b) && RowFollows(s, b)
    ensures RowFollows(DoRecordAnswer(s, b), b)
  {}

  lemma IssueFollows(s: System, b: nat, rejected: bool)
    requires Local(s, b) && RowFollows(s, b)
    ensures RowFollows(DoIssueTickets(s, b, rejected), b)
  {}

  lemma ReverseFollows(s: System, b: nat, ok: bool)
    requires Local(s, b) && RowFollows(s, b)
    ensures RowFollows(DoReverse(s, b, ok), b)
  {}

  lemma FinishFollows(s: System, b: nat)
    requires Local(s, b) && RowFollows(s, b)
    ensures RowFollows(DoFinishCompensation(s, b), b)
  {}

  lemma CaptureFollows(s: System, b: nat)
    requires Local(s, b) && RowFollows(s, b)
    ensures RowFollows(DoCapture(s, b), b)
  {}

  lemma ConfirmFollows(s: System, b: nat)
    requires Local(s, b) && RowFollows(s, b)
    ensures RowFollows(DoConfirm(s, b), b)
  {}

  lemma RefundFollows(s: System, b: nat, ok: bool)
    requires Local(s, b) && RowFollows(s, b)
    ensures RowFollows(DoCancelRefund(s, b, ok), b)
  {}

  lemma CancelFollows(s: System, b: nat)
    requires Local(s, b) && RowFollows(s, b)
    ensures RowFollows(DoCancelCommit(s, b), b)
  {}

  lemma ChargeStepFollows(s: System, step: Step, b: nat)
    requires Owner(step) == Some(b) && Local(s, b) && RowFollows(s, b)
    requires step.FraudBlock? || step.InsertPayment? || step.Authorize? || step.RecordTimeout? || step.RecordAnswer?
    ensures RowFollows(Next(s, step), b)
  {
    match step
    case FraudBlock(_) => FraudFollows(s, b);
    case InsertPayment(_) => InsertFollows(s, b);
    case Authorize(_, trigger) => AuthorizeFollows(s, b, trigger);
    case RecordTimeout(_) => TimeoutFollows(s, b);
    case RecordAnswer(_) => AnswerFollows(s, b);
  }

  lemma OwnStepFollows(s: System, step: Step, b: nat)
    requires Owner(step) == Some(b) && Local(s, b) && RowFollows(s, b)
    ensures RowFollows(Next(s, step), b)
  {
    match step
    case IssueTickets(_, rejected) => IssueFollows(s, b, rejected);
    case Reverse(_, ok) => ReverseFollows(s, b, ok);
    case FinishCompensation(_) => FinishFollows(s, b);
    case Capture(_) => CaptureFollows(s, b);
    case Confirm(_) => ConfirmFollows(s, b);
    case CancelRefund(_, ok) => RefundFollows(s, b, ok);
    case CancelCommit(_) => CancelFollows(s, b);
    case _ => ChargeStepFollows(s, step, b);
  }

  // ----- every step, every run -----

  lemma OtherRowsFollow(s: System, t: System, b: nat)
    requires RowsFollow(s) && (t == s || FrameOf(s, t, b)) && b < |s.sagas| && RowFollows(t, b)
    requires forall c: nat :: c != b && c in t.db.payments ==> c in s.db.payments
    ensures RowsFollow(t)
  {
    forall c: nat | c < |t.db.bookings| ensures RowFollows(t, c) {
      assert c != b ==> RowFollows(s, c);
    }
  }

  lemma FreeRowsFollow(s: System, t: System)
    requires RowsFollow(s) && (Idles(s, t) || Shuffles(s, t) || Opens(s, t)) && |s.db.bookings| !in s.cancels
    ensures RowsFollow(t)
  {
    forall c: nat | c < |t.db.bookings| ensures RowFollows(t, c) {
      assert c < |s.db.bookings| ==> RowFollows(s, c);
    }
  }

  lemma StepKeepsRows(s: System, step: Step)
    requires Safe(s) && RowsFollow(s)
    ensures RowsFollow(Next(s, step))
  {
    var t := Next(s, step);
    StepEffect(s, step);
    match Owner(step)
    case None => FreeRowsFollow(s, t);
    case Some(b) =>
      if b < |s.sagas| {
        SafeIsLocal(s, b);
        OwnStepFollows(s, step, b);
        EffectIsFramed(s, t, step, b);
        OtherRowsFollow(s, t, b);
      } else {
        NoSuchBooking(s, step);
      }
  }

  lemma {:induction false} RunKeepsRows(s: System, steps: seq<Step>)
    requires Safe(s) && RowsFollow(s)
    ensures RowsFollow(Exec(s, steps))
  {
    if steps != [] {
      var front, last := steps[..|steps| - 1], steps[|steps| - 1];
      RunKeepsRows(s, front);
      RunIsSafe(s, front);
      StepKeepsRows(Exec(s, front), last);
    }
  }

  /** In every reachable state, keys reused and early refunds included, every payment row says what its saga has done;
    * so a compensation always voids, and its branch that refunds a captured payment is taken by no run. */
  lemma PaymentRowFollowsSaga(s: System, b: nat)
    requires Reachable(s) && b < |s.db.bookings|
    ensures |s.sagas| == |s.db.bookings| && Fits(s.sagas[b].pc, s.db.bookings[b].state, RowOf(s, b))
    ensures s.sagas[b].pc == Compensates ==> !MustRefund(s, b)
  {
    var cfg: Config, now: int, seats: seq<Seat>, steps: seq<Step> :| Seeded(seats) && s == Exec(Start(cfg, now, seats), steps);
    StartIsSafe(cfg, now, seats);
    RunKeepsRows(Start(cfg, now, seats), steps);
    assert RowFollows(s, b);
  }
}
