/** Money: where every authorization stands, for runs that reuse a key only when nothing under it can still move, and
  * refund no booking that is still TICKETED. */
module Settlement {
  import opened Domain
  import opened Inventory
  import opened Store
  import opened Gateway
  import opened Machine
  import opened Safety
  import opened Steps
  import opened Runs

  // ----- one booking's account -----

  function KeyOf(s: System, b: nat): string
    requires b < |s.db.bookings|
  {
    AuthKey(s.db.bookings[b].key)
  }

  lemma AuthKeyInjective(k: string, l: string)
    requires AuthKey(k) == AuthKey(l)
    ensures k == l
  {
    assert |k| == |l|;
    assert k == AuthKey(k)[..|k|] && l == AuthKey(l)[..|l|];
  }

  /** All there is to know about the money of one booking. */
  datatype Account = Account(
    pc: Pc,
    state: BookingState,
    payment: Option<Payment>,
    charge: Option<Authorization>,  // what the gateway holds under the booking's key
    captured: bool, voided: bool, refunded: bool,
    cancel: Option<CancelRun>)

  function AccountOf(s: System, b: nat): Account
    requires b < |s.db.bookings| == |s.sagas|
  {
    var charge := if KeyOf(s, b) in s.gw.authorizations then Some(s.gw.authorizations[KeyOf(s, b)]) else None;
    Account(
      s.sagas[b].pc, s.db.bookings[b].state,
      if b in s.db.payments then Some(s.db.payments[b]) else None,
      charge,
      charge.Some? && charge.value.ref in s.gw.captured,
      charge.Some? && charge.value.ref in s.gw.voided,
      charge.Some? && charge.value.ref in s.gw.refunded,
      if b in s.cancels then Some(s.cancels[b]) else None)
  }

  predicate PaymentIs(a: Account, state: PaymentState, ref: Option<nat>) {
    a.payment.Some? && a.payment.value.state == state && a.payment.value.ref == ref
  }

  /** The gateway approved the charge, and the payment row carries its reference. */
  predicate Charged(a: Account, state: PaymentState) {
    a.charge.Some? && a.charge.value.approved && PaymentIs(a, state, Some(a.charge.value.ref))
  }

  predicate Done(a: Account, captured: bool, voided: bool, refunded: bool) {
    a.captured == captured && a.voided == voided && a.refunded == refunded
  }

  predicate Untouched(a: Account) {
    Done(a, false, false, false)
  }

  /** The fixed table: control point, booking state, payment state and gateway side by side. A saga that gave up
    * says nothing about a charge that a later booking may have taken over. */
  predicate InBalance(a: Account) {
    && (match a.pc
        case Opened => a.payment.None? && Untouched(a)
        case Charging => PaymentIs(a, PayPending, None) && Untouched(a)
        case SawTimeout => PaymentIs(a, PayPending, None) && Untouched(a)
        case Retrying => PaymentIs(a, PayUnknown, None) && Untouched(a)
        case Answered(result) =>
          a.charge == Some(result) && Untouched(a) && (PaymentIs(a, PayPending, None) || PaymentIs(a, PayUnknown, None))
        case Authorized => Charged(a, PayAuthorized) && Untouched(a)
        case Issuing => Charged(a, PayAuthorized) && Untouched(a)
        case CaptureSent => Charged(a, PayAuthorized) && Done(a, true, false, false)
        case Succeeded =>
          if a.state == Cancelled then Charged(a, PayRefunded) && Done(a, true, false, true)
          else Charged(a, PayCaptured) && a.captured && !a.voided && (a.refunded && a.state == Confirmed ==> a.cancel.Some?)
        case Compensates => Charged(a, PayAuthorized) && Untouched(a)
        case Reversed(refunded) => !refunded && Charged(a, PayAuthorized) && Done(a, false, true, false)
        case Undone => Charged(a, PayVoided) && Done(a, false, true, false)
        case ReversalFailed => Charged(a, PayAuthorized)
        case Stuck => Charged(a, PayAuthorized)
        case Failed => a.payment.None? || (Refused(a) && PaymentIs(a, PayDeclined, Some(a.charge.value.ref)) && Untouched(a))
        case Crashed => false)
    && (a.cancel.Some? ==> CancelInBalance(a, a.cancel.value))
  }

  predicate Refused(a: Account) {
    a.charge.Some? && !a.charge.value.approved
  }

  /** A cancel in flight began in CONFIRMED, or was refused its refund in TICKETED. */
  predicate CancelInBalance(a: Account, run: CancelRun) {
    if run.state == Confirmed then a.pc.Succeeded? && !run.refund.NothingToRefund? && (run.refund.RefundDone? ==> a.refunded)
    else run.refund.RefundRejected? && (a.pc.Issuing? || a.pc.CaptureSent? || a.pc.Succeeded?)
  }

  // ----- the whole ledger -----

  ghost predicate LedgerOk(gw: Ledger) {
    && RefsAreMintedOnce(gw)
    && (forall r :: r in gw.captured || r in gw.voided || r in gw.refunded ==> r < gw.nextRef)
    && gw.captured !! gw.voided
  }

  /** The saga will never act on its charge. */
  predicate Inert(pc: Pc) {
    pc.Failed? || pc.Stuck? || pc.ReversalFailed?
  }

  /** The saga has had the gateway's answer, and was not refused. */
  predicate HasAnswer(pc: Pc) {
    pc.Answered? || pc.Authorized? || pc.Issuing? || pc.CaptureSent? || pc.Succeeded? || pc.Compensates?
    || pc.ReversalFailed? || pc.Stuck? || pc.Reversed? || pc.Undone?
  }

  /** The saga has captured, voided or refunded its charge. */
  predicate HasActed(pc: Pc) {
    pc.CaptureSent? || pc.Succeeded? || pc.Reversed? || pc.Undone?
  }

  predicate Declined(gw: Ledger, key: string) {
    key in gw.authorizations && !gw.authorizations[key].approved
  }

  predicate Approved(gw: Ledger, key: string) {
    key in gw.authorizations && gw.authorizations[key].approved
  }

  predicate Touched(gw: Ledger, key: string) {
    key in gw.authorizations && var ref := gw.authorizations[key].ref; ref in gw.captured || ref in gw.voided || ref in gw.refunded
  }

  ghost predicate ChargeHeld(s: System, key: string)
    requires |s.sagas| == |s.db.bookings|
  {
    exists b: nat :: b < |s.db.bookings| && KeyOf(s, b) == key && HasAnswer(s.sagas[b].pc)
  }

  ghost predicate ChargeActedOn(s: System, key: string)
    requires |s.sagas| == |s.db.bookings|
  {
    exists b: nat :: b < |s.db.bookings| && KeyOf(s, b) == key && HasActed(s.sagas[b].pc)
  }

  /** Of two bookings under one key, one will never act on the charge, or neither can. */
  ghost predicate OneActive(s: System, b: nat, c: nat)
    requires b < |s.db.bookings| == |s.sagas| && c < |s.db.bookings|
  {
    b != c && KeyOf(s, b) == KeyOf(s, c) ==>
      Inert(s.sagas[b].pc) || Inert(s.sagas[c].pc) || Declined(s.gw, KeyOf(s, b))
  }

  ghost predicate Settled(s: System)
    requires |s.sagas| == |s.db.bookings|
  {
    && LedgerOk(s.gw)
    && (forall key :: Approved(s.gw, key) ==> ChargeHeld(s, key))
    && (forall key :: Touched(s.gw, key) ==> ChargeActedOn(s, key))
    && (forall b: nat, c: nat :: b < |s.db.bookings| && c < |s.db.bookings| ==> OneActive(s, b, c))
    && (forall b: nat :: b < |s.db.bookings| ==> InBalance(AccountOf(s, b)))
  }

  // ----- a step of one booking leaves the other accounts alone -----

  /** The gateway's records for every key but one are untouched. */
  ghost predicate OnlyKey(before: Ledger, after: Ledger, key: string) {
    && (forall k :: k in before.authorizations && k != key ==> k in after.authorizations && after.authorizations[k] == before.authorizations[k])
    && (forall k :: k in after.authorizations && k != key ==> k in before.authorizations)
    && (forall k :: k in before.authorizations && k != key ==>
         var ref := before.authorizations[k].ref;
         && (ref in after.captured <==> ref in before.captured)
         && (ref in after.voided <==> ref in before.voided)
         && (ref in after.refunded <==> ref in before.refunded))
  }

  ghost predicate OwnMove(s: System, t: System, b: nat) {
    && FrameOf(s, t, b) && OnlyKey(s.gw, t.gw, KeyOf(s, b))
    && (forall c :: c in t.db.payments && c != b ==> c in s.db.payments)
    && (forall c :: c in s.cancels && c != b ==> c in t.cancels)
  }

  /** Booking b's saga moves on: it never gets back into play, never forgets an approved charge, and what is
    * newly charged, captured, voided or refunded under its key is its own doing. */
  ghost predicate Advances(s: System, t: System, b: nat)
    requires b < |s.db.bookings| == |s.sagas| == |t.sagas|
  {
    var key := KeyOf(s, b);
    var before, after := s.sagas[b].pc, t.sagas[b].pc;
    && (key in s.gw.authorizations ==> key in t.gw.authorizations && t.gw.authorizations[key] == s.gw.authorizations[key])
    && (Inert(before) ==> Inert(after) && t.gw == s.gw)
    && (Declined(s.gw, key) ==> t.gw == s.gw)
    && (Approved(s.gw, key) && HasAnswer(before) ==> HasAnswer(after))
    && (HasActed(before) ==> HasActed(after))
    && (Approved(t.gw, key) && !Approved(s.gw, key) ==> HasAnswer(after))
    && (Touched(t.gw, key) && !Touched(s.gw, key) ==> HasActed(after))
  }

  lemma KeysKept(s: System, t: System, b: nat, c: nat)
    requires FrameOf(s, t, b) && c < |s.db.bookings|
    ensures KeyOf(t, c) == KeyOf(s, c) && (c != b ==> t.sagas[c] == s.sagas[c] && t.db.bookings[c] == s.db.bookings[c])
  {}

  lemma OtherKeyKept(s: System, t: System, b: nat, c: nat)
    requires OwnMove(s, t, b) && c != b && c < |s.db.bookings| && (KeyOf(s, c) != KeyOf(s, b) || t.gw == s.gw)
    ensures AccountOf(t, c) == AccountOf(s, c)
  {
    KeysKept(s, t, b, c);
  }

  /** A booking that gave up stays in balance whatever another booking does with an approved or a new charge. */
  lemma InertStays(before: Account, after: Account)
    requires InBalance(before) && Inert(before.pc) && !Refused(before)
    requires after == before.(charge := after.charge, captured := after.captured, voided := after.voided, refunded := after.refunded)
    requires before.charge.Some? ==> after.charge == before.charge
    ensures InBalance(after)
  {}

  lemma SameKeyStays(s: System, t: System, b: nat, c: nat)
    requires OwnMove(s, t, b) && Settled(s) && Advances(s, t, b) && c != b && c < |s.db.bookings|
    requires KeyOf(s, c) == KeyOf(s, b) && t.gw != s.gw
    ensures InBalance(AccountOf(t, c))
  {
    KeysKept(s, t, b, c);
    assert OneActive(s, b, c);
    assert InBalance(AccountOf(s, c));
    InertStays(AccountOf(s, c), AccountOf(t, c));
  }

  lemma ChargesStayHeld(s: System, t: System, b: nat, key: string)
    requires OwnMove(s, t, b) && Settled(s) && Advances(s, t, b)
    ensures Approved(t.gw, key) ==> ChargeHeld(t, key)
    ensures Touched(t.gw, key) ==> ChargeActedOn(t, key)
  {
    KeysKept(s, t, b, b);
    if Approved(s.gw, key) {
      var x: nat :| x < |s.db.bookings| && KeyOf(s, x) == key && HasAnswer(s.sagas[x].pc);
      KeysKept(s, t, b, x);
    }
    if Touched(s.gw, key) {
      var x: nat :| x < |s.db.bookings| && KeyOf(s, x) == key && HasActed(s.sagas[x].pc);
      KeysKept(s, t, b, x);
    }
  }

  lemma StillOneActive(s: System, t: System, b: nat, c: nat, d: nat)
    requires OwnMove(s, t, b) && Settled(s) && Advances(s, t, b) && c < |s.db.bookings| && d < |s.db.bookings|
    ensures OneActive(t, c, d)
  {
    KeysKept(s, t, b, c);
    KeysKept(s, t, b, d);
    assert OneActive(s, c, d);
  }

  /** What is left to check for a step of booking b: its own account, and the ledger. */
  lemma OwnMoveSettles(s: System, t: System, b: nat)
    requires OwnMove(s, t, b) && Settled(s) && Advances(s, t, b)
    requires LedgerOk(t.gw) && InBalance(AccountOf(t, b))
    ensures Settled(t)
  {
    forall c: nat | c < |t.db.bookings| ensures InBalance(AccountOf(t, c)) {
      if c != b {
        assert InBalance(AccountOf(s, c));
        if KeyOf(s, c) == KeyOf(s, b) && t.gw != s.gw {
          SameKeyStays(s, t, b, c);
        } else {
          OtherKeyKept(s, t, b, c);
        }
      }
    }
    forall key ensures (Approved(t.gw, key) ==> ChargeHeld(t, key)) && (Touched(t.gw, key) ==> ChargeActedOn(t, key)) {
      ChargesStayHeld(s, t, b, key);
    }
    forall c: nat, d: nat | c < |t.db.bookings| && d < |t.db.bookings| ensures OneActive(t, c, d) {
      StillOneActive(s, t, b, c, d);
    }
  }

  /** A step that leaves the gateway and the cancels alone disturbs no other account. */
  lemma QuietMoveSettles(s: System, t: System, b: nat)
    requires FrameOf(s, t, b) && Settled(s) && t.gw == s.gw && t.cancels == s.cancels && InBalance(AccountOf(t, b))
    requires PcAdvances(s, t.sagas[b].pc, b)
    ensures Settled(t)
  {
    OwnMoveSettles(s, t, b);
  }

  predicate PcAdvances(s: System, after: Pc, b: nat)
    requires b < |s.db.bookings| == |s.sagas|
  {
    var before := s.sagas[b].pc;
    && (Inert(before) ==> Inert(after))
    && (Approved(s.gw, KeyOf(s, b)) && HasAnswer(before) ==> HasAnswer(after))
    && (HasActed(before) ==> HasActed(after))
  }

  lemma FraudBlockBalances(s: System, b: nat)
    requires Local(s, b) && InBalance(AccountOf(s, b)) && SagaAt(s, b, Opened)
    requires FrameOf(s, DoFraudBlock(s, b), b)
    ensures var t := DoFraudBlock(s, b);
      InBalance(AccountOf(t, b)) && t.gw == s.gw && t.cancels == s.cancels && PcAdvances(s, t.sagas[b].pc, b)
  {}

  lemma InsertPaymentBalances(s: System, b: nat)
    requires Local(s, b) && InBalance(AccountOf(s, b)) && SagaAt(s, b, Opened)
    requires FrameOf(s, DoInsertPayment(s, b), b)
    ensures var t := DoInsertPayment(s, b);
      InBalance(AccountOf(t, b)) && t.gw == s.gw && t.cancels == s.cancels && PcAdvances(s, t.sagas[b].pc, b)
  {}

  /** A new authorization has a reference nobody has captured, voided or refunded. */
  lemma AuthorizeOnlyKey(gw: Ledger, key: string, trigger: Trigger)
    requires LedgerOk(gw)
    ensures
      var (after, reply) := AuthorizeOn(gw, key, trigger);
      && LedgerOk(after) && OnlyKey(gw, after, key)
      && after.captured == gw.captured && after.voided == gw.voided && after.refunded == gw.refunded
      && (reply.TimedOut? ==> after.authorizations == gw.authorizations && key !in gw.timedOutOnce && key !in gw.authorizations)
      && (reply.Answer? ==> key in after.authorizations && after.authorizations[key] == reply.result)
      && (key in gw.authorizations ==> after == gw)
      && (reply.Answer? && key !in gw.authorizations ==>
           reply.result.ref !in gw.captured && reply.result.ref !in gw.voided && reply.result.ref !in gw.refunded)
  {}

  lemma AuthorizeSettles(s: System, b: nat, trigger: Trigger)
    requires Local(s, b) && Settled(s) && (SagaAt(s, b, Charging) || SagaAt(s, b, Retrying))
    requires FrameOf(s, DoAuthorize(s, b, trigger), b)
    ensures Settled(DoAuthorize(s, b, trigger))
  {
    assert InBalance(AccountOf(s, b));
    AuthorizeOnlyKey(s.gw, KeyOf(s, b), trigger);
    AuthorizeBalances(s, b, trigger);
    AuthorizeIsOwnMove(s, b, trigger);
    AuthorizeAdvances(s, b, trigger);
    OwnMoveSettles(s, DoAuthorize(s, b, trigger), b);
  }

  lemma AuthorizeBalances(s: System, b: nat, trigger: Trigger)
    requires Local(s, b) && LedgerOk(s.gw) && InBalance(AccountOf(s, b)) && (SagaAt(s, b, Charging) || SagaAt(s, b, Retrying))
    requires FrameOf(s, DoAuthorize(s, b, trigger), b)
    ensures var t := DoAuthorize(s, b, trigger);
      InBalance(AccountOf(t, b)) && t.gw == AuthorizeOn(s.gw, KeyOf(s, b), trigger).0
  {
    AuthorizeOnlyKey(s.gw, KeyOf(s, b), trigger);
    var t := DoAuthorize(s, b, trigger);
    assert t == Goto(s, b, t.sagas[b].pc).(gw := t.gw);
  }

  lemma AuthorizeIsOwnMove(s: System, b: nat, trigger: Trigger)
    requires LedgerOk(s.gw) && (SagaAt(s, b, Charging) || SagaAt(s, b, Retrying)) && FrameOf(s, DoAuthorize(s, b, trigger), b)
    ensures OwnMove(s, DoAuthorize(s, b, trigger), b)
  {
    AuthorizeOnlyKey(s.gw, KeyOf(s, b), trigger);
    var t := DoAuthorize(s, b, trigger);
    assert t == Goto(s, b, t.sagas[b].pc).(gw := t.gw);
  }

  lemma AuthorizeAdvances(s: System, b: nat, trigger: Trigger)
    requires LedgerOk(s.gw) && (SagaAt(s, b, Charging) || SagaAt(s, b, Retrying)) && FrameOf(s, DoAuthorize(s, b, trigger), b)
    ensures Advances(s, DoAuthorize(s, b, trigger), b)
  {
    AuthorizeOnlyKey(s.gw, KeyOf(s, b), trigger);
    var t := DoAuthorize(s, b, trigger);
    assert t == Goto(s, b, t.sagas[b].pc).(gw := t.gw);
  }

  lemma RecordTimeoutBalances(s: System, b: nat)
    requires Local(s, b) && InBalance(AccountOf(s, b)) && SagaAt(s, b, SawTimeout)
    requires FrameOf(s, DoRecordTimeout(s, b), b)
    ensures var t := DoRecordTimeout(s, b);
      InBalance(AccountOf(t, b)) && t.gw == s.gw && t.cancels == s.cancels && PcAdvances(s, t.sagas[b].pc, b)
  {}

  lemma RecordAnswerBalances(s: System, b: nat)
    requires Local(s, b) && InBalance(AccountOf(s, b)) && s.sagas[b].pc.Answered?
    requires FrameOf(s, DoRecordAnswer(s, b), b)
    ensures var t := DoRecordAnswer(s, b);
      InBalance(AccountOf(t, b)) && t.gw == s.gw && t.cancels == s.cancels && PcAdvances(s, t.sagas[b].pc, b)
  {
    if s.sagas[b].pc.result.approved { ApprovalBalances(s, b); } else { DeclineBalances(s, b); }
  }

  lemma ApprovalBalances(s: System, b: nat)
    requires Local(s, b) && InBalance(AccountOf(s, b)) && s.sagas[b].pc.Answered? && s.sagas[b].pc.result.approved
    requires FrameOf(s, DoRecordAnswer(s, b), b)
    ensures var t := DoRecordAnswer(s, b);
      InBalance(AccountOf(t, b)) && t.gw == s.gw && t.cancels == s.cancels && PcAdvances(s, t.sagas[b].pc, b)
  {}

  lemma DeclineBalances(s: System, b: nat)
    requires Local(s, b) && InBalance(AccountOf(s, b)) && s.sagas[b].pc.Answered? && !s.sagas[b].pc.result.approved
    requires FrameOf(s, DoRecordAnswer(s, b), b)
    ensures var t := DoRecordAnswer(s, b);
      InBalance(AccountOf(t, b)) && t.gw == s.gw && t.cancels == s.cancels && PcAdvances(s, t.sagas[b].pc, b)
  {}

  lemma ReverseBalances(s: System, b: nat, ok: bool)
    requires Local(s, b) && InBalance(AccountOf(s, b)) && SagaAt(s, b, Compensates)
    requires FrameOf(s, DoReverse(s, b, ok), b)
    ensures InBalance(AccountOf(DoReverse(s, b, ok), b))
  {}

  lemma ReverseIsOwnMove(s: System, b: nat, ok: bool)
    requires Local(s, b) && InBalance(AccountOf(s, b)) && SagaAt(s, b, Compensates) && LedgerOk(s.gw)
    requires FrameOf(s, DoReverse(s, b, ok), b)
    ensures var t := DoReverse(s, b, ok); LedgerOk(t.gw) && OwnMove(s, t, b) && Advances(s, t, b)
  {}

  lemma FinishCompensationBalances(s: System, b: nat)
    requires Local(s, b) && InBalance(AccountOf(s, b)) && (s.sagas[b].pc.Reversed? || s.sagas[b].pc.ReversalFailed?)
    requires FrameOf(s, DoFinishCompensation(s, b), b)
    ensures InBalance(AccountOf(DoFinishCompensation(s, b), b)) && PcAdvances(s, DoFinishCompensation(s, b).sagas[b].pc, b)
  {
    if s.sagas[b].pc.Reversed? { ReversedBalances(s, b); } else { FlaggedBalances(s, b); }
  }

  lemma ReversedBalances(s: System, b: nat)
    requires Local(s, b) && InBalance(AccountOf(s, b)) && s.sagas[b].pc.Reversed?
    requires FrameOf(s, DoFinishCompensation(s, b), b)
    ensures InBalance(AccountOf(DoFinishCompensation(s, b), b)) && DoFinishCompensation(s, b).sagas[b].pc.Undone?
  {}

  lemma FlaggedBalances(s: System, b: nat)
    requires Local(s, b) && InBalance(AccountOf(s, b)) && s.sagas[b].pc.ReversalFailed?
    requires FrameOf(s, DoFinishCompensation(s, b), b)
    ensures InBalance(AccountOf(DoFinishCompensation(s, b), b)) && DoFinishCompensation(s, b).sagas[b].pc.Stuck?
  {}

  lemma FinishCompensationIsQuiet(s: System, b: nat)
    ensures DoFinishCompensation(s, b).gw == s.gw && DoFinishCompensation(s, b).cancels == s.cancels
  {}

  lemma CaptureBalances(s: System, b: nat)
    requires Local(s, b) && InBalance(AccountOf(s, b)) && SagaAt(s, b, Issuing)
    requires FrameOf(s, DoCapture(s, b), b)
    ensures InBalance(AccountOf(DoCapture(s, b), b))
  {}

  lemma CaptureIsOwnMove(s: System, b: nat)
    requires Local(s, b) && InBalance(AccountOf(s, b)) && SagaAt(s, b, Issuing) && LedgerOk(s.gw)
    requires FrameOf(s, DoCapture(s, b), b)
    ensures var t := DoCapture(s, b); LedgerOk(t.gw) && OwnMove(s, t, b) && Advances(s, t, b)
  {}

  lemma ConfirmBalances(s: System, b: nat)
    requires Local(s, b) && InBalance(AccountOf(s, b)) && SagaAt(s, b, CaptureSent)
    requires FrameOf(s, DoConfirm(s, b), b)
    ensures var t := DoConfirm(s, b);
      InBalance(AccountOf(t, b)) && t.gw == s.gw && t.cancels == s.cancels && PcAdvances(s, t.sagas[b].pc, b)
  {}

  lemma IssueWritesNoPayment(db: Tables, b: nat, user: nat, rejected: bool, now: int)
    requires b < |db.bookings| && InTable(db.seats, db.bookings[b].seats)
    ensures match Store.IssueTickets(db, b, user, PaymentAuthorized, rejected, now)
      case Issued(t) => t.payments == db.payments && |t.bookings| == |db.bookings| && t.bookings[b].state == Ticketed
      case Refused(t) => t.payments == db.payments && |t.bookings| == |db.bookings|
      case Illegal => false
  {}

  lemma BeginningWritesNoPayment(db: Tables, b: nat)
    requires b < |db.bookings|
    ensures var begun := BeginCompensation(db, b, PaymentAuthorized);
      begun.Some? && begun.value.payments == db.payments && |begun.value.bookings| == |db.bookings|
  {}

  lemma IssueTicketsMovesNoMoney(s: System, b: nat, rejected: bool)
    requires Local(s, b) && SagaAt(s, b, Authorized)
    ensures
      var t := DoIssueTickets(s, b, rejected);
      && t.gw == s.gw && t.db.payments == s.db.payments && t.cancels == s.cancels
      && (t == s || (SagaAt(t, b, Issuing) && t.db.bookings[b].state == Ticketed) || SagaAt(t, b, Compensates))
  {
    if InTable(s.db.seats, s.db.bookings[b].seats) {
      IssueWritesNoPayment(s.db, b, s.db.bookings[b].user, rejected, s.now);
      match Store.IssueTickets(s.db, b, s.db.bookings[b].user, PaymentAuthorized, rejected, s.now)
      case Refused(db) => BeginningWritesNoPayment(db, b);
      case _ => {}
    }
  }

  lemma IssueTicketsSettles(s: System, b: nat, rejected: bool)
    requires Local(s, b) && Settled(s) && SagaAt(s, b, Authorized)
    requires FrameOf(s, DoIssueTickets(s, b, rejected), b)
    ensures Settled(DoIssueTickets(s, b, rejected))
  {
    assert InBalance(AccountOf(s, b));
    IssueTicketsMovesNoMoney(s, b, rejected);
    NoMoneyMovedSettles(s, DoIssueTickets(s, b, rejected), b);
  }

  lemma NoMoneyMovedSettles(s: System, t: System, b: nat)
    requires Local(s, b) && Settled(s) && SagaAt(s, b, Authorized) && FrameOf(s, t, b)
    requires t.gw == s.gw && t.db.payments == s.db.payments && t.cancels == s.cancels
    requires t == s || (SagaAt(t, b, Issuing) && t.db.bookings[b].state == Ticketed) || SagaAt(t, b, Compensates)
    ensures Settled(t)
  {
    assert InBalance(AccountOf(s, b));
    QuietMoveSettles(s, t, b);
  }

  lemma CancelRefundBalances(s: System, b: nat, ok: bool)
    requires Local(s, b) && InBalance(AccountOf(s, b)) && MayCancel(s, b) && (s.db.bookings[b].state == Confirmed || !ok)
    requires FrameOf(s, DoCancelRefund(s, b, ok), b)
    ensures InBalance(AccountOf(DoCancelRefund(s, b, ok), b))
  {}

  /** Refunding a charge changes no other key's record. */
  lemma RefundOnlyKey(gw: Ledger, key: string)
    requires LedgerOk(gw) && key in gw.authorizations
    ensures var after := RefundOn(gw, gw.authorizations[key].ref); LedgerOk(after) && OnlyKey(gw, after, key)
  {}

  /** A cancel's gateway call refunds the booking's own charge, or leaves the gateway as it was. */
  lemma CancelRefundRefunds(s: System, b: nat, ok: bool)
    requires Local(s, b) && InBalance(AccountOf(s, b)) && MayCancel(s, b) && (s.db.bookings[b].state == Confirmed || !ok)
    ensures var t := DoCancelRefund(s, b, ok);
      && t.db == s.db && t.sagas == s.sagas && t.cancels.Keys == s.cancels.Keys + {b}
      && (forall c :: c in s.cancels && c != b ==> t.cancels[c] == s.cancels[c])
      && (t.gw == s.gw || (s.sagas[b].pc.Succeeded? && Approved(s.gw, KeyOf(s, b)) && t.gw == RefundOn(s.gw, s.gw.authorizations[KeyOf(s, b)].ref)))
  {}

  lemma CancelRefundIsOwnMove(s: System, b: nat, ok: bool)
    requires Local(s, b) && InBalance(AccountOf(s, b)) && MayCancel(s, b) && (s.db.bookings[b].state == Confirmed || !ok) && LedgerOk(s.gw)
    requires FrameOf(s, DoCancelRefund(s, b, ok), b)
    ensures var t := DoCancelRefund(s, b, ok); LedgerOk(t.gw) && OwnMove(s, t, b) && Advances(s, t, b)
  {
    CancelRefundRefunds(s, b, ok);
    RefundMoves(s, DoCancelRefund(s, b, ok), b);
  }

  lemma RefundMoves(s: System, t: System, b: nat)
    requires b < |s.sagas| == |s.db.bookings| && FrameOf(s, t, b) && LedgerOk(s.gw)
    requires t.db == s.db && t.sagas == s.sagas && t.cancels.Keys == s.cancels.Keys + {b}
    requires t.gw == s.gw || (s.sagas[b].pc.Succeeded? && Approved(s.gw, KeyOf(s, b)) && t.gw == RefundOn(s.gw, s.gw.authorizations[KeyOf(s, b)].ref))
    ensures LedgerOk(t.gw) && OwnMove(s, t, b) && Advances(s, t, b)
  {
    if t.gw != s.gw {
      RefundOnlyKey(s.gw, KeyOf(s, b));
    }
  }

  lemma CancelCommitBalances(s: System, b: nat)
    requires Local(s, b) && InBalance(AccountOf(s, b)) && b in s.cancels
    requires FrameOf(s, DoCancelCommit(s, b), b)
    ensures InBalance(AccountOf(DoCancelCommit(s, b), b))
  {}

  lemma CancelCommitIsOwnMove(s: System, b: nat)
    requires b in s.cancels && FrameOf(s, DoCancelCommit(s, b), b)
    ensures OwnMove(s, DoCancelCommit(s, b), b) && DoCancelCommit(s, b).gw == s.gw && DoCancelCommit(s, b).sagas == s.sagas
  {}

  lemma FraudBlockSettles(s: System, b: nat)
    requires Local(s, b) && Settled(s) && SagaAt(s, b, Opened) && FrameOf(s, DoFraudBlock(s, b), b)
    ensures Settled(DoFraudBlock(s, b))
  {
    assert InBalance(AccountOf(s, b));
    FraudBlockBalances(s, b);
    QuietMoveSettles(s, DoFraudBlock(s, b), b);
  }

  lemma InsertPaymentSettles(s: System, b: nat)
    requires Local(s, b) && Settled(s) && SagaAt(s, b, Opened) && FrameOf(s, DoInsertPayment(s, b), b)
    ensures Settled(DoInsertPayment(s, b))
  {
    assert InBalance(AccountOf(s, b));
    InsertPaymentBalances(s, b);
    QuietMoveSettles(s, DoInsertPayment(s, b), b);
  }

  lemma RecordTimeoutSettles(s: System, b: nat)
    requires Local(s, b) && Settled(s) && SagaAt(s, b, SawTimeout) && FrameOf(s, DoRecordTimeout(s, b), b)
    ensures Settled(DoRecordTimeout(s, b))
  {
    assert InBalance(AccountOf(s, b));
    RecordTimeoutBalances(s, b);
    QuietMoveSettles(s, DoRecordTimeout(s, b), b);
  }

  lemma RecordAnswerSettles(s: System, b: nat)
    requires Local(s, b) && Settled(s) && s.sagas[b].pc.Answered? && FrameOf(s, DoRecordAnswer(s, b), b)
    ensures Settled(DoRecordAnswer(s, b))
  {
    assert InBalance(AccountOf(s, b));
    RecordAnswerBalances(s, b);
    QuietMoveSettles(s, DoRecordAnswer(s, b), b);
  }

  lemma ConfirmSettles(s: System, b: nat)
    requires Local(s, b) && Settled(s) && SagaAt(s, b, CaptureSent) && FrameOf(s, DoConfirm(s, b), b)
    ensures Settled(DoConfirm(s, b))
  {
    assert InBalance(AccountOf(s, b));
    ConfirmBalances(s, b);
    QuietMoveSettles(s, DoConfirm(s, b), b);
  }

  lemma FinishCompensationSettles(s: System, b: nat)
    requires Local(s, b) && Settled(s) && (s.sagas[b].pc.Reversed? || s.sagas[b].pc.ReversalFailed?)
    requires FrameOf(s, DoFinishCompensation(s, b), b)
    ensures Settled(DoFinishCompensation(s, b))
  {
    assert InBalance(AccountOf(s, b));
    FinishCompensationIsQuiet(s, b);
    FinishCompensationBalances(s, b);
    QuietMoveSettles(s, DoFinishCompensation(s, b), b);
  }

  lemma ReverseSettles(s: System, b: nat, ok: bool)
    requires Local(s, b) && Settled(s) && SagaAt(s, b, Compensates) && FrameOf(s, DoReverse(s, b, ok), b)
    ensures Settled(DoReverse(s, b, ok))
  {
    assert InBalance(AccountOf(s, b));
    ReverseBalances(s, b, ok);
    ReverseIsOwnMove(s, b, ok);
    OwnMoveSettles(s, DoReverse(s, b, ok), b);
  }

  lemma CaptureSettles(s: System, b: nat)
    requires Local(s, b) && Settled(s) && SagaAt(s, b, Issuing) && FrameOf(s, DoCapture(s, b), b)
    ensures Settled(DoCapture(s, b))
  {
    assert InBalance(AccountOf(s, b));
    CaptureBalances(s, b);
    CaptureIsOwnMove(s, b);
    OwnMoveSettles(s, DoCapture(s, b), b);
  }

  lemma CancelRefundSettles(s: System, b: nat, ok: bool)
    requires Local(s, b) && Settled(s) && MayCancel(s, b) && (s.db.bookings[b].state == Confirmed || !ok)
    requires FrameOf(s, DoCancelRefund(s, b, ok), b)
    ensures Settled(DoCancelRefund(s, b, ok))
  {
    assert InBalance(AccountOf(s, b));
    CancelRefundBalances(s, b, ok);
    CancelRefundIsOwnMove(s, b, ok);
    OwnMoveSettles(s, DoCancelRefund(s, b, ok), b);
  }

  lemma CancelCommitSettles(s: System, b: nat)
    requires Local(s, b) && Settled(s) && b in s.cancels && FrameOf(s, DoCancelCommit(s, b), b)
    ensures Settled(DoCancelCommit(s, b))
  {
    assert InBalance(AccountOf(s, b));
    CancelCommitBalances(s, b);
    CancelCommitIsOwnMove(s, b);
    OwnMoveSettles(s, DoCancelCommit(s, b), b);
  }

  // ----- opening a booking, and everything that is not a saga's -----

  /** A key is harmless to use again if its charge was declined, or every booking under it has given up. */
  ghost predicate Harmless(s: System, key: string)
    requires |s.sagas| == |s.db.bookings|
  {
    Declined(s.gw, AuthKey(key)) || forall b :: 0 <= b < |s.db.bookings| && s.db.bookings[b].key == key ==> Inert(s.sagas[b].pc)
  }

  lemma HarmlessIsUntouched(s: System, key: string)
    requires |s.sagas| == |s.db.bookings| && Settled(s) && Harmless(s, key)
    ensures !Touched(s.gw, AuthKey(key))
  {
    if Touched(s.gw, AuthKey(key)) {
      var x: nat :| x < |s.db.bookings| && KeyOf(s, x) == AuthKey(key) && HasActed(s.sagas[x].pc);
      AuthKeyInjective(s.db.bookings[x].key, key);
      ActedIsApproved(s, x);
    }
  }

  lemma ActedIsApproved(s: System, b: nat)
    requires |s.sagas| == |s.db.bookings| && b < |s.sagas| && Settled(s) && HasActed(s.sagas[b].pc)
    ensures Approved(s.gw, KeyOf(s, b))
  {
    assert InBalance(AccountOf(s, b));
  }

  lemma OpenedIsOneActive(s: System, t: System, b: nat, c: nat)
    requires Opens(s, t) && Settled(s) && Harmless(s, t.db.bookings[|s.db.bookings|].key)
    requires b < |t.db.bookings| && c < |t.db.bookings|
    ensures OneActive(t, b, c)
  {
    var n := |s.db.bookings|;
    if b < n && c < n {
      OldAccountKept(s, t, b);
      OldAccountKept(s, t, c);
      assert OneActive(s, b, c);
    } else if b != c && KeyOf(t, b) == KeyOf(t, c) {
      AuthKeyInjective(t.db.bookings[b].key, t.db.bookings[c].key);
      OldAccountKept(s, t, if b < n then b else c);
    }
  }

  lemma OldChargesHeld(s: System, t: System, key: string)
    requires Opens(s, t) && Settled(s)
    ensures Approved(t.gw, key) ==> ChargeHeld(t, key)
    ensures Touched(t.gw, key) ==> ChargeActedOn(t, key)
  {
    if Approved(s.gw, key) {
      var x: nat :| x < |s.db.bookings| && KeyOf(s, x) == key && HasAnswer(s.sagas[x].pc);
      OldAccountKept(s, t, x);
    }
    if Touched(s.gw, key) {
      var x: nat :| x < |s.db.bookings| && KeyOf(s, x) == key && HasActed(s.sagas[x].pc);
      OldAccountKept(s, t, x);
    }
  }

  lemma OpenSettles(s: System, t: System)
    requires Safe(s) && Settled(s) && Opens(s, t) && Harmless(s, t.db.bookings[|s.db.bookings|].key)
    ensures Settled(t)
  {
    var n := |s.db.bookings|;
    HarmlessIsUntouched(s, t.db.bookings[n].key);
    assert InBalance(AccountOf(t, n));
    forall b: nat | b < |t.db.bookings| ensures InBalance(AccountOf(t, b)) {
      if b < n {
        OldAccountKept(s, t, b);
        assert InBalance(AccountOf(s, b));
      }
    }
    forall key ensures (Approved(t.gw, key) ==> ChargeHeld(t, key)) && (Touched(t.gw, key) ==> ChargeActedOn(t, key)) {
      OldChargesHeld(s, t, key);
    }
    forall b: nat, c: nat | b < |t.db.bookings| && c < |t.db.bookings| ensures OneActive(t, b, c) {
      OpenedIsOneActive(s, t, b, c);
    }
  }

  lemma OldAccountKept(s: System, t: System, b: nat)
    requires Opens(s, t) && b < |s.db.bookings|
    ensures AccountOf(t, b) == AccountOf(s, b) && KeyOf(t, b) == KeyOf(s, b) && t.sagas[b] == s.sagas[b]
  {
    assert t.db.bookings[b] == s.db.bookings[b] && t.sagas[b] == s.sagas[b];
  }

  lemma HoldStepSettles(s: System, t: System)
    requires |s.sagas| == |s.db.bookings| && Settled(s) && (Idles(s, t) || Shuffles(s, t))
    ensures |t.sagas| == |t.db.bookings| && Settled(t)
  {
    forall b: nat | b < |t.db.bookings| ensures AccountOf(t, b) == AccountOf(s, b) && KeyOf(t, b) == KeyOf(s, b) {
    }
    forall key ensures (Approved(t.gw, key) ==> ChargeHeld(t, key)) && (Touched(t.gw, key) ==> ChargeActedOn(t, key)) {
      assert ChargeHeld(s, key) ==> ChargeHeld(t, key);
      assert ChargeActedOn(s, key) ==> ChargeActedOn(t, key);
    }
    forall b: nat, c: nat | b < |t.db.bookings| && c < |t.db.bookings| ensures OneActive(t, b, c) {
      assert OneActive(s, b, c);
    }
  }

  // ----- the steps that keep every account in balance -----

  /** A caller can check both beforehand: nothing under the key can still be captured or voided, and a booking
    * to be refunded is CONFIRMED. */
  ghost predicate Careful(s: System, step: Step)
    requires |s.sagas| == |s.db.bookings|
  {
    && (step.CreateBooking? && Next(s, step) != s ==> Harmless(s, step.key))
    && (step.CancelRefund? && step.ok && MayCancel(s, step.b) ==> s.db.bookings[step.b].state == Confirmed)
  }

  lemma SagaStepSettles(s: System, step: Step, b: nat)
    requires Local(s, b) && Settled(s) && Owner(step) == Some(b) && Careful(s, step)
    requires Next(s, step) == s || FrameOf(s, Next(s, step), b)
    ensures Settled(Next(s, step))
  {
    if Next(s, step) != s {
      match step
      case FraudBlock(_) => FraudBlockSettles(s, b);
      case InsertPayment(_) => InsertPaymentSettles(s, b);
      case Authorize(_, trigger) => AuthorizeSettles(s, b, trigger);
      case RecordTimeout(_) => RecordTimeoutSettles(s, b);
      case RecordAnswer(_) => RecordAnswerSettles(s, b);
      case IssueTickets(_, rejected) => IssueTicketsSettles(s, b, rejected);
      case Reverse(_, ok) => ReverseSettles(s, b, ok);
      case FinishCompensation(_) => FinishCompensationSettles(s, b);
      case Capture(_) => CaptureSettles(s, b);
      case Confirm(_) => ConfirmSettles(s, b);
      case CancelRefund(_, ok) => CancelRefundSettles(s, b, ok);
      case CancelCommit(_) => CancelCommitSettles(s, b);
    }
  }

  lemma OwnStepSettles(s: System, step: Step, b: nat)
    requires Safe(s) && Settled(s) && Careful(s, step) && Owner(step) == Some(b) && Safe(Next(s, step))
    ensures Settled(Next(s, step))
  {
    if b < |s.sagas| {
      StepEffect(s, step);
      SafeIsLocal(s, b);
      SagaStepSettles(s, step, b);
    } else {
      NoSuchBooking(s, step);
    }
  }

  lemma FreeStepSettles(s: System, step: Step)
    requires Safe(s) && Settled(s) && Careful(s, step) && Owner(step).None? && Safe(Next(s, step))
    ensures Settled(Next(s, step))
  {
    var t := Next(s, step);
    StepEffect(s, step);
    if Idles(s, t) || Shuffles(s, t) {
      HoldStepSettles(s, t);
    } else {
      OpenedKey(s, step);
      OpenSettles(s, t);
    }
  }

  lemma CarefulStepSettles(s: System, step: Step)
    requires Safe(s) && Settled(s) && Careful(s, step)
    ensures Safe(Next(s, step)) && Settled(Next(s, step))
  {
    StepIsSafe(s, step);
    match Owner(step)
    case Some(b) => OwnStepSettles(s, step, b);
    case None => FreeStepSettles(s, step);
  }

  lemma OpenedKey(s: System, step: Step)
    requires Safe(s) && step.CreateBooking? && Opens(s, Next(s, step))
    ensures Next(s, step).db.bookings[|s.db.bookings|].key == step.key
  {
    CreatedKey(s.db, step.user, step.key, step.holds, s.now);
    assert Next(s, step) == DoCreateBooking(s, step.user, step.key, step.holds, step.passengers);
  }

  lemma CreatedKey(db: Tables, user: nat, key: string, holds: seq<nat>, now: int)
    ensures var creation := Store.CreateBooking(db, user, key, holds, now);
      creation.Created? ==> |creation.tables.bookings| == |db.bookings| + 1 && creation.tables.bookings[|db.bookings|].key == key
  {}

  // ----- over whole runs -----

  ghost predicate CarefulRun(s: System, steps: seq<Step>) {
    steps == [] || (CarefulRun(s, steps[..|steps| - 1]) && IsCareful(Exec(s, steps[..|steps| - 1]), steps[|steps| - 1]))
  }

  ghost predicate IsCareful(s: System, step: Step) {
    |s.sagas| == |s.db.bookings| && Careful(s, step)
  }

  lemma {:induction false} CarefulRunSettles(s: System, steps: seq<Step>)
    requires Safe(s) && Settled(s) && CarefulRun(s, steps)
    ensures Safe(Exec(s, steps)) && Settled(Exec(s, steps))
  {
    if steps != [] {
      CarefulRunSettles(s, steps[..|steps| - 1]);
      CarefulStepSettles(Exec(s, steps[..|steps| - 1]), steps[|steps| - 1]);
    }
  }

  ghost predicate CarefullyReachable(s: System) {
    exists cfg: Config, now: int, seats: seq<Seat>, steps: seq<Step> ::
      Seeded(seats) && CarefulRun(Start(cfg, now, seats), steps) && s == Exec(Start(cfg, now, seats), steps)
  }

  lemma CarefullyReachableIsSettled(s: System)
    requires CarefullyReachable(s)
    ensures Safe(s) && Settled(s)
  {
    var cfg: Config, now: int, seats: seq<Seat>, steps: seq<Step> :|
      Seeded(seats) && CarefulRun(Start(cfg, now, seats), steps) && s == Exec(Start(cfg, now, seats), steps);
    StartIsSafe(cfg, now, seats);
    CarefulRunSettles(Start(cfg, now, seats), steps);
  }

  predicate StillOwed(state: BookingState) {
    state == Pending || state == PaymentAuthorized || state == Ticketed || state == Confirmed
    || state == Compensating || state == NeedsManualReview
  }

  /** No money is silently kept: every charge the gateway approved has been voided or refunded there, or belongs to
    * a booking in a state that still owes an outcome; nothing is both captured and voided; and nobody keeps a
    * confirmed booking whose captured charge was refunded, unless its cancel is still under way; and one charge pays
    * for one ticketed booking. */
  ghost predicate MoneyRule(s: System) {
    && (forall key :: Approved(s.gw, key) ==> ChargeSettled(s, key))
    && s.gw.captured !! s.gw.voided
    && (forall b: nat :: b < |s.db.bookings| ==> !SeatAndMoney(s, b))
    && (forall b: nat, c: nat :: b < |s.sagas| && c < |s.sagas| && b != c ==> !PaidTwice(s, b, c))
  }

  /** Two bookings that issued tickets were paid with one charge. */
  predicate PaidTwice(s: System, b: nat, c: nat)
    requires b < |s.sagas| && c < |s.sagas|
  {
    HasIssued(s.sagas[b]) && HasIssued(s.sagas[c]) && RefOf(s, b).Some? && RefOf(s, b) == RefOf(s, c)
  }

  ghost predicate ChargeSettled(s: System, key: string)
    requires Approved(s.gw, key)
  {
    var ref := s.gw.authorizations[key].ref;
    || ref in s.gw.voided || ref in s.gw.refunded
    || exists b: nat :: b < |s.db.bookings| && KeyOf(s, b) == key && StillOwed(s.db.bookings[b].state)
  }

  predicate SeatAndMoney(s: System, b: nat)
    requires b < |s.db.bookings|
  {
    && s.db.bookings[b].state == Confirmed && b !in s.cancels
    && RefOf(s, b).Some? && RefOf(s, b).value in s.gw.captured && RefOf(s, b).value in s.gw.refunded
  }

  lemma HeldChargeSettled(s: System, key: string)
    requires Safe(s) && Settled(s) && Approved(s.gw, key)
    ensures ChargeSettled(s, key)
  {
    var b: nat :| b < |s.db.bookings| && KeyOf(s, b) == key && HasAnswer(s.sagas[b].pc);
    assert InBalance(AccountOf(s, b));
    SafeIsLocal(s, b);
  }

  /** A booking that has issued tickets was paid by the charge under its own key. */
  lemma IssuedIsCharged(s: System, b: nat)
    requires |s.sagas| == |s.db.bookings| && b < |s.sagas| && Settled(s) && HasIssued(s.sagas[b])
    ensures Approved(s.gw, KeyOf(s, b)) && RefOf(s, b) == Some(s.gw.authorizations[KeyOf(s, b)].ref)
  {
    assert InBalance(AccountOf(s, b));
  }

  lemma OneIssuedPerKey(s: System, b: nat, c: nat)
    requires |s.sagas| == |s.db.bookings| && Settled(s) && b < |s.sagas| && c < |s.sagas| && b != c && KeyOf(s, b) == KeyOf(s, c)
    ensures !(HasIssued(s.sagas[b]) && HasIssued(s.sagas[c]))
  {
    assert OneActive(s, b, c);
    if HasIssued(s.sagas[b]) {
      IssuedIsCharged(s, b);
    }
  }

  lemma NobodyPaysTwice(s: System, b: nat, c: nat)
    requires |s.sagas| == |s.db.bookings| && Settled(s) && b < |s.sagas| && c < |s.sagas| && b != c
    ensures !PaidTwice(s, b, c)
  {
    if HasIssued(s.sagas[b]) && HasIssued(s.sagas[c]) {
      IssuedIsCharged(s, b);
      IssuedIsCharged(s, c);
    }
    if KeyOf(s, b) == KeyOf(s, c) {
      OneIssuedPerKey(s, b, c);
    }
  }

  lemma SettledKeepsTheRule(s: System)
    requires Safe(s) && Settled(s)
    ensures MoneyRule(s)
  {
    forall b: nat, c: nat | b < |s.sagas| && c < |s.sagas| && b != c ensures !PaidTwice(s, b, c) {
      NobodyPaysTwice(s, b, c);
    }
    forall key | Approved(s.gw, key) ensures ChargeSettled(s, key) {
      HeldChargeSettled(s, key);
    }
    forall b: nat | b < |s.db.bookings| ensures !SeatAndMoney(s, b) {
      assert InBalance(AccountOf(s, b));
      SafeIsLocal(s, b);
    }
  }

  /** A retry never books twice: of two bookings under one key at most one ever issues tickets. */
  lemma NeverBookedTwice(s: System, b: nat, c: nat)
    requires CarefullyReachable(s) && b < |s.db.bookings| && c < |s.db.bookings| && b != c
    requires s.db.bookings[b].key == s.db.bookings[c].key
    ensures |s.sagas| == |s.db.bookings| && !(HasIssued(s.sagas[b]) && HasIssued(s.sagas[c]))
  {
    CarefullyReachableIsSettled(s);
    OneIssuedPerKey(s, b, c);
  }

  lemma NoMoneyKept(s: System)
    requires CarefullyReachable(s)
    ensures MoneyRule(s)
  {
    CarefullyReachableIsSettled(s);
    SettledKeepsTheRule(s);
  }

  ghost predicate KeyToItself(s: System, b: nat)
    requires b < |s.db.bookings|
  {
    forall c: nat :: c < |s.db.bookings| && c != b ==> KeyOf(s, c) != KeyOf(s, b)
  }

  ghost predicate Honest(a: Account) {
    && (a.state == PaymentFailed ==> a.payment.None? || (Refused(a) && PaymentIs(a, PayDeclined, Some(a.charge.value.ref))))
    && (a.state == Voided ==> Charged(a, PayVoided) && a.voided && !a.captured)
    && (a.state == Confirmed ==> Charged(a, PayCaptured) && a.captured && !a.voided && (a.refunded ==> a.cancel.Some?))
    && (a.state == Cancelled ==> Charged(a, PayRefunded) && a.captured && a.refunded)
    && (a.state == NeedsManualReview ==> Charged(a, PayAuthorized) || (Charged(a, PayCaptured) && a.captured))
  }

  lemma BalancedIsHonest(a: Account, local: BookingState)
    requires InBalance(a) && StateOk(a.pc, local, a.state)
    ensures Honest(a)
  {}

  /** What each final answer to the customer says about the money at the gateway. */
  lemma OutcomesAreHonest(s: System, b: nat)
    requires CarefullyReachable(s) && b < |s.db.bookings|
    ensures |s.sagas| == |s.db.bookings| && Honest(AccountOf(s, b))
  {
    CarefullyReachableIsSettled(s);
    SafeIsLocal(s, b);
    assert InBalance(AccountOf(s, b));
    BalancedIsHonest(AccountOf(s, b), s.sagas[b].state);
  }

  /** And if nobody else used its key: a failed payment was never charged, and a booking given up for review still has
    * its charge neither captured nor reversed. */
  lemma OwnKeyOutcomesAreHonest(s: System, b: nat)
    requires CarefullyReachable(s) && b < |s.db.bookings| && KeyToItself(s, b)
    ensures |s.sagas| == |s.db.bookings|
    ensures AccountOf(s, b).state == PaymentFailed ==> !Approved(s.gw, KeyOf(s, b))
    ensures s.sagas[b].pc.Stuck? ==> Untouched(AccountOf(s, b))
  {
    CarefullyReachableIsSettled(s);
    OwnKeyOutcomes(s, b);
  }

  lemma OwnKeyOutcomes(s: System, b: nat)
    requires Safe(s) && Settled(s) && b < |s.db.bookings| && KeyToItself(s, b)
    ensures s.db.bookings[b].state == PaymentFailed ==> !Approved(s.gw, KeyOf(s, b))
    ensures s.sagas[b].pc.Stuck? ==> Untouched(AccountOf(s, b))
  {
    SafeIsLocal(s, b);
    OwnCharge(s, b);
  }

  lemma OwnCharge(s: System, b: nat)
    requires b < |s.sagas| == |s.db.bookings| && Settled(s) && KeyToItself(s, b)
    ensures Approved(s.gw, KeyOf(s, b)) ==> HasAnswer(s.sagas[b].pc)
    ensures HasActed(s.sagas[b].pc) || Untouched(AccountOf(s, b))
  {
    assert ChargeHeld(s, KeyOf(s, b)) ==> HasAnswer(s.sagas[b].pc);
    assert ChargeActedOn(s, KeyOf(s, b)) ==> HasActed(s.sagas[b].pc);
  }
}
