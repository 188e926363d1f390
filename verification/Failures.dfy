/** Exactly which steps put the money at risk: from every other step the money rule survives whatever careful steps
  * follow, and after each of these some continuation breaks it. */
module Failures {
  import opened Domain
  import opened Store
  import opened Gateway
  import opened Machine
  import opened Safety
  import opened Steps
  import opened Runs
  import opened Isolation
  import opened Oversell
  import opened Settlement
  import Coroutine

  // ----- continuations that take no decision of a caller -----

  predicate Plain(step: Step) {
    !step.CreateBooking? && !step.CancelRefund?
  }

  ghost predicate PlainRun(steps: seq<Step>) {
    forall k :: 0 <= k < |steps| ==> Plain(steps[k])
  }

  ghost predicate Leads(s: System, t: System) {
    exists steps :: PlainRun(steps) && Exec(s, steps) == t
  }

  lemma LeadsToItself(s: System)
    ensures Leads(s, s)
  {
    assert PlainRun([]) && Exec(s, []) == s;
  }

  lemma LeadsOn(s: System, t: System, step: Step)
    requires Leads(s, t) && Plain(step)
    ensures Leads(s, Next(t, step))
  {
    var steps :| PlainRun(steps) && Exec(s, steps) == t;
    Coroutine.ExecMore(s, steps, step);
    assert PlainRun(steps + [step]);
  }

  lemma {:induction false} PlainIsCareful(s: System, steps: seq<Step>)
    requires Safe(s) && PlainRun(steps)
    ensures CarefulRun(s, steps) && Safe(Exec(s, steps))
  {
    if steps != [] {
      PlainIsCareful(s, steps[..|steps| - 1]);
      StepIsSafe(Exec(s, steps[..|steps| - 1]), steps[|steps| - 1]);
    }
  }

  // ----- what a step of booking b leaves as it is -----

  ghost predicate Others(t: System, u: System, b: nat) {
    && |t.sagas| == |t.db.bookings| == |u.sagas| == |u.db.bookings|
    && (forall c :: 0 <= c < |t.sagas| ==> u.db.bookings[c].key == t.db.bookings[c].key)
    && (forall c :: 0 <= c < |t.sagas| && c != b ==> u.sagas[c] == t.sagas[c] && u.db.bookings[c] == t.db.bookings[c])
    && (forall c :: c in t.db.payments && c != b ==> c in u.db.payments && u.db.payments[c] == t.db.payments[c])
  }

  ghost predicate Grows(before: Ledger, after: Ledger) {
    && before.captured <= after.captured && before.voided <= after.voided
    && (forall key :: key in before.authorizations ==> key in after.authorizations && after.authorizations[key] == before.authorizations[key])
  }

  /** From t, by plain steps of booking b. */
  ghost predicate Onward(s: System, t: System, u: System, b: nat) {
    Leads(s, u) && Safe(u) && Others(t, u, b) && Grows(t.gw, u.gw)
  }

  predicate TalksToGateway(step: Step) {
    step.Authorize? || step.Reverse? || step.Capture? || step.CancelRefund?
  }

  lemma SilentSteps(t: System, step: Step)
    requires !TalksToGateway(step)
    ensures Next(t, step).gw == t.gw
  {}

  lemma TalkingSteps(t: System, step: Step)
    requires TalksToGateway(step)
    ensures Grows(t.gw, Next(t, step).gw)
  {}

  lemma GatewayGrows(t: System, step: Step)
    ensures Grows(t.gw, Next(t, step).gw)
  {
    if TalksToGateway(step) { TalkingSteps(t, step); } else { SilentSteps(t, step); }
  }

  lemma StepOnward(s: System, t: System, step: Step, b: nat)
    requires Leads(s, t) && Safe(t) && Owner(step) == Some(b) && Plain(step)
    ensures Onward(s, t, Next(t, step), b)
  {
    LeadsOn(s, t, step);
    StepIsSafe(t, step);
    SagasAreIsolated(t, step, b);
    KeysStay(t, step, b);
    GatewayGrows(t, step);
  }

  lemma KeysStay(t: System, step: Step, b: nat)
    requires Safe(t) && Owner(step) == Some(b)
    ensures |Next(t, step).db.bookings| == |t.db.bookings|
    ensures forall c :: 0 <= c < |t.db.bookings| ==> Next(t, step).db.bookings[c].key == t.db.bookings[c].key
  {
    StepEffect(t, step);
    EffectIsFramed(t, Next(t, step), step, b);
    OwnEffectKeeps(t, Next(t, step), b);
  }

  lemma OnwardStill(s: System, t: System, u: System, v: System, b: nat)
    requires Onward(s, t, u, b) && Onward(s, u, v, b)
    ensures Onward(s, t, v, b)
  {}

  // ----- a booking takes over the charge of its key -----

  ghost predicate Carries(t: System, b: nat, ref: nat) {
    && b < |t.db.bookings|
    && KeyOf(t, b) in t.gw.authorizations && t.gw.authorizations[KeyOf(t, b)] == Authorization(ref, true)
  }

  ghost predicate Waits(t: System, b: nat, pc: Pc) {
    Coroutine.Stands(t, b, pc, Pending) && (pc.Opened? || b in t.db.payments)
  }

  ghost predicate CanAsk(t: System, b: nat) {
    Waits(t, b, Opened) || Waits(t, b, Charging) || Waits(t, b, SawTimeout) || Waits(t, b, Retrying)
  }

  ghost predicate SameSeatsOf(t: System, u: System, b: nat) {
    && u.db.seats == t.db.seats && b < |t.db.bookings| && b < |u.db.bookings|
    && u.db.bookings[b].seats == t.db.bookings[b].seats && u.db.bookings[b].user == t.db.bookings[b].user
    && u.db.bookings[b].key == t.db.bookings[b].key
  }

  ghost predicate IsAnswered(u: System, b: nat, ref: nat) {
    Carries(u, b, ref) && Waits(u, b, Answered(Authorization(ref, true)))
  }

  lemma AskNow(s: System, t: System, b: nat) returns (u: System, ref: nat)
    requires Leads(s, t) && Safe(t) && (Waits(t, b, Charging) || Waits(t, b, Retrying)) && !Declined(t.gw, KeyOf(t, b))
    ensures Onward(s, t, u, b) && IsAnswered(u, b, ref) && SameSeatsOf(t, u, b)
  {
    Coroutine.AtAuthorize(t, b, Approve);
    StepOnward(s, t, Authorize(b, Approve), b);
    u := Next(t, Authorize(b, Approve));
    ref := u.gw.authorizations[KeyOf(t, b)].ref;
  }

  /** Whatever the wait, the gateway can be asked, and its answer is yes. */
  lemma Ask(s: System, t: System, b: nat) returns (u: System, ref: nat)
    requires Leads(s, t) && Safe(t) && CanAsk(t, b) && !Declined(t.gw, KeyOf(t, b))
    ensures Onward(s, t, u, b) && IsAnswered(u, b, ref) && SameSeatsOf(t, u, b)
  {
    if Waits(t, b, Opened) {
      var m := AfterInsert(s, t, b);
      u, ref := AskNow(s, m, b);
      OnwardStill(s, t, m, u, b);
    } else if Waits(t, b, SawTimeout) {
      var m := AfterTimeout(s, t, b);
      u, ref := AskNow(s, m, b);
      OnwardStill(s, t, m, u, b);
    } else {
      u, ref := AskNow(s, t, b);
    }
  }

  lemma AfterInsert(s: System, t: System, b: nat) returns (u: System)
    requires Leads(s, t) && Safe(t) && Waits(t, b, Opened)
    ensures Onward(s, t, u, b) && Waits(u, b, Charging) && SameSeatsOf(t, u, b) && u.gw == t.gw
  {
    Coroutine.AtInsertPayment(t, b);
    StepOnward(s, t, InsertPayment(b), b);
    u := Next(t, InsertPayment(b));
  }

  lemma AfterTimeout(s: System, t: System, b: nat) returns (u: System)
    requires Leads(s, t) && Safe(t) && Waits(t, b, SawTimeout)
    ensures Onward(s, t, u, b) && Waits(u, b, Retrying) && SameSeatsOf(t, u, b) && u.gw == t.gw
  {
    Coroutine.AtRecordTimeout(t, b);
    StepOnward(s, t, RecordTimeout(b), b);
    u := Next(t, RecordTimeout(b));
  }

  /** Authorized under ref, with the payment row to show for it. */
  ghost predicate HasCharge(t: System, b: nat, pc: Pc, state: BookingState, ref: nat) {
    && Coroutine.Stands(t, b, pc, state) && b in t.db.payments
    && t.db.payments[b].ref == Some(ref) && t.db.payments[b].state.PayAuthorized?
  }

  lemma Accept(s: System, t: System, b: nat, ref: nat) returns (u: System)
    requires Leads(s, t) && Safe(t) && Waits(t, b, Answered(Authorization(ref, true)))
    ensures Onward(s, t, u, b) && HasCharge(u, b, Pc.Authorized, PaymentAuthorized, ref) && SameSeatsOf(t, u, b)
  {
    Coroutine.AtApproval(t, b, Authorization(ref, true));
    Coroutine.ApprovalKeepsPins(t.db, b, ref);
    StepOnward(s, t, RecordAnswer(b), b);
    u := Next(t, RecordAnswer(b));
  }

  lemma AskAndAccept(s: System, t: System, b: nat) returns (u: System, ref: nat)
    requires Leads(s, t) && Safe(t) && CanAsk(t, b) && !Declined(t.gw, KeyOf(t, b))
    ensures Onward(s, t, u, b) && HasCharge(u, b, Pc.Authorized, PaymentAuthorized, ref) && SameSeatsOf(t, u, b) && Carries(u, b, ref)
  {
    var m;
    m, ref := Ask(s, t, b);
    u := Accept(s, m, b, ref);
    OnwardStill(s, t, m, u, b);
  }

  // ----- and voids it, or captures it -----

  lemma VoidNow(s: System, t: System, b: nat, ref: nat) returns (u: System)
    requires Leads(s, t) && Safe(t) && HasCharge(t, b, Compensates, Compensating, ref)
    ensures Onward(s, t, u, b) && ref in u.gw.voided
  {
    Coroutine.AtReverse(t, b, true);
    StepOnward(s, t, Reverse(b, true), b);
    u := Next(t, Reverse(b, true));
  }

  lemma Void(s: System, t: System, b: nat, ref: nat) returns (u: System)
    requires Leads(s, t) && Safe(t) && HasCharge(t, b, Pc.Authorized, PaymentAuthorized, ref)
    ensures Onward(s, t, u, b) && ref in u.gw.voided
  {
    assert BookingOk(t, b);
    Coroutine.IssueIsLegal(t.db, b, t.db.bookings[b].user, true, t.now);
    Coroutine.AtRefusal(t, b, true);
    Coroutine.BeginIsLegal(Store.IssueTickets(t.db, b, t.db.bookings[b].user, PaymentAuthorized, true, t.now).tables, b);
    StepOnward(s, t, IssueTickets(b, true), b);
    var m := Next(t, IssueTickets(b, true));
    u := VoidNow(s, m, b, ref);
    OnwardStill(s, t, m, u, b);
  }

  lemma CaptureNow(s: System, t: System, b: nat, ref: nat) returns (u: System)
    requires Leads(s, t) && Safe(t) && HasCharge(t, b, Issuing, Ticketed, ref)
    ensures Onward(s, t, u, b) && ref in u.gw.captured
  {
    Coroutine.AtCapture(t, b);
    StepOnward(s, t, Capture(b), b);
    u := Next(t, Capture(b));
  }

  lemma IssueAndCapture(s: System, t: System, b: nat, ref: nat) returns (u: System)
    requires Leads(s, t) && Safe(t) && HasCharge(t, b, Pc.Authorized, PaymentAuthorized, ref)
    requires Coroutine.Pinned(t, b, t.db.bookings[b].user)
    ensures Onward(s, t, u, b) && ref in u.gw.captured
  {
    Coroutine.IssueIsLegal(t.db, b, t.db.bookings[b].user, false, t.now);
    Coroutine.AtIssue(t, b, false);
    StepOnward(s, t, IssueTickets(b, false), b);
    var m := Next(t, IssueTickets(b, false));
    u := CaptureNow(s, m, b, ref);
    OnwardStill(s, t, m, u, b);
  }

  // ----- a reused key -----

  ghost predicate Breakable(s: System) {
    exists steps :: PlainRun(steps) && !MoneyRule(Exec(s, steps))
  }

  lemma BrokenWhere(s: System, u: System, ref: nat)
    requires Leads(s, u) && ref in u.gw.captured && ref in u.gw.voided
    ensures Breakable(s)
  {
    var steps :| PlainRun(steps) && Exec(s, steps) == u;
    assert !MoneyRule(u);
  }

  /** The new booking c can always take the charge, ticket its seats and capture. */
  lemma NewcomerCaptures(s: System, c: nat) returns (u: System, ref: nat)
    requires Safe(s) && Waits(s, c, Opened) && Coroutine.Pinned(s, c, s.db.bookings[c].user) && !Declined(s.gw, KeyOf(s, c))
    ensures Onward(s, s, u, c) && Carries(u, c, ref) && KeyOf(u, c) == KeyOf(s, c) && ref in u.gw.captured
    ensures Approved(s.gw, KeyOf(s, c)) ==> Carries(s, c, ref)
  {
    LeadsToItself(s);
    var m;
    m, ref := AskAndAccept(s, s, c);
    u := IssueAndCapture(s, m, c, ref);
    OnwardStill(s, s, m, u, c);
  }

  /** The old booking's charge is already captured, or it can capture. The newcomer is refused and voids it. */
  lemma NewcomerVoids(s: System, t: System, c: nat, ref: nat) returns (u: System)
    requires Leads(s, t) && Safe(t) && Waits(t, c, Opened) && Carries(t, c, ref)
    ensures Onward(s, t, u, c) && ref in u.gw.voided
  {
    var m, r := AskAndAccept(s, t, c);
    u := Void(s, m, c, r);
    OnwardStill(s, t, m, u, c);
  }

  /** Booking b as another booking's steps leave it. */
  lemma UntouchedByOthers(s: System, t: System, u: System, b: nat, c: nat)
    requires Onward(s, t, u, c) && b != c && b < |t.db.bookings|
    ensures b < |u.db.bookings| && KeyOf(u, b) == KeyOf(t, b) && u.sagas[b] == t.sagas[b]
    ensures b in t.db.payments ==> b in u.db.payments && u.db.payments[b] == t.db.payments[b]
    ensures forall pc, state :: Coroutine.Stands(t, b, pc, state) ==> Coroutine.Stands(u, b, pc, state)
  {}

  /** An older booking that can still be answered follows the newcomer and voids what it captured. */
  lemma OldOneAsksAndVoids(s: System, t: System, b: nat, ref: nat) returns (u: System)
    requires Leads(s, t) && Safe(t) && CanAsk(t, b) && Carries(t, b, ref)
    ensures Onward(s, t, u, b) && ref in u.gw.voided
  {
    var m, r := AskAndAccept(s, t, b);
    u := Void(s, m, b, r);
    OnwardStill(s, t, m, u, b);
  }

  lemma OldOneAcceptsAndVoids(s: System, t: System, b: nat, ref: nat) returns (u: System)
    requires Leads(s, t) && Safe(t) && Waits(t, b, Answered(Authorization(ref, true)))
    ensures Onward(s, t, u, b) && ref in u.gw.voided
  {
    var m := Accept(s, t, b, ref);
    u := Void(s, m, b, ref);
    OnwardStill(s, t, m, u, b);
  }

  /** Where booking b stands when somebody reuses its key. */
  datatype Standing = Asking | Accepting | Holding | Reversing | Selling | Captured | Voided

  ghost predicate StandsAs(s: System, b: nat, standing: Standing, ref: nat)
    requires b < |s.db.bookings|
  {
    match standing
    case Asking => CanAsk(s, b)
    case Accepting => Waits(s, b, Answered(Authorization(ref, true)))
    case Holding => HasCharge(s, b, Pc.Authorized, PaymentAuthorized, ref)
    case Reversing => HasCharge(s, b, Compensates, Compensating, ref)
    case Selling => HasCharge(s, b, Issuing, Ticketed, ref)
    case Captured => ref in s.gw.captured
    case Voided => ref in s.gw.voided
  }

  /** Every booking that has not given up, under a key that is not declined, stands in one of these ways. */
  lemma EveryStanding(s: System, b: nat) returns (standing: Standing, ref: nat)
    requires Safe(s) && Settled(s) && b < |s.db.bookings| && !Inert(s.sagas[b].pc) && !Declined(s.gw, KeyOf(s, b))
    ensures StandsAs(s, b, standing, ref) && (standing.Asking? || Carries(s, b, ref))
  {
    SafeIsLocal(s, b);
    assert InBalance(AccountOf(s, b));
    var a := AccountOf(s, b);
    ref := if a.charge.Some? then a.charge.value.ref else 0;
    standing :=
      match a.pc
      case Answered(_) => Accepting
      case Authorized => Holding
      case Compensates => Reversing
      case Issuing => Selling
      case CaptureSent => Captured
      case Succeeded => Captured
      case Reversed(_) => Standing.Voided
      case Undone => Standing.Voided
      case _ => Asking;
  }

  lemma StandingKept(s: System, t: System, u: System, b: nat, c: nat, standing: Standing, ref: nat)
    requires Onward(s, t, u, c) && b != c && b < |t.db.bookings| && StandsAs(t, b, standing, ref)
    ensures b < |u.db.bookings| && StandsAs(u, b, standing, ref)
  {
    UntouchedByOthers(s, t, u, b, c);
  }

  /** With an older booking b of the same key standing in any of these ways, the newcomer c and b between them can
    * capture and void one charge. */
  lemma TwoOnOneCharge(s: System, b: nat, c: nat, standing: Standing, ref: nat)
    requires Safe(s) && b < |s.db.bookings| && c < |s.db.bookings| && b != c && KeyOf(s, b) == KeyOf(s, c)
    requires Waits(s, c, Opened) && Coroutine.Pinned(s, c, s.db.bookings[c].user) && !Declined(s.gw, KeyOf(s, c))
    requires StandsAs(s, b, standing, ref) && (standing.Asking? || Carries(s, b, ref))
    ensures Breakable(s)
  {
    if standing.Selling? || standing.Captured? {
      LeadsToItself(s);
      var m := s;
      if standing.Selling? {
        m := CaptureNow(s, s, b, ref);
        UntouchedByOthers(s, s, m, c, b);
      }
      var u := NewcomerVoids(s, m, c, ref);
      BrokenWhere(s, u, ref);
    } else {
      var t, r := NewcomerCaptures(s, c);
      StandingKept(s, s, t, b, c, standing, ref);
      UntouchedByOthers(s, s, t, b, c);
      var u := OldOneVoids(s, t, b, standing, r);
      BrokenWhere(s, u, r);
    }
  }

  lemma OldOneVoids(s: System, t: System, b: nat, standing: Standing, ref: nat) returns (u: System)
    requires Leads(s, t) && Safe(t) && Carries(t, b, ref) && StandsAs(t, b, standing, ref)
    requires !standing.Selling? && !standing.Captured?
    ensures Leads(s, u) && Grows(t.gw, u.gw) && ref in u.gw.voided
  {
    match standing
    case Asking => u := OldOneAsksAndVoids(s, t, b, ref);
    case Accepting => u := OldOneAcceptsAndVoids(s, t, b, ref);
    case Holding => u := Void(s, t, b, ref);
    case Reversing => u := VoidNow(s, t, b, ref);
    case Voided => u := t;
  }

  lemma StandingOpened(s: System, t: System, b: nat, standing: Standing, ref: nat)
    requires Opens(s, t) && b < |s.db.bookings| && StandsAs(s, b, standing, ref) && (standing.Asking? || Carries(s, b, ref))
    ensures KeyOf(t, b) == KeyOf(s, b) && StandsAs(t, b, standing, ref) && (standing.Asking? || Carries(t, b, ref))
  {
    assert t.db.bookings[b] == s.db.bookings[b] && t.sagas[b] == s.sagas[b];
  }

  /** Whoever opens a booking under a key that is not harmless opens the way to a charge captured and voided. */
  lemma ReuseBreaks(s: System, step: Step)
    requires Safe(s) && Settled(s) && step.CreateBooking? && Next(s, step) != s && !Harmless(s, step.key)
    ensures Breakable(Next(s, step))
  {
    var t, c := Next(s, step), |s.db.bookings|;
    StepIsSafe(s, step);
    StepEffect(s, step);
    OpenedStands(s, step);
    var b: nat :| b < |s.db.bookings| && s.db.bookings[b].key == step.key && !Inert(s.sagas[b].pc);
    var standing, ref := EveryStanding(s, b);
    StandingOpened(s, t, b, standing, ref);
    TwoOnOneCharge(t, b, c, standing, ref);
  }

  lemma OpenedStands(s: System, step: Step)
    requires Safe(s) && step.CreateBooking? && Next(s, step) != s
    ensures var t, c := Next(s, step), |s.db.bookings|;
      && Opens(s, t) && c < |t.db.bookings| && t.gw == s.gw && t.db.bookings[c].key == step.key
      && Waits(t, c, Opened) && Coroutine.Pinned(t, c, t.db.bookings[c].user)
  {
    Coroutine.CreatingStep(s, step.user, step.key, step.holds, step.passengers);
    CreateBookingOpens(s, step.user, step.key, step.holds, step.passengers);
    Coroutine.AtCreate(s, step.user, step.key, step.holds, step.passengers);
  }

  // ----- a refund for a booking that is still TICKETED -----

  ghost predicate Ticketing(s: System, b: nat, ref: nat) {
    && b < |s.sagas| && b < |s.db.bookings| && (s.sagas[b].pc.Issuing? || s.sagas[b].pc.CaptureSent?) && s.sagas[b].state == Ticketed
    && b in s.db.payments && s.db.payments[b].ref == Some(ref) && s.db.payments[b].state.PayAuthorized?
    && (s.sagas[b].pc.CaptureSent? ==> ref in s.gw.captured)
  }

  lemma TicketedIsTicketing(s: System, b: nat) returns (ref: nat)
    requires Safe(s) && Settled(s) && b < |s.db.bookings| && s.db.bookings[b].state == Ticketed
    ensures Ticketing(s, b, ref)
  {
    SafeIsLocal(s, b);
    assert InBalance(AccountOf(s, b));
    ref := AccountOf(s, b).charge.value.ref;
  }

  /** The early cancel refunds, and then its own transition check aborts. */
  lemma EarlyCancelOnlyRefunds(s: System, b: nat, ref: nat)
    requires Ticketing(s, b, ref) && s.db.bookings[b].state == Ticketed
    ensures Next(Next(s, CancelRefund(b, true)), CancelCommit(b)) == s.(gw := RefundOn(s.gw, ref), cancels := s.cancels - {b})
  {
    var run := CancelRun(Ticketed, RefundDone);
    var s1 := Next(s, CancelRefund(b, true));
    assert s1 == s.(cancels := s.cancels[b := run], gw := RefundOn(s.gw, ref));
    assert s1.cancels - {b} == s.cancels - {b};
  }

  /** The saga goes on to capture, unless it has, and to confirm. */
  lemma ConfirmsAnyway(s: System, t: System, b: nat, ref: nat) returns (u: System)
    requires Leads(s, t) && Ticketing(t, b, ref)
    ensures Leads(s, u) && b < |u.db.bookings| && u.db.bookings[b].state == Confirmed && RefOf(u, b) == Some(ref)
    ensures ref in u.gw.captured && u.gw.refunded == t.gw.refunded && u.cancels == t.cancels
  {
    var m := t;
    if t.sagas[b].pc.Issuing? {
      Coroutine.AtCapture(t, b);
      LeadsOn(s, t, Capture(b));
      m := CaptureSentNow(t, b, ref);
    }
    ConfirmedNow(m, b, ref);
    LeadsOn(s, m, Confirm(b));
    u := Next(m, Confirm(b));
  }

  lemma CaptureSentNow(t: System, b: nat, ref: nat) returns (u: System)
    requires Ticketing(t, b, ref) && t.sagas[b].pc.Issuing?
    ensures u == Next(t, Capture(b)) && Ticketing(u, b, ref) && u.sagas[b].pc.CaptureSent?
    ensures u.gw.refunded == t.gw.refunded && u.cancels == t.cancels
  {
    u := Next(t, Capture(b));
    assert u == Goto(t, b, CaptureSent).(gw := CaptureOn(t.gw, ref));
  }

  lemma ConfirmedNow(t: System, b: nat, ref: nat)
    requires Ticketing(t, b, ref) && t.sagas[b].pc.CaptureSent?
    ensures var u := Next(t, Confirm(b));
      && b < |u.db.bookings| && u.db.bookings[b].state == Confirmed && RefOf(u, b) == Some(ref)
      && u.gw == t.gw && u.cancels == t.cancels
  {
    Coroutine.ConfirmIsLegal(t.db, b);
    Coroutine.AtConfirm(t, b);
    assert CanTransition(Ticketed, Confirmed);
  }

  lemma EarlyRefundBreaks(s: System, b: nat)
    requires Safe(s) && Settled(s) && b < |s.db.bookings| && s.db.bookings[b].state == Ticketed
    ensures Breakable(Next(s, CancelRefund(b, true)))
  {
    var s1 := Next(s, CancelRefund(b, true));
    var u := EarlyCancelGoesOn(s, b);
    var steps :| PlainRun(steps) && Exec(s1, steps) == u;
    assert SeatAndMoney(u, b);
  }

  lemma EarlyCancelGoesOn(s: System, b: nat) returns (u: System)
    requires Safe(s) && Settled(s) && b < |s.db.bookings| && s.db.bookings[b].state == Ticketed
    ensures Leads(Next(s, CancelRefund(b, true)), u) && b < |u.db.bookings| && SeatAndMoney(u, b)
  {
    var ref := TicketedIsTicketing(s, b);
    EarlyCancelOnlyRefunds(s, b, ref);
    var s1 := Next(s, CancelRefund(b, true));
    LeadsToItself(s1);
    LeadsOn(s1, s1, CancelCommit(b));
    u := ConfirmsAnyway(s1, Next(s1, CancelCommit(b)), b, ref);
  }

  /** A cancel that is admitted while its booking is TICKETED, at whatever point of the saga, refunds the card and
    * then aborts; the saga goes on, and the customer ends with every seat, every ticket, and the money back. */
  lemma EarlyCancelKeepsSeatAndMoney(s: System, b: nat) returns (u: System)
    requires Safe(s) && Settled(s) && b < |s.db.bookings| && s.db.bookings[b].state == Ticketed
    ensures Leads(Next(s, CancelRefund(b, true)), u) && Safe(u)
    ensures b < |u.db.bookings| && SeatAndMoney(u, b) && FullyTicketed(u, b)
  {
    u := EarlyCancelGoesOn(s, b);
    StepIsSafe(s, CancelRefund(b, true));
    LeadsSafely(Next(s, CancelRefund(b, true)), u);
    ConfirmedIsFullyTicketed(u, b);
  }

  lemma LeadsSafely(s: System, u: System)
    requires Safe(s) && Leads(s, u)
    ensures Safe(u)
  {
    var steps :| PlainRun(steps) && Exec(s, steps) == u;
    RunIsSafe(s, steps);
  }

  lemma ConfirmedIsFullyTicketed(s: System, b: nat)
    requires Safe(s) && b < |s.db.bookings| && s.db.bookings[b].state == Confirmed
    ensures FullyTicketed(s, b)
  {
    SafeIsLocal(s, b);
    SoldIsFullyTicketed(s, b);
  }

  // ----- exactly the careful steps are safe for the money -----

  /** However callers go on, as long as they are careful, the money rule holds. */
  ghost predicate StaysSound(s: System) {
    forall rest :: CarefulRun(s, rest) ==> MoneyRule(Exec(s, rest))
  }

  lemma SettledStaysSound(s: System)
    requires Safe(s) && Settled(s)
    ensures StaysSound(s)
  {
    forall rest | CarefulRun(s, rest) ensures MoneyRule(Exec(s, rest)) {
      CarefulRunSettles(s, rest);
      SettledKeepsTheRule(Exec(s, rest));
    }
  }

  lemma BreakableIsUnsound(s: System)
    requires Safe(s) && Breakable(s)
    ensures !StaysSound(s)
  {
    var steps :| PlainRun(steps) && !MoneyRule(Exec(s, steps));
    PlainIsCareful(s, steps);
  }

  /** A step is careful if and only if the money rule holds after it and goes on holding however careful callers go
    * on. The condition looks only at the state before the step. */
  lemma SoundIffCareful(s: System, step: Step)
    requires Safe(s) && Settled(s)
    ensures Careful(s, step) <==> StaysSound(Next(s, step))
  {
    StepIsSafe(s, step);
    if Careful(s, step) {
      CarefulStepSettles(s, step);
      SettledStaysSound(Next(s, step));
    } else {
      if step.CreateBooking? { ReuseBreaks(s, step); } else { EarlyRefundBreaks(s, step.b); }
      BreakableIsUnsound(Next(s, step));
    }
  }

  ghost predicate SoundAt(s: System, steps: seq<Step>, n: nat) {
    n <= |steps| && StaysSound(Exec(s, steps[..n]))
  }

  ghost predicate SoundThroughout(s: System, steps: seq<Step>, n: nat) {
    forall k: nat :: k <= n ==> SoundAt(s, steps, k)
  }

  /** Over whole runs: every step was careful, if and only if at every moment the money rule holds and goes on
    * holding however careful callers go on. */
  lemma {:induction false} RunSoundIffCareful(s: System, steps: seq<Step>)
    requires Safe(s) && Settled(s)
    ensures CarefulRun(s, steps) <==> SoundThroughout(s, steps, |steps|)
  {
    if steps == [] {
      SettledStaysSound(s);
      WholePrefix(s, steps);
    } else {
      var m := |steps| - 1;
      RunSoundIffCareful(s, steps[..m]);
      if CarefulRun(s, steps[..m]) {
        CarefulRunSettles(s, steps[..m]);
        SoundIffCareful(Exec(s, steps[..m]), steps[m]);
      }
      SplitPrefixes(s, steps);
      WholePrefix(s, steps);
    }
  }

  lemma SamePrefix(s: System, steps: seq<Step>, k: nat)
    requires k < |steps|
    ensures SoundAt(s, steps, k) <==> SoundAt(s, steps[..|steps| - 1], k)
  {
    assert steps[..|steps| - 1][..k] == steps[..k];
  }

  lemma WholePrefix(s: System, steps: seq<Step>)
    ensures SoundAt(s, steps, |steps|) <==> StaysSound(Exec(s, steps))
  {
    assert steps[..|steps|] == steps;
  }

  lemma SplitPrefixes(s: System, steps: seq<Step>)
    requires steps != []
    ensures SoundThroughout(s, steps, |steps|)
      <==> SoundThroughout(s, steps[..|steps| - 1], |steps| - 1) && SoundAt(s, steps, |steps|)
  {
    var front := steps[..|steps| - 1];
    if SoundThroughout(s, steps, |steps|) {
      forall k: nat | k <= |steps| - 1 ensures SoundAt(s, front, k) {
        assert SoundAt(s, steps, k);
        SamePrefix(s, steps, k);
      }
    }
    if SoundThroughout(s, front, |steps| - 1) && SoundAt(s, steps, |steps|) {
      forall k: nat | k <= |steps| ensures SoundAt(s, steps, k) {
        if k < |steps| {
          assert SoundAt(s, front, k);
          SamePrefix(s, steps, k);
        }
      }
    }
  }

  lemma FailedIsHarmless(s: System, key: string)
    requires Safe(s) && forall b: nat :: b < |s.db.bookings| && s.db.bookings[b].key == key ==> s.db.bookings[b].state == PaymentFailed
    ensures Harmless(s, key)
  {
    forall b: nat | b < |s.db.bookings| && s.db.bookings[b].key == key ensures Inert(s.sagas[b].pc) {
      SafeIsLocal(s, b);
    }
  }

  /** A retry under a key whose bookings all failed their payment puts no money at risk. */
  lemma RetryAfterFailureIsSound(s: System, step: Step)
    requires Safe(s) && Settled(s) && step.CreateBooking?
    requires forall b: nat :: b < |s.db.bookings| && s.db.bookings[b].key == step.key ==> s.db.bookings[b].state == PaymentFailed
    ensures StaysSound(Next(s, step))
  {
    FailedIsHarmless(s, step.key);
    assert Careful(s, step);
    SoundIffCareful(s, step);
  }
}
