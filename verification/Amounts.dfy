/** What is charged: every payment row carries its booking's total and its booking's own gateway key, for ever, and
  * what was taken or reserved for the sold seats of a flight is what those seats cost. */
module Amounts {
  import opened Domain
  import opened Inventory
  import opened Store
  import opened Machine
  import opened Safety
  import opened Steps
  import opened Runs
  import opened Oversell
  import opened Revenue
  import opened Settlement

  /** The row asks for the booking's total under the booking's key. */
  ghost predicate PaymentRight(s: System, b: nat)
    requires b in s.db.payments && b < |s.db.bookings|
  {
    s.db.payments[b].amount == s.db.bookings[b].total && s.db.payments[b].key == s.db.bookings[b].key + ":auth"
  }

  /** A payment row that exists keeps its amount and its key. */
  ghost predicate KeepsCharge(before: map<nat, Payment>, after: map<nat, Payment>, b: nat) {
    b in before ==> b in after && after[b].amount == before[b].amount && after[b].key == before[b].key
  }

  ghost predicate KeepsCharges(s: System, t: System) {
    forall b: nat :: KeepsCharge(s.db.payments, t.db.payments, b)
  }

  lemma KeepsChargesTwice(s: System, t: System, u: System)
    requires KeepsCharges(s, t) && KeepsCharges(t, u)
    ensures KeepsCharges(s, u)
  {
    forall b: nat ensures KeepsCharge(s.db.payments, u.db.payments, b) {
      assert KeepsCharge(s.db.payments, t.db.payments, b) && KeepsCharge(t.db.payments, u.db.payments, b);
    }
  }

  /** What booking b's own steps do to its payment row. */
  ghost predicate OwnRow(s: System, t: System, b: nat) {
    && KeepsCharge(s.db.payments, t.db.payments, b)
    && (b in t.db.payments && b !in s.db.payments ==>
         b < |s.db.bookings| && t.db.payments[b].amount == s.db.bookings[b].total && t.db.payments[b].key == s.db.bookings[b].key + ":auth")
  }

  lemma InsertRow(s: System, b: nat)
    requires b in s.db.payments ==> b < |s.sagas| && !s.sagas[b].pc.Opened?
    ensures OwnRow(s, DoInsertPayment(s, b), b)
  {}

  lemma AnswerRow(s: System, b: nat)
    ensures OwnRow(s, DoRecordAnswer(s, b), b)
  {}

  lemma FinishRow(s: System, b: nat)
    ensures OwnRow(s, DoFinishCompensation(s, b), b)
  {}

  lemma CancelRow(s: System, b: nat)
    ensures OwnRow(s, DoCancelCommit(s, b), b)
  {}

  predicate WritesPayment(step: Step) {
    step.InsertPayment? || step.RecordTimeout? || step.RecordAnswer? || step.FinishCompensation? || step.Confirm? || step.CancelCommit?
  }

  lemma WritingSteps(s: System, step: Step, b: nat)
    requires Owner(step) == Some(b) && WritesPayment(step)
    requires b in s.db.payments ==> b < |s.sagas| && !s.sagas[b].pc.Opened?
    ensures OwnRow(s, Next(s, step), b)
  {
    match step
    case InsertPayment(_) => InsertRow(s, b);
    case RecordAnswer(_) => AnswerRow(s, b);
    case FinishCompensation(_) => FinishRow(s, b);
    case CancelCommit(_) => CancelRow(s, b);
    case _ => {}
  }

  lemma SilentSteps(s: System, step: Step)
    requires Owner(step).Some? && !WritesPayment(step)
    ensures Next(s, step).db.payments == s.db.payments
  {
    if step.IssueTickets? {
      IssueIsSilent(s, step.b, step.rejected);
    }
  }

  lemma IssueIsSilent(s: System, b: nat, rejected: bool)
    ensures DoIssueTickets(s, b, rejected).db.payments == s.db.payments
  {}

  /** Nobody has a payment row before its saga inserts it. */
  ghost predicate NoEarlyRows(s: System) {
    forall b: nat :: b in s.db.payments ==> b < |s.sagas| && !s.sagas[b].pc.Opened?
  }

  ghost predicate NotEarly(s: System, b: nat) {
    b in s.db.payments ==> b < |s.sagas| && !s.sagas[b].pc.Opened?
  }

  lemma WriterIsNotEarly(s: System, step: Step, b: nat)
    requires Owner(step) == Some(b) && WritesPayment(step) && NotEarly(s, b)
    ensures NotEarly(Next(s, step), b)
  {}

  lemma OthersAreNotEarly(s: System, step: Step, b: nat)
    requires Owner(step) == Some(b) && !WritesPayment(step) && NotEarly(s, b)
    ensures NotEarly(Next(s, step), b)
  {}

  // ----- every step -----

  ghost predicate Charges(s: System) {
    && (forall b: nat :: b in s.db.payments ==> b < |s.db.bookings| && PaymentRight(s, b))
    && NoEarlyRows(s)
  }

  lemma FramedCharges(s: System, t: System, b: nat)
    requires Safe(s) && Charges(s) && (t == s || FrameOf(s, t, b)) && OwnRow(s, t, b) && NotEarly(t, b)
    ensures Charges(t) && KeepsCharges(s, t)
  {
    forall c: nat ensures KeepsCharge(s.db.payments, t.db.payments, c) {}
    forall c: nat | c in t.db.payments ensures c < |t.db.bookings| && PaymentRight(t, c) {
      if c != b && c in s.db.payments {
        assert PaymentRight(s, c);
      }
    }
    forall c: nat | c in t.db.payments ensures c < |t.sagas| && !t.sagas[c].pc.Opened? {
      assert c != b ==> NotEarly(s, c);
    }
  }

  lemma FreeCharges(s: System, t: System)
    requires Safe(s) && Charges(s) && (Idles(s, t) || Shuffles(s, t) || Opens(s, t))
    ensures Charges(t) && KeepsCharges(s, t)
  {
    forall c: nat | c in t.db.payments ensures c < |t.db.bookings| && PaymentRight(t, c) {
      assert PaymentRight(s, c);
    }
  }

  /** Every step keeps every charge right, and changes the amount and the key of no row that exists. */
  lemma StepKeepsCharges(s: System, step: Step)
    requires Safe(s) && Charges(s)
    ensures Charges(Next(s, step))
    ensures KeepsCharges(s, Next(s, step))
  {
    var t := Next(s, step);
    StepEffect(s, step);
    match Owner(step)
    case None => FreeCharges(s, t);
    case Some(b) =>
      EffectIsFramed(s, t, step, b);
      assert NotEarly(s, b);
      if WritesPayment(step) {
        WritingSteps(s, step, b);
        WriterIsNotEarly(s, step, b);
      } else {
        SilentSteps(s, step);
        OthersAreNotEarly(s, step, b);
      }
      FramedCharges(s, t, b);
  }

  lemma {:induction false} RunKeepsCharges(s: System, steps: seq<Step>)
    requires Safe(s) && Charges(s)
    ensures Charges(Exec(s, steps)) && KeepsCharges(s, Exec(s, steps))
  {
    if steps != [] {
      var front, last := steps[..|steps| - 1], steps[|steps| - 1];
      RunKeepsCharges(s, front);
      RunIsSafe(s, front);
      StepKeepsCharges(Exec(s, front), last);
      KeepsChargesTwice(s, Exec(s, front), Next(Exec(s, front), last));
    }
  }

  lemma ReachableCharges(s: System)
    requires Reachable(s)
    ensures Charges(s)
  {
    var cfg: Config, now: int, seats: seq<Seat>, steps: seq<Step> :| Seeded(seats) && s == Exec(Start(cfg, now, seats), steps);
    StartIsSafe(cfg, now, seats);
    RunKeepsCharges(Start(cfg, now, seats), steps);
  }

  /** In every reachable state every payment row asks for what its booking's seats cost, under its booking's key,
    * and in every continuation it still does. */
  lemma ChargedWhatTheSeatsCost(s: System, steps: seq<Step>, b: nat)
    requires Reachable(s) && b in s.db.payments
    ensures b < |s.db.bookings| && InTable(s.db.seats, s.db.bookings[b].seats)
    ensures s.db.payments[b].amount == s.db.bookings[b].total == SumPrices(s.db.seats, s.db.bookings[b].seats)
    ensures s.db.payments[b].key == s.db.bookings[b].key + ":auth"
    ensures var later := Exec(s, steps).db.payments;
      b in later && later[b].amount == s.db.payments[b].amount && later[b].key == s.db.payments[b].key
  {
    ReachableIsSafe(s);
    ReachableCharges(s);
    RunKeepsCharges(s, steps);
    assert BookingOk(s, b) && PaymentRight(s, b);
    assert KeepsCharge(s.db.payments, Exec(s, steps).db.payments, b);
  }

  // ----- what was taken for the sold seats -----

  /** The money that stands for a booking's seats: taken, or approved and not yet captured while its tickets are out. */
  ghost predicate Stands(s: System, b: nat) {
    b in s.db.payments && (s.db.payments[b].state.PayCaptured? || (s.db.payments[b].state.PayAuthorized? && OwnsLiveTicket(s, b)))
  }

  /** The amounts standing for the bookings of a flight, over the first n bookings. */
  ghost function Taken(s: System, n: nat, flight: nat): int
    requires n <= |s.db.bookings|
  {
    if n == 0 then 0
    else Taken(s, n - 1, flight)
         + if s.db.bookings[n - 1].flight == flight && Stands(s, n - 1) then s.db.payments[n - 1].amount else 0
  }

  lemma SoldIsLive(s: System, b: nat)
    requires Safe(s) && b < |s.db.bookings|
    ensures OwnsLiveTicket(s, b) <==> PhaseOf(s, b).Sold?
  {
    if PhaseOf(s, b).Sold? {
      SoldIsFullyTicketed(s, b);
      assert BookingOk(s, b);
      assert exists t :: IsLive(s, t) && s.db.tickets[t] == Ticket(b, 0, s.db.bookings[b].seats[0], false);
    } else {
      UnsoldIsTicketless(s, b);
    }
  }

  lemma BalancedStanding(a: Account, local: BookingState)
    requires InBalance(a) && StateOk(a.pc, local, a.state)
    ensures PhaseAt(a.pc, a.state).Sold? ==>
      a.payment.Some? && (a.payment.value.state.PayCaptured? || a.payment.value.state.PayAuthorized?)
    ensures a.payment.Some? && a.payment.value.state.PayCaptured? ==> PhaseAt(a.pc, a.state).Sold?
  {}

  lemma StandsIffTicketed(s: System, b: nat)
    requires CarefullyReachable(s) && b < |s.db.bookings|
    ensures Stands(s, b) <==> OwnsLiveTicket(s, b)
  {
    CarefullyReachableIsSettled(s);
    SoldIsLive(s, b);
    BalancedStanding(AccountOf(s, b), s.sagas[b].state);
  }

  lemma {:induction false} TakenIsCharged(s: System, n: nat, flight: nat)
    requires n <= |s.db.bookings|
    requires forall b: nat :: b < |s.db.bookings| ==> StandsRight(s, b)
    ensures Taken(s, n, flight) == ChargedValue(s, n, flight)
  {
    if n > 0 {
      TakenIsCharged(s, n - 1, flight);
      assert StandsRight(s, n - 1);
    }
  }

  ghost predicate StandsRight(s: System, b: nat)
    requires b < |s.db.bookings|
  {
    (Stands(s, b) <==> OwnsLiveTicket(s, b)) && (b in s.db.payments ==> s.db.payments[b].amount == s.db.bookings[b].total)
  }

  /** After every careful run, flight by flight: the prices of the sold seats are the amounts captured, plus the
    * amounts approved for bookings whose tickets are out and whose capture is still to come. */
  lemma SoldForWhatWasTaken(s: System, flight: nat)
    requires CarefullyReachable(s)
    ensures SoldValue(s.db.seats, |s.db.seats|, flight) == Taken(s, |s.db.bookings|, flight)
  {
    CarefulIsReachable(s);
    ReachableCharges(s);
    forall b: nat | b < |s.db.bookings| ensures StandsRight(s, b) {
      StandsIffTicketed(s, b);
      assert b in s.db.payments ==> PaymentRight(s, b);
    }
    TakenIsCharged(s, |s.db.bookings|, flight);
    RevenueIsConserved(s, flight);
  }

  lemma CarefulIsReachable(s: System)
    requires CarefullyReachable(s)
    ensures Reachable(s)
  {
    var cfg: Config, now: int, seats: seq<Seat>, steps: seq<Step> :|
      Seeded(seats) && CarefulRun(Start(cfg, now, seats), steps) && s == Exec(Start(cfg, now, seats), steps);
  }
}
