/** Which events each step writes to the log of which booking. */
module Trail {
  import opened Domain
  import opened Inventory
  import opened Store
  import opened Machine
  import opened Safety
  import opened Steps
  import opened SeatRows
  import Journal

  /** The events of one booking, in order. */
  function EventsOf(audit: seq<AuditRow>, b: nat): seq<Event> {
    if audit == [] then []
    else
      var last := audit[|audit| - 1];
      EventsOf(audit[..|audit| - 1], b) + if last.booking == b then [last.event] else []
  }

  lemma RecordSpeaks(audit: seq<AuditRow>, b: nat, event: Event, from: Option<BookingState>, to: Option<BookingState>, c: nat)
    ensures EventsOf(Record(audit, b, event, from, to), c) == EventsOf(audit, c) + if b == c then [event] else []
  {
    var row := AuditRow(b, MaxNumber(audit, b) + 1, event, from, to);
    assert (audit + [row])[..|audit|] == audit;
  }

  function Repeat(event: Event, n: nat): seq<Event> {
    if n == 0 then [] else Repeat(event, n - 1) + [event]
  }

  // ----- the events of a step -----

  /** The seats below n that are still the booking's although their hold has run out. */
  ghost function OutOfTime(s: System, b: nat, n: nat): set<nat>
    requires b < |s.db.bookings| && n <= |s.db.seats|
  {
    set i: nat | i < n && i in s.db.bookings[b].seats && Carries(s, b, i)
      && (s.db.seats[i].expires.None? || s.db.seats[i].expires.value <= s.now)
  }

  /** What the re-check and the ticketing write for booking b. */
  ghost function IssueEvents(s: System, b: nat, rejected: bool): seq<Event>
    requires b < |s.db.bookings|
  {
    Repeat(EvHoldLost, |OutOfTime(s, b, |s.db.seats|)|)
    + if !KeepsAll(s, b) then [EvHoldLost, EvCompensationStarted]
      else if rejected then [EvTicketingFailed, EvCompensationStarted]
      else [EvTicketsIssued]
  }

  /** Whose log a step may write to. */
  function Subject(s: System, step: Step): Option<nat> {
    if step.CreateBooking? then Some(|s.db.bookings|) else Owner(step)
  }

  ghost function EventsWritten(s: System, step: Step): seq<Event> {
    match step
    case CreateBooking(user, _, holds, passengers) =>
      if Accepts(s, user, holds, passengers) then [EvBookingCreated, EvSeatsLocked] else []
    case FraudBlock(b) => if SagaIsAt(s, b, Opened) then [EvPaymentDeclined] else []
    case RecordTimeout(b) => if SagaIsAt(s, b, SawTimeout) then [EvPaymentUnknown] else []
    case RecordAnswer(b) =>
      if b >= |s.sagas| || !s.sagas[b].pc.Answered? then []
      else if s.sagas[b].pc.result.approved then [EvPaymentAuthorized]
      else [EvPaymentDeclined]
    case IssueTickets(b, rejected) => if SagaIsAt(s, b, Authorized) then IssueEvents(s, b, rejected) else []
    case FinishCompensation(b) =>
      if SagaIsAt(s, b, Reversed(false)) then [EvPaymentVoided, EvSeatsReleased]
      else if SagaIsAt(s, b, Reversed(true)) then [EvPaymentRefunded, EvSeatsReleased]
      else if SagaIsAt(s, b, ReversalFailed) then [EvCompensationFailed, EvSeatsReleased]
      else []
    case Confirm(b) => if SagaIsAt(s, b, CaptureSent) then [EvBookingConfirmed] else []
    case CancelCommit(b) =>
      if b !in s.cancels then []
      else if s.cancels[b].refund == RefundRejected then [EvCompensationFailed]
      else if s.cancels[b].state == Confirmed then [EvBookingCancelled]
      else []
    case _ => []
  }

  ghost predicate Adds(before: seq<AuditRow>, after: seq<AuditRow>, b: nat, events: seq<Event>) {
    forall c: nat :: EventsOf(after, c) == EventsOf(before, c) + if b == c then events else []
  }

  lemma WritesOne(audit: seq<AuditRow>, b: nat, event: Event, from: Option<BookingState>, to: Option<BookingState>)
    ensures Adds(audit, Record(audit, b, event, from, to), b, [event])
  {
    forall c: nat ensures EventsOf(Record(audit, b, event, from, to), c) == EventsOf(audit, c) + if b == c then [event] else [] {
      RecordSpeaks(audit, b, event, from, to, c);
    }
  }

  lemma WritesMore(audit: seq<AuditRow>, some: seq<AuditRow>, more: seq<AuditRow>, b: nat, first: seq<Event>, rest: seq<Event>)
    requires Adds(audit, some, b, first) && Adds(some, more, b, rest)
    ensures Adds(audit, more, b, first + rest)
  {
    forall c: nat ensures EventsOf(more, c) == EventsOf(audit, c) + if b == c then first + rest else [] {
      assert EventsOf(some, c) == EventsOf(audit, c) + if b == c then first else [];
      assert EventsOf(more, c) == EventsOf(some, c) + if b == c then rest else [];
    }
  }

  lemma WritesTwo(audit: seq<AuditRow>, b: nat, one: Event, from: Option<BookingState>, to: Option<BookingState>, two: Event)
    ensures Adds(audit, Note(Record(audit, b, one, from, to), b, two), b, [one, two])
  {
    var some := Record(audit, b, one, from, to);
    WritesOne(audit, b, one, from, to);
    WritesOne(some, b, two, None, None);
    WritesMore(audit, some, Note(some, b, two), b, [one], [two]);
    assert [one] + [two] == [one, two];
  }

  ghost predicate Unclaimed(s: System, b: nat, i: nat)
    requires b < |s.db.bookings| && i < |s.db.seats|
  {
    i in s.db.bookings[b].seats && !Lost(s.db.seats[i], b, s.db.bookings[b].user) && Lapsed(s.db.seats[i], s.now)
  }

  function Reclaims(s: System, b: nat, n: nat): seq<AuditRow>
    requires b < |s.db.bookings| && n <= |s.db.seats|
  {
    NoteReclaimed(s.db.audit, s.db.seats, n, s.db.bookings[b].seats, b, s.db.bookings[b].user, s.now)
  }

  /** One row for every seat that is out of time, and no other. */
  lemma {:induction false} ReclaimsSpeak(s: System, b: nat, n: nat)
    requires b < |s.db.bookings| && n <= |s.db.seats|
    ensures ReclaimsSpoken(s, b, n)
  {
    if n == 0 {
      assert OutOfTime(s, b, 0) == {};
    } else {
      ReclaimsSpeak(s, b, n - 1);
      ReclaimStep(s, b, n - 1);
    }
  }

  ghost predicate ReclaimsSpoken(s: System, b: nat, n: nat)
    requires b < |s.db.bookings| && n <= |s.db.seats|
  {
    Adds(s.db.audit, Reclaims(s, b, n), b, Repeat(EvHoldLost, |OutOfTime(s, b, n)|))
  }

  lemma ReclaimStep(s: System, b: nat, i: nat)
    requires b < |s.db.bookings| && i < |s.db.seats| && ReclaimsSpoken(s, b, i)
    ensures ReclaimsSpoken(s, b, i + 1)
  {
    OneMoreSeat(s, b, i);
    OneMoreReclaim(s.db.audit, Reclaims(s, b, i), Reclaims(s, b, i + 1), b,
                   |OutOfTime(s, b, i)|, |OutOfTime(s, b, i + 1)|, Unclaimed(s, b, i));
  }

  lemma OneMoreReclaim(audit: seq<AuditRow>, some: seq<AuditRow>, more: seq<AuditRow>, b: nat, k: nat, m: nat, unclaimed: bool)
    requires Adds(audit, some, b, Repeat(EvHoldLost, k))
    requires more == if unclaimed then Note(some, b, EvHoldLost) else some
    requires m == k + if unclaimed then 1 else 0
    ensures Adds(audit, more, b, Repeat(EvHoldLost, m))
  {
    if unclaimed {
      WritesOne(some, b, EvHoldLost, None, None);
      WritesMore(audit, some, more, b, Repeat(EvHoldLost, k), [EvHoldLost]);
    }
  }

  lemma OneMoreSeat(s: System, b: nat, i: nat)
    requires b < |s.db.bookings| && i < |s.db.seats|
    ensures Reclaims(s, b, i + 1) == if Unclaimed(s, b, i) then Note(Reclaims(s, b, i), b, EvHoldLost) else Reclaims(s, b, i)
    ensures |OutOfTime(s, b, i + 1)| == |OutOfTime(s, b, i)| + if Unclaimed(s, b, i) then 1 else 0
  {
    assert OutOfTime(s, b, i + 1) == OutOfTime(s, b, i) + if Unclaimed(s, b, i) then {i} else {};
  }

  lemma IssueSpeaks(s: System, b: nat, rejected: bool)
    requires Safe(s) && Local(s, b) && SagaAt(s, b, Authorized)
    ensures Adds(s.db.audit, DoIssueTickets(s, b, rejected).db.audit, b, IssueEvents(s, b, rejected))
  {
    KeepsAllIffNoneLost(s, b);
    Journal.IssueTicketsWrites(s, b, rejected);
    var notes := Reclaims(s, b, |s.db.seats|);
    ReclaimsSpeak(s, b, |s.db.seats|);
    var first := Repeat(EvHoldLost, |OutOfTime(s, b, |s.db.seats|)|);
    var after := DoIssueTickets(s, b, rejected).db.audit;
    if !KeepsAll(s, b) || rejected {
      var event := if !KeepsAll(s, b) then EvHoldLost else EvTicketingFailed;
      TwoMore(notes, b, event, EvCompensationStarted, Some(PaymentAuthorized), Some(Compensating));
      WritesMore(s.db.audit, notes, after, b, first, [event, EvCompensationStarted]);
    } else {
      WritesOne(notes, b, EvTicketsIssued, Some(PaymentAuthorized), Some(Ticketed));
      WritesMore(s.db.audit, notes, after, b, first, [EvTicketsIssued]);
    }
  }

  lemma TwoMore(audit: seq<AuditRow>, b: nat, one: Event, two: Event, from: Option<BookingState>, to: Option<BookingState>)
    ensures Adds(audit, Record(Note(audit, b, one), b, two, from, to), b, [one, two])
  {
    var some := Note(audit, b, one);
    WritesOne(audit, b, one, None, None);
    WritesOne(some, b, two, from, to);
    WritesMore(audit, some, Record(some, b, two, from, to), b, [one], [two]);
    assert [one] + [two] == [one, two];
  }

  lemma FraudSpeaks(s: System, b: nat)
    requires Local(s, b)
    ensures Adds(s.db.audit, DoFraudBlock(s, b).db.audit, b, EventsWritten(s, FraudBlock(b)))
  {
    if SagaAt(s, b, Opened) {
      WritesOne(s.db.audit, b, EvPaymentDeclined, Some(Pending), Some(PaymentFailed));
    }
  }

  lemma TimeoutSpeaks(s: System, b: nat)
    requires Local(s, b)
    ensures Adds(s.db.audit, DoRecordTimeout(s, b).db.audit, b, EventsWritten(s, RecordTimeout(b)))
  {
    WritesOne(s.db.audit, b, EvPaymentUnknown, None, None);
  }

  lemma AnswerAudit(s: System, b: nat)
    requires Local(s, b) && s.sagas[b].pc.Answered?
    ensures DoRecordAnswer(s, b).db.audit ==
      if s.sagas[b].pc.result.approved then Record(s.db.audit, b, EvPaymentAuthorized, Some(Pending), Some(PaymentAuthorized))
      else Record(s.db.audit, b, EvPaymentDeclined, Some(Pending), Some(PaymentFailed))
  {}

  lemma AnswerSpeaks(s: System, b: nat)
    requires Local(s, b)
    ensures Adds(s.db.audit, DoRecordAnswer(s, b).db.audit, b, EventsWritten(s, RecordAnswer(b)))
  {
    if s.sagas[b].pc.Answered? {
      AnswerAudit(s, b);
      WritesOne(s.db.audit, b, EvPaymentAuthorized, Some(Pending), Some(PaymentAuthorized));
      WritesOne(s.db.audit, b, EvPaymentDeclined, Some(Pending), Some(PaymentFailed));
    }
  }

  lemma ReversedAudit(s: System, b: nat)
    requires Local(s, b) && s.sagas[b].pc.Reversed?
    ensures DoFinishCompensation(s, b).db.audit
      == Note(Note(s.db.audit, b, if s.sagas[b].pc.refunded then EvPaymentRefunded else EvPaymentVoided), b, EvSeatsReleased)
  {}

  lemma FlaggedRows(db: Tables, b: nat)
    requires Exists(db, b)
    ensures Store.CompensationFailed(db, b, Compensating).audit
      == Note(Record(db.audit, b, EvCompensationFailed, Some(Compensating), Some(NeedsManualReview)), b, EvSeatsReleased)
  {}

  lemma FlaggedIsCommit(s: System, b: nat)
    requires Local(s, b) && s.sagas[b].pc.ReversalFailed?
    ensures DoFinishCompensation(s, b).db == Store.CompensationFailed(s.db, b, Compensating)
  {}

  lemma ReversedSpeaks(s: System, b: nat)
    requires Local(s, b) && s.sagas[b].pc.Reversed?
    ensures Adds(s.db.audit, DoFinishCompensation(s, b).db.audit, b, EventsWritten(s, FinishCompensation(b)))
  {
    ReversedAudit(s, b);
    WritesTwo(s.db.audit, b, if s.sagas[b].pc.refunded then EvPaymentRefunded else EvPaymentVoided, None, None, EvSeatsReleased);
  }

  lemma FlaggedSpeaks(s: System, b: nat)
    requires Local(s, b) && s.sagas[b].pc.ReversalFailed?
    ensures Adds(s.db.audit, DoFinishCompensation(s, b).db.audit, b, EventsWritten(s, FinishCompensation(b)))
  {
    FlaggedIsCommit(s, b);
    FlaggedRows(s.db, b);
    WritesTwo(s.db.audit, b, EvCompensationFailed, Some(Compensating), Some(NeedsManualReview), EvSeatsReleased);
  }

  lemma FinishSpeaks(s: System, b: nat)
    requires Local(s, b)
    ensures Adds(s.db.audit, DoFinishCompensation(s, b).db.audit, b, EventsWritten(s, FinishCompensation(b)))
  {
    if s.sagas[b].pc.Reversed? {
      ReversedSpeaks(s, b);
    } else if s.sagas[b].pc.ReversalFailed? {
      FlaggedSpeaks(s, b);
    }
  }

  lemma ConfirmAudit(s: System, b: nat)
    requires Local(s, b) && SagaAt(s, b, CaptureSent)
    ensures DoConfirm(s, b).db.audit == Record(s.db.audit, b, EvBookingConfirmed, Some(Ticketed), Some(Confirmed))
  {}

  lemma ConfirmSpeaks(s: System, b: nat)
    requires Local(s, b)
    ensures Adds(s.db.audit, DoConfirm(s, b).db.audit, b, EventsWritten(s, Confirm(b)))
  {
    if SagaAt(s, b, CaptureSent) {
      ConfirmAudit(s, b);
      WritesOne(s.db.audit, b, EvBookingConfirmed, Some(Ticketed), Some(Confirmed));
    }
  }

  lemma CancelSpeaks(s: System, b: nat)
    requires Local(s, b)
    ensures Adds(s.db.audit, DoCancelCommit(s, b).db.audit, b, EventsWritten(s, CancelCommit(b)))
  {
    if b in s.cancels {
      CancelAudit(s, b);
      if s.cancels[b].refund.RefundRejected? {
        WritesOne(s.db.audit, b, EvCompensationFailed, Some(s.cancels[b].state), Some(NeedsManualReview));
      } else if s.cancels[b].state == Confirmed {
        WritesOne(s.db.audit, b, EvBookingCancelled, Some(Confirmed), Some(Cancelled));
      }
    }
  }

  lemma CancelAudit(s: System, b: nat)
    requires Local(s, b) && b in s.cancels
    ensures var state := s.cancels[b].state;
      DoCancelCommit(s, b).db.audit ==
        if s.cancels[b].refund.RefundRejected? then Record(s.db.audit, b, EvCompensationFailed, Some(state), Some(NeedsManualReview))
        else if state == Confirmed then Record(s.db.audit, b, EvBookingCancelled, Some(state), Some(Cancelled))
        else s.db.audit
  {}

  lemma OpenSpeaks(s: System, user: nat, key: string, holds: seq<nat>, passengers: nat)
    requires Safe(s)
    ensures Adds(s.db.audit, DoCreateBooking(s, user, key, holds, passengers).db.audit, |s.db.bookings|,
                 EventsWritten(s, CreateBooking(user, key, holds, passengers)))
  {
    OpensIffAccepted(s, user, key, holds, passengers);
    if Accepts(s, user, holds, passengers) {
      WritesTwo(s.db.audit, |s.db.bookings|, EvBookingCreated, None, Some(Pending), EvSeatsLocked);
      OpenedAudit(s, user, key, holds, passengers);
    }
  }

  lemma OpenedAudit(s: System, user: nat, key: string, holds: seq<nat>, passengers: nat)
    requires Store.CreateBooking(s.db, user, key, holds, s.now).Created? && ValidRequest(holds, passengers)
    ensures DoCreateBooking(s, user, key, holds, passengers).db.audit
      == Note(Record(s.db.audit, |s.db.bookings|, EvBookingCreated, None, Some(Pending)), |s.db.bookings|, EvSeatsLocked)
  {}

  predicate WritesLog(step: Step) {
    step.FraudBlock? || step.RecordTimeout? || step.RecordAnswer? || step.IssueTickets? || step.FinishCompensation? || step.Confirm?
    || step.CancelCommit?
  }

  lemma SilentStep(s: System, step: Step)
    requires !WritesLog(step) && !step.CreateBooking?
    ensures Next(s, step).db.audit == s.db.audit && EventsWritten(s, step) == []
  {}

  lemma IssueMaySpeak(s: System, b: nat, rejected: bool)
    requires Safe(s) && Local(s, b)
    ensures Adds(s.db.audit, DoIssueTickets(s, b, rejected).db.audit, b, EventsWritten(s, IssueTickets(b, rejected)))
  {
    if SagaAt(s, b, Authorized) {
      IssueSpeaks(s, b, rejected);
    }
  }

  lemma PaymentSpeaks(s: System, step: Step)
    requires (step.FraudBlock? || step.RecordTimeout? || step.RecordAnswer?) && Safe(s) && Local(s, step.b)
    ensures Adds(s.db.audit, Next(s, step).db.audit, step.b, EventsWritten(s, step))
  {
    match step
    case FraudBlock(b) => FraudSpeaks(s, b);
    case RecordTimeout(b) => TimeoutSpeaks(s, b);
    case RecordAnswer(b) => AnswerSpeaks(s, b);
  }

  lemma SagaSpeaks(s: System, step: Step)
    requires Safe(s) && WritesLog(step) && Local(s, step.b)
    ensures Adds(s.db.audit, Next(s, step).db.audit, step.b, EventsWritten(s, step))
  {
    match step
    case FraudBlock(_) => PaymentSpeaks(s, step);
    case RecordTimeout(_) => PaymentSpeaks(s, step);
    case RecordAnswer(_) => PaymentSpeaks(s, step);
    case IssueTickets(b, rejected) => IssueMaySpeak(s, b, rejected);
    case FinishCompensation(b) => FinishSpeaks(s, b);
    case Confirm(b) => ConfirmSpeaks(s, b);
    case CancelCommit(b) => CancelSpeaks(s, b);
    case _ => {}
  }

  /** From every safe state, a step adds exactly these events to the log of its own booking, and nothing to any
    * other's. */
  lemma NextSpeaks(s: System, step: Step, c: nat)
    requires Safe(s)
    ensures EventsOf(Next(s, step).db.audit, c)
      == EventsOf(s.db.audit, c) + if Subject(s, step) == Some(c) then EventsWritten(s, step) else []
  {
    if step.CreateBooking? {
      OpenSpeaks(s, step.user, step.key, step.holds, step.passengers);
    } else if !WritesLog(step) {
      SilentStep(s, step);
    } else if step.b < |s.sagas| {
      SafeIsLocal(s, step.b);
      SagaSpeaks(s, step);
    } else {
      NoSuchBooking(s, step);
      NobodySpeaks(s, step);
    }
  }

  lemma NobodySpeaks(s: System, step: Step)
    requires Safe(s) && WritesLog(step) && step.b >= |s.sagas|
    ensures EventsWritten(s, step) == []
  {}
}
