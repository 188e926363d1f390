/** The one path of events that every booking's log follows, and the arrows that bookings' states move along. */
module Paths {
  import opened Domain
  import opened Inventory
  import opened Store
  import opened Gateway
  import opened Machine
  import opened Safety
  import opened Steps
  import opened Runs
  import opened SeatRows
  import opened Trail

  // ----- the path of events -----

  datatype Stage =
    | Blank | Begun | Locked | InDoubt | Declined | Approved | Reclaimed | TicketsRefused | TicketsOut | Complete | CalledOff
    | Undoing | MoneyBack | TakenBack | GivenUp | Flagged
    | Astray

  function Follow(stage: Stage, event: Event): Stage {
    match event
    case EvBookingCreated => if stage == Blank then Begun else Astray
    case EvSeatsLocked => if stage == Begun then Locked else Astray
    case EvPaymentUnknown => if stage == Locked then InDoubt else Astray
    case EvPaymentDeclined => if stage == Locked || stage == InDoubt then Declined else Astray
    case EvPaymentAuthorized => if stage == Locked || stage == InDoubt then Approved else Astray
    case EvHoldLost => if stage == Approved || stage == Reclaimed then Reclaimed else Astray
    case EvTicketingFailed => if stage == Approved || stage == Reclaimed then TicketsRefused else Astray
    case EvTicketsIssued => if stage == Approved || stage == Reclaimed then TicketsOut else Astray
    case EvCompensationStarted => if stage == Reclaimed || stage == TicketsRefused then Undoing else Astray
    case EvPaymentVoided => if stage == Undoing then MoneyBack else Astray
    case EvPaymentRefunded => if stage == Undoing then MoneyBack else Astray
    case EvCompensationFailed => if stage == Undoing then GivenUp else if stage == TicketsOut || stage == Complete then stage else Astray
    case EvSeatsReleased => if stage == MoneyBack then TakenBack else if stage == GivenUp then Flagged else Astray
    case EvBookingConfirmed => if stage == TicketsOut then Complete else Astray
    case EvBookingCancelled => if stage == Complete then CalledOff else Astray
  }

  function FollowAll(stage: Stage, events: seq<Event>): Stage {
    if events == [] then stage else Follow(FollowAll(stage, events[..|events| - 1]), events[|events| - 1])
  }

  lemma {:induction false} FollowOn(stage: Stage, first: seq<Event>, rest: seq<Event>)
    ensures FollowAll(stage, first + rest) == FollowAll(FollowAll(stage, first), rest)
  {
    if rest == [] {
      assert first + rest == first;
    } else {
      assert (first + rest)[..|first + rest| - 1] == first + rest[..|rest| - 1];
      FollowOn(stage, first, rest[..|rest| - 1]);
    }
  }

  /** Where a booking's log stands, by its saga's control point and its own state. */
  predicate StandsAt(pc: Pc, state: BookingState, stage: Stage) {
    match pc
    case Opened => stage == Locked
    case Charging => stage == Locked
    case SawTimeout => stage == Locked
    case Retrying => stage == InDoubt
    case Answered(_) => stage == Locked || stage == InDoubt
    case Authorized => stage == Approved
    case Issuing => stage == TicketsOut
    case CaptureSent => stage == TicketsOut
    case Compensates => stage == Undoing
    case Reversed(_) => stage == Undoing
    case ReversalFailed => stage == Undoing
    case Failed => stage == Declined
    case Succeeded => stage == if state == Cancelled then CalledOff else Complete
    case Undone => stage == TakenBack
    case Stuck => stage == Flagged
    case Crashed => false
  }

  function StageOf(s: System, b: nat): Stage {
    FollowAll(Blank, EventsOf(s.db.audit, b))
  }

  ghost predicate OnTrail(s: System, b: nat) {
    if b < |s.sagas| && b < |s.db.bookings| then StandsAt(s.sagas[b].pc, s.db.bookings[b].state, StageOf(s, b))
    else StageOf(s, b) == Blank
  }

  ghost predicate AllOnTrail(s: System) {
    forall b: nat :: OnTrail(s, b)
  }

  lemma FollowShort(stage: Stage, one: Event, two: Event)
    ensures FollowAll(stage, [one]) == Follow(stage, one)
    ensures FollowAll(stage, [one, two]) == Follow(Follow(stage, one), two)
  {
    assert [one][..0] == [] && [one, two][..1] == [one];
  }

  lemma {:induction false} FollowLost(k: nat)
    ensures FollowAll(Approved, Repeat(EvHoldLost, k)) == if k == 0 then Approved else Reclaimed
  {
    if k > 0 {
      FollowLost(k - 1);
      var all := Repeat(EvHoldLost, k);
      assert all[..|all| - 1] == Repeat(EvHoldLost, k - 1);
    }
  }

  lemma RefusalFollows(k: nat, event: Event)
    requires event == EvHoldLost || event == EvTicketingFailed
    ensures FollowAll(Approved, Repeat(EvHoldLost, k) + [event, EvCompensationStarted]) == Undoing
  {
    FollowLost(k);
    FollowOn(Approved, Repeat(EvHoldLost, k), [event, EvCompensationStarted]);
    FollowShort(FollowAll(Approved, Repeat(EvHoldLost, k)), event, EvCompensationStarted);
  }

  lemma IssuanceFollows(k: nat)
    ensures FollowAll(Approved, Repeat(EvHoldLost, k) + [EvTicketsIssued]) == TicketsOut
  {
    FollowLost(k);
    FollowOn(Approved, Repeat(EvHoldLost, k), [EvTicketsIssued]);
    FollowShort(FollowAll(Approved, Repeat(EvHoldLost, k)), EvTicketsIssued, EvTicketsIssued);
  }

  lemma IssueFollows(s: System, b: nat, rejected: bool)
    requires b < |s.db.bookings|
    ensures FollowAll(Approved, IssueEvents(s, b, rejected)) == if KeepsAll(s, b) && !rejected then TicketsOut else Undoing
  {
    var k := |OutOfTime(s, b, |s.db.seats|)|;
    if !KeepsAll(s, b) {
      RefusalFollows(k, EvHoldLost);
    } else if rejected {
      RefusalFollows(k, EvTicketingFailed);
    } else {
      IssuanceFollows(k);
    }
  }

  /** Where a step that writes the log leaves its booking: the saga's control point and the booking's state. */
  datatype End = End(pc: Pc, state: BookingState)

  function EndOf(s: System, b: nat): End
    requires b < |s.sagas| && b < |s.db.bookings|
  {
    End(s.sagas[b].pc, s.db.bookings[b].state)
  }

  ghost function EndAfter(s: System, step: Step): End
    requires WritesLog(step) && step.b < |s.sagas| && step.b < |s.db.bookings|
  {
    var b := step.b;
    var here := EndOf(s, b);
    match step
    case FraudBlock(_) => if here.pc == Opened then End(Failed, PaymentFailed) else here
    case RecordTimeout(_) => if here.pc == SawTimeout then End(Retrying, here.state) else here
    case RecordAnswer(_) =>
      if !here.pc.Answered? then here
      else if here.pc.result.approved then End(Authorized, PaymentAuthorized)
      else End(Failed, PaymentFailed)
    case IssueTickets(_, rejected) =>
      if here.pc != Authorized then here
      else if KeepsAll(s, b) && !rejected then End(Issuing, Ticketed)
      else End(Compensates, Compensating)
    case FinishCompensation(_) =>
      if here.pc.Reversed? then End(Undone, Voided)
      else if here.pc.ReversalFailed? then End(Stuck, NeedsManualReview)
      else here
    case Confirm(_) => if here.pc == CaptureSent then End(Succeeded, Confirmed) else here
    case CancelCommit(_) =>
      if b !in s.cancels then here
      else if s.cancels[b].refund == RefundRejected then End(here.pc, NeedsManualReview)
      else if s.cancels[b].state == Confirmed then End(here.pc, Cancelled)
      else here
    case _ => here
  }

  ghost predicate EndsAt(t: System, b: nat, end: End) {
    b < |t.sagas| == |t.db.bookings| && EndOf(t, b) == end
  }

  lemma FraudEnds(s: System, b: nat)
    requires Local(s, b)
    ensures EndsAt(DoFraudBlock(s, b), b, EndAfter(s, FraudBlock(b)))
  {}

  lemma AnswerEnds(s: System, b: nat)
    requires Local(s, b)
    ensures EndsAt(DoRecordAnswer(s, b), b, EndAfter(s, RecordAnswer(b)))
  {}

  lemma IssueEnds(s: System, b: nat, rejected: bool)
    requires Safe(s) && Local(s, b)
    ensures EndsAt(DoIssueTickets(s, b, rejected), b, EndAfter(s, IssueTickets(b, rejected)))
  {
    if SagaAt(s, b, Authorized) {
      KeepsAllIffNoneLost(s, b);
      IssuedSeats(s.db, b, s.db.bookings[b].user, rejected, s.now);
    }
  }

  lemma FinishEnds(s: System, b: nat)
    requires Local(s, b)
    ensures EndsAt(DoFinishCompensation(s, b), b, EndAfter(s, FinishCompensation(b)))
  {
    if s.sagas[b].pc.Reversed? {
      FinishIsCommit(s, b);
    }
  }

  lemma CancelEnds(s: System, b: nat)
    requires Local(s, b)
    ensures EndsAt(DoCancelCommit(s, b), b, EndAfter(s, CancelCommit(b)))
  {}

  lemma ConfirmEnds(s: System, b: nat)
    requires Local(s, b)
    ensures EndsAt(DoConfirm(s, b), b, EndAfter(s, Confirm(b)))
  {}

  lemma TimeoutEnds(s: System, b: nat)
    requires Local(s, b)
    ensures EndsAt(DoRecordTimeout(s, b), b, EndAfter(s, RecordTimeout(b)))
  {}

  lemma SagaEnds(s: System, step: Step)
    requires Safe(s) && WritesLog(step) && Local(s, step.b)
    ensures EndsAt(Next(s, step), step.b, EndAfter(s, step))
  {
    match step
    case FraudBlock(b) => FraudEnds(s, b);
    case RecordAnswer(b) => AnswerEnds(s, b);
    case IssueTickets(b, rejected) => IssueEnds(s, b, rejected);
    case FinishCompensation(b) => FinishEnds(s, b);
    case CancelCommit(b) => CancelEnds(s, b);
    case Confirm(b) => ConfirmEnds(s, b);
    case RecordTimeout(b) => TimeoutEnds(s, b);
    case _ => {}
  }

  /** If the log stands where the saga and the booking do, then so it does after these events. */
  ghost predicate Leads(here: End, there: End, stage: Stage, events: seq<Event>) {
    StandsAt(here.pc, here.state, stage) ==> StandsAt(there.pc, there.state, FollowAll(stage, events))
  }

  lemma OneLeads(here: End, there: End, stage: Stage, event: Event)
    requires StandsAt(here.pc, here.state, stage) ==> StandsAt(there.pc, there.state, Follow(stage, event))
    ensures Leads(here, there, stage, [event])
  {
    FollowShort(stage, event, event);
  }

  lemma TwoLead(here: End, there: End, stage: Stage, one: Event, two: Event)
    requires StandsAt(here.pc, here.state, stage) ==> StandsAt(there.pc, there.state, Follow(Follow(stage, one), two))
    ensures Leads(here, there, stage, [one, two])
  {
    FollowShort(stage, one, two);
  }

  lemma NoneLeads(here: End, stage: Stage)
    ensures Leads(here, here, stage, [])
  {}

  lemma ChargeLeads(s: System, step: Step, stage: Stage)
    requires (step.FraudBlock? || step.RecordTimeout? || step.RecordAnswer?) && Local(s, step.b)
    ensures Leads(EndOf(s, step.b), EndAfter(s, step), stage, EventsWritten(s, step))
  {
    var here, there := EndOf(s, step.b), EndAfter(s, step);
    if there == here {
      NoneLeads(here, stage);
    } else if step.RecordTimeout? {
      OneLeads(here, there, stage, EvPaymentUnknown);
    } else if there.pc == Authorized {
      OneLeads(here, there, stage, EvPaymentAuthorized);
    } else {
      OneLeads(here, there, stage, EvPaymentDeclined);
    }
  }

  lemma IssueLeads(s: System, b: nat, rejected: bool, stage: Stage)
    requires Local(s, b)
    ensures Leads(EndOf(s, b), EndAfter(s, IssueTickets(b, rejected)), stage, EventsWritten(s, IssueTickets(b, rejected)))
  {
    if s.sagas[b].pc == Authorized {
      IssueFollows(s, b, rejected);
      IssuePath(s.db.bookings[b].state, EndAfter(s, IssueTickets(b, rejected)), stage, IssueEvents(s, b, rejected));
    } else {
      NoneLeads(EndOf(s, b), stage);
    }
  }

  lemma IssuePath(state: BookingState, there: End, stage: Stage, events: seq<Event>)
    requires there.pc == Issuing || there.pc == Compensates
    requires FollowAll(Approved, events) == if there.pc == Issuing then TicketsOut else Undoing
    ensures Leads(End(Authorized, state), there, stage, events)
  {}

  lemma FinishEvents(s: System, b: nat)
    requires b < |s.sagas| == |s.db.bookings|
    ensures EventsWritten(s, FinishCompensation(b)) ==
      match s.sagas[b].pc
      case Reversed(refunded) => [if refunded then EvPaymentRefunded else EvPaymentVoided, EvSeatsReleased]
      case ReversalFailed => [EvCompensationFailed, EvSeatsReleased]
      case _ => []
  {}

  lemma FinishLeads(s: System, b: nat, stage: Stage)
    requires b < |s.sagas| == |s.db.bookings|
    ensures Leads(EndOf(s, b), EndAfter(s, FinishCompensation(b)), stage, EventsWritten(s, FinishCompensation(b)))
  {
    FinishEvents(s, b);
    FinishPath(EndOf(s, b), EndAfter(s, FinishCompensation(b)), stage, EventsWritten(s, FinishCompensation(b)));
  }

  lemma FinishPath(here: End, there: End, stage: Stage, events: seq<Event>)
    requires match here.pc
      case Reversed(refunded) => there == End(Undone, Voided) && events == [if refunded then EvPaymentRefunded else EvPaymentVoided, EvSeatsReleased]
      case ReversalFailed => there == End(Stuck, NeedsManualReview) && events == [EvCompensationFailed, EvSeatsReleased]
      case _ => there == here && events == []
    ensures Leads(here, there, stage, events)
  {
    if |events| == 2 {
      TwoLead(here, there, stage, events[0], EvSeatsReleased);
    } else {
      NoneLeads(here, stage);
    }
  }

  lemma ConfirmLeads(s: System, b: nat, stage: Stage)
    requires Local(s, b)
    ensures Leads(EndOf(s, b), EndAfter(s, Confirm(b)), stage, EventsWritten(s, Confirm(b)))
  {
    if s.sagas[b].pc == CaptureSent {
      OneLeads(EndOf(s, b), End(Succeeded, Confirmed), stage, EvBookingConfirmed);
    } else {
      NoneLeads(EndOf(s, b), stage);
    }
  }

  lemma CancelLeads(s: System, b: nat, stage: Stage)
    requires Local(s, b)
    ensures Leads(EndOf(s, b), EndAfter(s, CancelCommit(b)), stage, EventsWritten(s, CancelCommit(b)))
  {
    CancelPath(EndOf(s, b), EndAfter(s, CancelCommit(b)), stage, EventsWritten(s, CancelCommit(b)));
  }

  lemma CancelPath(here: End, there: End, stage: Stage, events: seq<Event>)
    requires (there == here && events == [])
      || (there == here.(state := NeedsManualReview) && events == [EvCompensationFailed])
      || (there == here.(state := Cancelled) && events == [EvBookingCancelled] && here.pc.Succeeded?)
    requires events != [] ==> (here.pc.Issuing? || here.pc.CaptureSent? || here.pc.Succeeded?) && here.state != Cancelled
    ensures Leads(here, there, stage, events)
  {
    if events != [] {
      OneLeads(here, there, stage, events[0]);
    } else {
      NoneLeads(here, stage);
    }
  }

  lemma SagaLeads(s: System, step: Step, stage: Stage)
    requires WritesLog(step) && Local(s, step.b)
    ensures Leads(EndOf(s, step.b), EndAfter(s, step), stage, EventsWritten(s, step))
  {
    match step
    case IssueTickets(b, rejected) => IssueLeads(s, b, rejected, stage);
    case FinishCompensation(b) => FinishLeads(s, b, stage);
    case Confirm(b) => ConfirmLeads(s, b, stage);
    case CancelCommit(b) => CancelLeads(s, b, stage);
    case _ => ChargeLeads(s, step, stage);
  }

  /** A step that writes nothing leaves the log where its booking stands. */
  ghost predicate StandsStill(s: System, t: System, b: nat, stage: Stage) {
    && b < |s.sagas| && b < |s.db.bookings| && b < |t.sagas| == |t.db.bookings|
    && (StandsAt(s.sagas[b].pc, s.db.bookings[b].state, stage) ==> StandsAt(t.sagas[b].pc, t.db.bookings[b].state, stage))
  }

  lemma AuthorizeEnds(s: System, b: nat, trigger: Trigger)
    requires Local(s, b)
    ensures var t := DoAuthorize(s, b, trigger);
      && |t.sagas| == |s.sagas| && t.db == s.db
      && (t.sagas[b].pc == s.sagas[b].pc
          || (s.sagas[b].pc == Charging && (t.sagas[b].pc == SawTimeout || t.sagas[b].pc.Answered?))
          || (s.sagas[b].pc == Retrying && t.sagas[b].pc.Answered?))
  {}

  lemma AuthorizeStands(s: System, b: nat, trigger: Trigger, stage: Stage)
    requires Local(s, b)
    ensures StandsStill(s, DoAuthorize(s, b, trigger), b, stage)
  {
    AuthorizeEnds(s, b, trigger);
  }

  lemma ReverseStands(s: System, b: nat, ok: bool, stage: Stage)
    requires Local(s, b)
    ensures StandsStill(s, DoReverse(s, b, ok), b, stage)
  {}

  lemma CaptureStands(s: System, b: nat, stage: Stage)
    requires Local(s, b)
    ensures StandsStill(s, DoCapture(s, b), b, stage)
  {}

  lemma RefundStands(s: System, b: nat, ok: bool, stage: Stage)
    requires Local(s, b)
    ensures StandsStill(s, DoCancelRefund(s, b, ok), b, stage)
  {}

  lemma SilentLeads(s: System, step: Step, stage: Stage)
    requires Owner(step).Some? && !WritesLog(step) && Local(s, step.b)
    ensures StandsStill(s, Next(s, step), step.b, stage)
  {
    match step
    case Authorize(b, trigger) => AuthorizeStands(s, b, trigger, stage);
    case Reverse(b, ok) => ReverseStands(s, b, ok, stage);
    case Capture(b) => CaptureStands(s, b, stage);
    case CancelRefund(b, ok) => RefundStands(s, b, ok, stage);
    case _ => {}
  }

  // ----- every step, every run -----

  lemma StageMoves(s: System, t: System, b: nat, end: End, events: seq<Event>)
    requires b < |s.sagas| == |s.db.bookings| && OnTrail(s, b) && EndsAt(t, b, end)
    requires Leads(EndOf(s, b), end, StageOf(s, b), events)
    requires EventsOf(t.db.audit, b) == EventsOf(s.db.audit, b) + events
    ensures OnTrail(t, b)
  {
    FollowOn(Blank, EventsOf(s.db.audit, b), events);
  }

  lemma StageStays(s: System, t: System, c: nat)
    requires OnTrail(s, c) && EventsOf(t.db.audit, c) == EventsOf(s.db.audit, c)
    requires (c < |t.sagas| && c < |t.db.bookings|) == (c < |s.sagas| && c < |s.db.bookings|)
    requires c < |s.sagas| && c < |s.db.bookings| ==>
      t.sagas[c].pc == s.sagas[c].pc && t.db.bookings[c].state == s.db.bookings[c].state
    ensures OnTrail(t, c)
  {}

  lemma NewStage(s: System, t: System, b: nat)
    requires Safe(s) && Opens(s, t) && b == |s.db.bookings| && OnTrail(s, b)
    requires EventsOf(t.db.audit, b) == EventsOf(s.db.audit, b) + [EvBookingCreated, EvSeatsLocked]
    ensures OnTrail(t, b)
  {
    FollowOn(Blank, EventsOf(s.db.audit, b), [EvBookingCreated, EvSeatsLocked]);
    FollowShort(Blank, EvBookingCreated, EvSeatsLocked);
  }

  lemma OwnStage(s: System, step: Step, b: nat)
    requires Safe(s) && Owner(step) == Some(b) && Local(s, b) && OnTrail(s, b)
    ensures OnTrail(Next(s, step), b)
  {
    if WritesLog(step) {
      SagaLeads(s, step, StageOf(s, b));
      SagaEnds(s, step);
      NextSpeaks(s, step, b);
      StageMoves(s, Next(s, step), b, EndAfter(s, step), EventsWritten(s, step));
    } else {
      SilentLeads(s, step, StageOf(s, b));
      SilentStep(s, step);
    }
  }

  lemma SagaKeepsTrail(s: System, step: Step, b: nat)
    requires Safe(s) && Owner(step) == Some(b) && b < |s.sagas| && AllOnTrail(s)
    ensures AllOnTrail(Next(s, step))
  {
    var t := Next(s, step);
    SafeIsLocal(s, b);
    StepEffect(s, step);
    EffectIsFramed(s, t, step, b);
    OwnStage(s, step, b);
    forall c: nat ensures OnTrail(t, c) {
      if c != b {
        NextSpeaks(s, step, c);
        FramedStage(s, t, b, c);
      }
    }
  }

  lemma FramedStage(s: System, t: System, b: nat, c: nat)
    requires (t == s || FrameOf(s, t, b)) && c != b && AllOnTrail(s)
    requires EventsOf(t.db.audit, c) == EventsOf(s.db.audit, c) + []
    ensures OnTrail(t, c)
  {
    assert OnTrail(s, c);
    StageStays(s, t, c);
  }

  lemma FreeKeepsTrail(s: System, t: System)
    requires (Idles(s, t) || Shuffles(s, t)) && AllOnTrail(s)
    ensures AllOnTrail(t)
  {
    forall c: nat ensures OnTrail(t, c) {
      assert OnTrail(s, c);
      StageStays(s, t, c);
    }
  }

  lemma OpenKeepsTrail(s: System, t: System)
    requires Safe(s) && Opens(s, t) && AllOnTrail(s)
    requires Adds(s.db.audit, t.db.audit, |s.db.bookings|, [EvBookingCreated, EvSeatsLocked])
    ensures AllOnTrail(t)
  {
    forall c: nat ensures OnTrail(t, c) {
      assert OnTrail(s, c);
      if c == |s.db.bookings| {
        NewStage(s, t, c);
      } else {
        StageStays(s, t, c);
      }
    }
  }

  lemma CreateKeepsTrail(s: System, user: nat, key: string, holds: seq<nat>, passengers: nat)
    requires Safe(s) && AllOnTrail(s)
    ensures AllOnTrail(DoCreateBooking(s, user, key, holds, passengers))
  {
    OpensIffAccepted(s, user, key, holds, passengers);
    if Accepts(s, user, holds, passengers) {
      CreateBookingOpens(s, user, key, holds, passengers);
      OpenSpeaks(s, user, key, holds, passengers);
      OpenedGrows(s, user, key, holds, passengers);
      OpenKeepsTrail(s, DoCreateBooking(s, user, key, holds, passengers));
    }
  }

  lemma OpenedGrows(s: System, user: nat, key: string, holds: seq<nat>, passengers: nat)
    requires Store.CreateBooking(s.db, user, key, holds, s.now).Created? && ValidRequest(holds, passengers)
    ensures DoCreateBooking(s, user, key, holds, passengers) != s
  {
    assert |DoCreateBooking(s, user, key, holds, passengers).sagas| == |s.sagas| + 1;
  }

  lemma StepKeepsTrail(s: System, step: Step)
    requires Safe(s) && AllOnTrail(s)
    ensures AllOnTrail(Next(s, step))
  {
    if Owner(step).Some? {
      if Owner(step).value < |s.sagas| {
        SagaKeepsTrail(s, step, Owner(step).value);
      } else {
        NoSuchBooking(s, step);
      }
    } else if step.CreateBooking? {
      CreateKeepsTrail(s, step.user, step.key, step.holds, step.passengers);
    } else {
      StepEffect(s, step);
      FreeKeepsTrail(s, Next(s, step));
    }
  }

  lemma {:induction false} RunKeepsTrail(s: System, steps: seq<Step>)
    requires Safe(s) && AllOnTrail(s)
    ensures AllOnTrail(Exec(s, steps))
  {
    if steps != [] {
      var front, last := steps[..|steps| - 1], steps[|steps| - 1];
      RunKeepsTrail(s, front);
      RunIsSafe(s, front);
      StepKeepsTrail(Exec(s, front), last);
    }
  }

  /** In every reachable state every booking's log has followed the path of events, step by step, to where its saga
    * stands; and nothing is logged for a booking that does not exist. */
  lemma LogsFollowThePath(s: System, b: nat)
    requires Reachable(s)
    ensures |s.sagas| == |s.db.bookings|
    ensures if b < |s.db.bookings| then StandsAt(s.sagas[b].pc, s.db.bookings[b].state, FollowAll(Blank, EventsOf(s.db.audit, b)))
            else EventsOf(s.db.audit, b) == []
  {
    var cfg: Config, now: int, seats: seq<Seat>, steps: seq<Step> :| Seeded(seats) && s == Exec(Start(cfg, now, seats), steps);
    StartIsSafe(cfg, now, seats);
    RunKeepsTrail(Start(cfg, now, seats), steps);
    ReachableIsSafe(s);
    assert OnTrail(s, b);
    BlankIsEmpty(EventsOf(s.db.audit, b));
  }

  lemma BlankIsEmpty(events: seq<Event>)
    ensures FollowAll(Blank, events) == Blank ==> events == []
  {}

  // ----- which arrows are taken -----

  predicate Taken(a: BookingState, c: BookingState) {
    || (a == Pending && (c == PaymentAuthorized || c == PaymentFailed))
    || (a == PaymentAuthorized && (c == Ticketed || c == Compensating))
    || (a == Ticketed && c == Confirmed)
    || (a == Compensating && (c == Voided || c == NeedsManualReview))
    || (a == Confirmed && c == Cancelled)
  }

  /** Drawn in the transition table, and taken by nobody. */
  predicate NeverTaken(a: BookingState, c: BookingState) {
    || (a == Pending && c == Compensating)
    || (a == Ticketed && c == Compensating)
    || (a == NeedsManualReview && (c == Voided || c == Cancelled))
  }

  /** Taken although the table has no such arrow: a refused cancel refund, and a saga that confirms over one with the state
    * it remembers. */
  predicate OffTable(a: BookingState, c: BookingState) {
    || ((a == Ticketed || a == Confirmed) && c == NeedsManualReview)
    || (a == NeedsManualReview && c == Confirmed)
  }

  lemma TableOfArrows(a: BookingState, c: BookingState)
    ensures CanTransition(a, c) <==> Taken(a, c) || NeverTaken(a, c)
    ensures !(Taken(a, c) && NeverTaken(a, c)) && !(OffTable(a, c) && CanTransition(a, c))
  {}

  ghost predicate MovesAlong(s: System, t: System, b: nat) {
    && b < |s.db.bookings| && b < |t.db.bookings|
    && var before, after := s.db.bookings[b].state, t.db.bookings[b].state;
       after == before || Taken(before, after) || OffTable(before, after)
  }

  lemma EndMoves(s: System, step: Step)
    requires Safe(s) && WritesLog(step) && Local(s, step.b)
    ensures var before, after := s.db.bookings[step.b].state, EndAfter(s, step).state;
      after == before || Taken(before, after) || OffTable(before, after)
  {}

  lemma SilentState(s: System, step: Step)
    requires Owner(step).Some? && !WritesLog(step)
    ensures Next(s, step).db.bookings == s.db.bookings
  {}

  lemma OthersStateStays(s: System, t: System, step: Step, b: nat)
    requires Effect(s, t, step) && Owner(step) != Some(b) && b < |s.db.bookings|
    ensures b < |t.db.bookings| && t.db.bookings[b] == s.db.bookings[b]
  {}

  /** From every safe state, every step moves a booking's state along one of eight arrows of the table, or along one of
    * three that it does not have; four arrows of the table are taken by no step. */
  lemma StatesMoveAlong(s: System, step: Step, b: nat)
    requires Safe(s) && b < |s.db.bookings|
    ensures MovesAlong(s, Next(s, step), b)
  {
    if Owner(step) != Some(b) {
      StepEffect(s, step);
      OthersStateStays(s, Next(s, step), step, b);
    } else if WritesLog(step) {
      SafeIsLocal(s, b);
      SagaEnds(s, step);
      EndMoves(s, step);
    } else {
      SilentState(s, step);
    }
  }

  predicate IsFinal(state: BookingState) {
    state == PaymentFailed || state == Voided || state == Cancelled
  }

  /** A booking that failed its payment, was voided or was cancelled stays so in every continuation. */
  lemma {:induction false} FinalIsFinal(s: System, steps: seq<Step>, b: nat)
    requires Safe(s) && b < |s.db.bookings| && IsFinal(s.db.bookings[b].state)
    ensures b < |Exec(s, steps).db.bookings| && Exec(s, steps).db.bookings[b].state == s.db.bookings[b].state
  {
    if steps != [] {
      var front, last := steps[..|steps| - 1], steps[|steps| - 1];
      FinalIsFinal(s, front, b);
      RunIsSafe(s, front);
      StatesMoveAlong(Exec(s, front), last, b);
    }
  }
}
