/** The audit log is a journal: gap-free per booking, and replaying it gives the booking's state. */
module Journal {
  import opened Domain
  import opened Inventory
  import opened Store
  import opened Gateway
  import opened Machine
  import opened Safety
  import opened Steps
  import opened Runs

  /** One booking's rows, in order. */
  function Rows(audit: seq<AuditRow>, b: nat): seq<AuditRow> {
    if audit == [] then []
    else
      var last := audit[|audit| - 1];
      Rows(audit[..|audit| - 1], b) + if last.booking == b then [last] else []
  }

  /** A row's effect on the state a reader has reconstructed so far. The move to VOIDED is journalled
    * by its payment event, without a to_state. */
  function Replayed(state: Option<BookingState>, row: AuditRow): Option<BookingState> {
    if row.to.Some? then row.to
    else if row.event.EvPaymentVoided? || row.event.EvPaymentRefunded? then Some(Voided)
    else state
  }

  function Replay(rows: seq<AuditRow>): Option<BookingState> {
    if rows == [] then None else Replayed(Replay(rows[..|rows| - 1]), rows[|rows| - 1])
  }

  /** An arrow of the transition table, or the one edge a refused cancel refund takes outside it. */
  predicate LegalArrow(before: BookingState, after: BookingState) {
    CanTransition(before, after) || (before == Confirmed && after == NeedsManualReview)
  }

  /** The row continues the path: it starts where the journal stands and follows an arrow. */
  predicate LegalRow(state: Option<BookingState>, row: AuditRow) {
    var after := Replayed(state, row);
    && (row.from.Some? ==> row.from == state)
    && (after == state
        || (state.None? && after == Some(Pending))
        || (state.Some? && after.Some? && LegalArrow(state.value, after.value)))
  }

  predicate LegalPath(rows: seq<AuditRow>) {
    rows == [] || (LegalPath(rows[..|rows| - 1]) && LegalRow(Replay(rows[..|rows| - 1]), rows[|rows| - 1]))
  }

  predicate Numbered(rows: seq<AuditRow>) {
    forall k :: 0 <= k < |rows| ==> rows[k].number == k + 1
  }

  // ----- what one call of record does -----

  lemma {:induction false} MaxNumberIsCount(audit: seq<AuditRow>, b: nat)
    requires Numbered(Rows(audit, b))
    ensures MaxNumber(audit, b) == |Rows(audit, b)|
  {
    if audit != [] {
      var front := audit[..|audit| - 1];
      var rows := Rows(front, b);
      assert rows == Rows(audit, b)[..|rows|];
      assert forall k :: 0 <= k < |rows| ==> Rows(audit, b)[k] == rows[k];
      MaxNumberIsCount(front, b);
      if audit[|audit| - 1].booking == b {
        assert Rows(audit, b)[|rows|].number == |rows| + 1;
      }
    }
  }

  lemma RecordAppends(audit: seq<AuditRow>, c: nat, event: Event, from: Option<BookingState>, to: Option<BookingState>, b: nat)
    requires Numbered(Rows(audit, b))
    ensures
      Rows(Record(audit, c, event, from, to), b)
      == Rows(audit, b) + if b == c then [AuditRow(b, |Rows(audit, b)| + 1, event, from, to)] else []
  {
    RowsOfOneMore(audit, AuditRow(c, MaxNumber(audit, c) + 1, event, from, to), b);
    if b == c {
      MaxNumberIsCount(audit, b);
    }
  }

  lemma RowsOfOneMore(audit: seq<AuditRow>, row: AuditRow, b: nat)
    ensures Rows(audit + [row], b) == Rows(audit, b) + if row.booking == b then [row] else []
  {
    assert (audit + [row])[..|audit|] == audit;
  }

  lemma AppendReplays(rows: seq<AuditRow>, row: AuditRow)
    ensures Replay(rows + [row]) == Replayed(Replay(rows), row)
    ensures LegalPath(rows + [row]) == (LegalPath(rows) && LegalRow(Replay(rows), row))
  {
    assert (rows + [row])[..|rows|] == rows;
  }

  /** What the journal of one booking says at one moment. */
  datatype Story = Story(length: nat, numbered: bool, state: Option<BookingState>, legal: bool)

  function StoryOf(audit: seq<AuditRow>, b: nat): Story {
    var rows := Rows(audit, b);
    Story(|rows|, Numbered(rows), Replay(rows), LegalPath(rows))
  }

  /** Recording extends exactly one booking's story, by one row with the next number. */
  lemma RecordTells(audit: seq<AuditRow>, c: nat, event: Event, from: Option<BookingState>, to: Option<BookingState>, b: nat)
    requires StoryOf(audit, b).numbered
    ensures
      var before := StoryOf(audit, b);
      var row := AuditRow(b, before.length + 1, event, from, to);
      StoryOf(Record(audit, c, event, from, to), b)
      == if b == c then Story(before.length + 1, true, Replayed(before.state, row), before.legal && LegalRow(before.state, row))
         else before
  {
    RecordAppends(audit, c, event, from, to, b);
    assert Rows(audit, b) + [] == Rows(audit, b);
    if b == c {
      assert Numbered(Rows(Record(audit, c, event, from, to), b));
      AppendReplays(Rows(audit, b), AuditRow(b, |Rows(audit, b)| + 1, event, from, to));
    }
  }

  lemma NoteTells(audit: seq<AuditRow>, c: nat, event: Event, b: nat)
    requires StoryOf(audit, b).numbered
    ensures
      var before := StoryOf(audit, b);
      var row := AuditRow(b, before.length + 1, event, None, None);
      StoryOf(Note(audit, c, event), b)
      == if b == c then Story(before.length + 1, true, Replayed(before.state, row), before.legal && LegalRow(before.state, row))
         else before
  {
    RecordTells(audit, c, event, None, None, b);
  }

  // ----- the invariant -----

  /** The journal of b is gap-free and replays to b's committed state; nothing is written for bookings
    * that do not exist. */
  ghost predicate Journalled(s: System, b: nat) {
    var story := StoryOf(s.db.audit, b);
    story.numbered
    && story.state == if b < |s.db.bookings| then Some(s.db.bookings[b].state) else None
  }

  ghost predicate AllJournalled(s: System) {
    forall b: nat :: Journalled(s, b)
  }

  /** The journal's path follows the arrows, and no booking was pushed off it while its saga still ran. */
  ghost predicate OnPath(s: System, b: nat) {
    && StoryOf(s.db.audit, b).legal
    && (b < |s.sagas| && b < |s.db.bookings| && (s.sagas[b].pc.Issuing? || s.sagas[b].pc.CaptureSent?) ==>
         s.db.bookings[b].state == Ticketed)
  }

  ghost predicate AllOnPath(s: System) {
    forall b: nat :: OnPath(s, b)
  }

  /** The one step that leaves the path: committing a refused refund for a cancel that loaded TICKETED. */
  ghost predicate LeavesPath(s: System, step: Step) {
    && step.CancelCommit? && step.b in s.cancels && step.b < |s.db.bookings|
    && s.cancels[step.b].refund.RefundRejected? && s.cancels[step.b].state == Ticketed
  }

  /** Only booking b's journal grew. */
  ghost predicate OthersSilent(s: System, t: System, b: nat) {
    forall c: nat :: c != b && StoryOf(s.db.audit, c).numbered ==> StoryOf(t.db.audit, c) == StoryOf(s.db.audit, c)
  }

  /** Rows without a state were added, and only to booking b's story. */
  predicate OnlyNoted(before: Story, after: Story, own: bool) {
    after == before.(length := after.length) && (!own ==> after.length == before.length)
  }

  lemma MaybeNoteTells(audit: seq<AuditRow>, after: seq<AuditRow>, b: nat, c: nat)
    requires StoryOf(audit, c).numbered && (after == audit || after == Note(audit, b, EvHoldLost))
    ensures OnlyNoted(StoryOf(audit, c), StoryOf(after, c), c == b)
  {
    NoteTells(audit, b, EvHoldLost, c);
  }

  lemma ReclaimedIsMaybeNote(audit: seq<AuditRow>, seats: seq<Seat>, n: nat, ids: seq<nat>, b: nat, user: nat, now: int)
    requires 0 < n <= |seats|
    ensures var front := NoteReclaimed(audit, seats, n - 1, ids, b, user, now);
      var after := NoteReclaimed(audit, seats, n, ids, b, user, now);
      after == front || after == Note(front, b, EvHoldLost)
  {}

  lemma {:induction false} ReclaimedTells(audit: seq<AuditRow>, seats: seq<Seat>, n: nat, ids: seq<nat>, b: nat, user: nat, now: int, c: nat)
    requires n <= |seats| && StoryOf(audit, c).numbered
    ensures OnlyNoted(StoryOf(audit, c), StoryOf(NoteReclaimed(audit, seats, n, ids, b, user, now), c), c == b)
  {
    if n > 0 {
      ReclaimedTells(audit, seats, n - 1, ids, b, user, now, c);
      ReclaimedIsMaybeNote(audit, seats, n, ids, b, user, now);
      MaybeNoteTells(NoteReclaimed(audit, seats, n - 1, ids, b, user, now), NoteReclaimed(audit, seats, n, ids, b, user, now), b, c);
    }
  }

  /** A step of booking b that leaves the others' journals alone, keeps b's journal true, and stays on the
    * path exactly when it is not the one that leaves it. */
  ghost predicate Tells(s: System, t: System, b: nat, leaves: bool) {
    && OthersSilent(s, t, b) && Journalled(t, b)
    && (OnPath(s, b) ==> (OnPath(t, b) <==> !leaves))
  }

  lemma OneRowTells(s: System, t: System, b: nat, event: Event, from: Option<BookingState>, to: Option<BookingState>)
    requires AllJournalled(s)
    requires t.db.audit == Record(s.db.audit, b, event, from, to)
    ensures OthersSilent(s, t, b)
    ensures
      var before := StoryOf(s.db.audit, b);
      var row := AuditRow(b, before.length + 1, event, from, to);
      StoryOf(t.db.audit, b) == Story(before.length + 1, true, Replayed(before.state, row), before.legal && LegalRow(before.state, row))
  {
    assert Journalled(s, b);
    RecordTells(s.db.audit, b, event, from, to, b);
    forall c: nat | c != b && StoryOf(s.db.audit, c).numbered ensures StoryOf(t.db.audit, c) == StoryOf(s.db.audit, c) {
      RecordTells(s.db.audit, b, event, from, to, c);
    }
  }

  lemma SilentTells(s: System, t: System, b: nat)
    requires AllJournalled(s) && Local(s, b) && FrameOf(s, t, b) && t.db.audit == s.db.audit
    requires t.db.bookings[b].state == s.db.bookings[b].state
    requires s.sagas[b].pc.Issuing? || s.sagas[b].pc.CaptureSent? || !(t.sagas[b].pc.Issuing? || t.sagas[b].pc.CaptureSent?)
    ensures Tells(s, t, b, false)
  {
    assert Journalled(s, b);
  }

  lemma TimeoutTells(s: System, b: nat)
    requires AllJournalled(s) && Local(s, b) && SagaAt(s, b, SawTimeout)
    ensures Tells(s, DoRecordTimeout(s, b), b, false)
  {
    assert Journalled(s, b);
    OneRowTells(s, DoRecordTimeout(s, b), b, EvPaymentUnknown, None, None);
  }

  lemma FraudBlockTells(s: System, b: nat)
    requires AllJournalled(s) && Local(s, b) && SagaAt(s, b, Opened)
    ensures Tells(s, DoFraudBlock(s, b), b, false)
  {
    assert Journalled(s, b);
    OneRowTells(s, DoFraudBlock(s, b), b, EvPaymentDeclined, Some(Pending), Some(PaymentFailed));
  }

  lemma ApprovalTells(s: System, b: nat)
    requires AllJournalled(s) && Local(s, b) && s.sagas[b].pc.Answered? && s.sagas[b].pc.result.approved
    ensures Tells(s, DoRecordAnswer(s, b), b, false)
  {
    assert Journalled(s, b);
    OneRowTells(s, DoRecordAnswer(s, b), b, EvPaymentAuthorized, Some(Pending), Some(PaymentAuthorized));
  }

  lemma DeclineTells(s: System, b: nat)
    requires AllJournalled(s) && Local(s, b) && s.sagas[b].pc.Answered? && !s.sagas[b].pc.result.approved
    ensures Tells(s, DoRecordAnswer(s, b), b, false)
  {
    assert Journalled(s, b);
    OneRowTells(s, DoRecordAnswer(s, b), b, EvPaymentDeclined, Some(Pending), Some(PaymentFailed));
  }

  lemma ConfirmTells(s: System, b: nat)
    requires AllJournalled(s) && Local(s, b) && SagaAt(s, b, CaptureSent)
    ensures Tells(s, DoConfirm(s, b), b, false)
  {
    assert Journalled(s, b);
    OneRowTells(s, DoConfirm(s, b), b, EvBookingConfirmed, Some(Ticketed), Some(Confirmed));
  }

  lemma FlaggedTells(s: System, b: nat)
    requires AllJournalled(s) && Local(s, b) && b in s.cancels && s.cancels[b].refund.RefundRejected?
    ensures Tells(s, DoCancelCommit(s, b), b, LeavesPath(s, CancelCommit(b)))
  {
    assert Journalled(s, b);
    OneRowTells(s, DoCancelCommit(s, b), b, EvCompensationFailed, Some(s.cancels[b].state), Some(NeedsManualReview));
  }

  lemma CancelledTells(s: System, b: nat)
    requires AllJournalled(s) && Local(s, b) && b in s.cancels && !s.cancels[b].refund.RefundRejected? && s.cancels[b].state == Confirmed
    ensures Tells(s, DoCancelCommit(s, b), b, LeavesPath(s, CancelCommit(b)))
  {
    assert Journalled(s, b);
    CancelledAudit(s, b);
    OneRowTells(s, DoCancelCommit(s, b), b, EvBookingCancelled, Some(Confirmed), Some(Cancelled));
  }

  lemma CancelledAudit(s: System, b: nat)
    requires b < |s.db.bookings| && b in s.cancels && !s.cancels[b].refund.RefundRejected? && s.cancels[b].state == Confirmed
    ensures var t := DoCancelCommit(s, b);
      && t.db.audit == Record(s.db.audit, b, EvBookingCancelled, Some(Confirmed), Some(Cancelled))
      && |t.db.bookings| == |s.db.bookings| && t.db.bookings[b].state == Cancelled && t.sagas == s.sagas
  {}

  lemma CancelCommitTells(s: System, b: nat)
    requires AllJournalled(s) && Local(s, b) && b in s.cancels
    ensures Tells(s, DoCancelCommit(s, b), b, LeavesPath(s, CancelCommit(b)))
  {
    assert Journalled(s, b);
    if s.cancels[b].refund.RefundRejected? {
      FlaggedTells(s, b);
    } else if s.cancels[b].state == Confirmed {
      CancelledTells(s, b);
    }
  }

  /** Any number of rows of b without a to_state, then one row that enters a state. */
  lemma NotesThenRowTells(s: System, t: System, b: nat, notes: seq<AuditRow>, event: Event, from: BookingState, to: BookingState)
    requires AllJournalled(s) && Local(s, b) && b < |t.db.bookings|
    requires forall c: nat :: StoryOf(s.db.audit, c).numbered ==>
      StoryOf(notes, c) == StoryOf(s.db.audit, c).(length := StoryOf(notes, c).length)
      && (c != b ==> StoryOf(notes, c).length == StoryOf(s.db.audit, c).length)
    requires t.db.audit == Record(notes, b, event, Some(from), Some(to))
    ensures OthersSilent(s, t, b) && StoryOf(t.db.audit, b).numbered && StoryOf(t.db.audit, b).state == Some(to)
    ensures StoryOf(t.db.audit, b).legal <==>
      StoryOf(s.db.audit, b).legal && s.db.bookings[b].state == from && (from == to || LegalArrow(from, to))
  {
    assert Journalled(s, b);
    RecordTells(notes, b, event, Some(from), Some(to), b);
    forall c: nat | c != b && StoryOf(s.db.audit, c).numbered ensures StoryOf(t.db.audit, c) == StoryOf(s.db.audit, c) {
      RecordTells(notes, b, event, Some(from), Some(to), c);
    }
  }

  function ReclaimedNotes(s: System, b: nat): seq<AuditRow>
    requires b < |s.db.bookings|
  {
    NoteReclaimed(s.db.audit, s.db.seats, |s.db.seats|, s.db.bookings[b].seats, b, s.db.bookings[b].user, s.now)
  }

  /** Notes of b that enter no state change only the length of b's story. */
  ghost predicate OnlyNotes(before: seq<AuditRow>, after: seq<AuditRow>, b: nat) {
    forall c: nat :: StoryOf(before, c).numbered ==>
      StoryOf(after, c) == StoryOf(before, c).(length := StoryOf(after, c).length)
      && (c != b ==> StoryOf(after, c).length == StoryOf(before, c).length)
  }

  lemma ReclaimedOnlyNotes(s: System, b: nat)
    requires b < |s.db.bookings|
    ensures OnlyNotes(s.db.audit, ReclaimedNotes(s, b), b)
  {
    forall c: nat | StoryOf(s.db.audit, c).numbered
      ensures var after := StoryOf(ReclaimedNotes(s, b), c);
        after == StoryOf(s.db.audit, c).(length := after.length) && (c != b ==> after.length == StoryOf(s.db.audit, c).length)
    {
      ReclaimedTells(s.db.audit, s.db.seats, |s.db.seats|, s.db.bookings[b].seats, b, s.db.bookings[b].user, s.now, c);
    }
  }

  lemma OneMoreNote(before: seq<AuditRow>, after: seq<AuditRow>, b: nat, event: Event)
    requires OnlyNotes(before, after, b) && !event.EvPaymentVoided? && !event.EvPaymentRefunded?
    ensures OnlyNotes(before, Note(after, b, event), b)
  {
    forall c: nat | StoryOf(before, c).numbered
      ensures var more := StoryOf(Note(after, b, event), c);
        more == StoryOf(before, c).(length := more.length) && (c != b ==> more.length == StoryOf(before, c).length)
    {
      NoteTells(after, b, event, c);
    }
  }

  lemma IssueTicketsWrites(s: System, b: nat, rejected: bool)
    requires Local(s, b) && SagaAt(s, b, Authorized) && InTable(s.db.seats, s.db.bookings[b].seats)
    ensures
      var t := DoIssueTickets(s, b, rejected);
      var notes := ReclaimedNotes(s, b);
      b < |t.db.bookings| && b < |t.sagas| &&
      if AnyLost(s.db.seats, s.db.bookings[b].seats, b, s.db.bookings[b].user) then
        t.db.audit == Record(Note(notes, b, EvHoldLost), b, EvCompensationStarted, Some(PaymentAuthorized), Some(Compensating))
        && t.db.bookings[b].state == Compensating && t.sagas[b].pc == Compensates
      else if rejected then
        t.db.audit == Record(Note(notes, b, EvTicketingFailed), b, EvCompensationStarted, Some(PaymentAuthorized), Some(Compensating))
        && t.db.bookings[b].state == Compensating && t.sagas[b].pc == Compensates
      else
        t.db.audit == Record(notes, b, EvTicketsIssued, Some(PaymentAuthorized), Some(Ticketed))
        && t.db.bookings[b].state == Ticketed
  {}

  lemma RefusedTells(s: System, b: nat, rejected: bool, event: Event)
    requires AllJournalled(s) && Local(s, b) && SagaAt(s, b, Authorized) && InTable(s.db.seats, s.db.bookings[b].seats)
    requires var lost := AnyLost(s.db.seats, s.db.bookings[b].seats, b, s.db.bookings[b].user);
      (lost && event == EvHoldLost) || (!lost && rejected && event == EvTicketingFailed)
    ensures Tells(s, DoIssueTickets(s, b, rejected), b, false)
  {
    assert Journalled(s, b);
    var notes := ReclaimedNotes(s, b);
    ReclaimedOnlyNotes(s, b);
    IssueTicketsWrites(s, b, rejected);
    OneMoreNote(s.db.audit, notes, b, event);
    NotesThenRowTells(s, DoIssueTickets(s, b, rejected), b, Note(notes, b, event), EvCompensationStarted, PaymentAuthorized, Compensating);
  }

  lemma IssuedTells(s: System, b: nat, rejected: bool)
    requires AllJournalled(s) && Local(s, b) && SagaAt(s, b, Authorized) && InTable(s.db.seats, s.db.bookings[b].seats)
    requires !rejected && !AnyLost(s.db.seats, s.db.bookings[b].seats, b, s.db.bookings[b].user)
    ensures Tells(s, DoIssueTickets(s, b, rejected), b, false)
  {
    assert Journalled(s, b);
    ReclaimedOnlyNotes(s, b);
    IssueTicketsWrites(s, b, rejected);
    NotesThenRowTells(s, DoIssueTickets(s, b, rejected), b, ReclaimedNotes(s, b), EvTicketsIssued, PaymentAuthorized, Ticketed);
  }

  lemma IssueTicketsTells(s: System, b: nat, rejected: bool)
    requires AllJournalled(s) && Local(s, b) && SagaAt(s, b, Authorized) && InTable(s.db.seats, s.db.bookings[b].seats)
    ensures Tells(s, DoIssueTickets(s, b, rejected), b, false)
  {
    if AnyLost(s.db.seats, s.db.bookings[b].seats, b, s.db.bookings[b].user) {
      RefusedTells(s, b, rejected, EvHoldLost);
    } else if rejected {
      RefusedTells(s, b, rejected, EvTicketingFailed);
    } else {
      IssuedTells(s, b, rejected);
    }
  }

  lemma FlagAndReleaseTells(audit: seq<AuditRow>, b: nat, c: nat)
    requires StoryOf(audit, c).numbered
    ensures
      var before := StoryOf(audit, c);
      var after := StoryOf(Note(Record(audit, b, EvCompensationFailed, Some(Compensating), Some(NeedsManualReview)), b, EvSeatsReleased), c);
      if c != b then after == before
      else after == Story(before.length + 2, true, Some(NeedsManualReview), before.legal && before.state == Some(Compensating))
  {
    var entered := Record(audit, b, EvCompensationFailed, Some(Compensating), Some(NeedsManualReview));
    RecordTells(audit, b, EvCompensationFailed, Some(Compensating), Some(NeedsManualReview), c);
    NoteTells(entered, b, EvSeatsReleased, c);
  }

  lemma ReversalFailedTells(s: System, b: nat)
    requires AllJournalled(s) && Local(s, b) && SagaAt(s, b, ReversalFailed)
    ensures Tells(s, DoFinishCompensation(s, b), b, false)
  {
    assert Journalled(s, b);
    var t := DoFinishCompensation(s, b);
    assert t.db.audit == Note(Record(s.db.audit, b, EvCompensationFailed, Some(Compensating), Some(NeedsManualReview)), b, EvSeatsReleased);
    FlagAndReleaseTells(s.db.audit, b, b);
    forall c: nat | c != b && StoryOf(s.db.audit, c).numbered ensures StoryOf(t.db.audit, c) == StoryOf(s.db.audit, c) {
      FlagAndReleaseTells(s.db.audit, b, c);
    }
  }

  lemma TwoNotesTell(audit: seq<AuditRow>, b: nat, event: Event, c: nat)
    requires StoryOf(audit, c).numbered && (event.EvPaymentRefunded? || event.EvPaymentVoided?)
    ensures
      var before, after := StoryOf(audit, c), StoryOf(Note(Note(audit, b, event), b, EvSeatsReleased), c);
      if c != b then after == before
      else after == Story(before.length + 2, true, Some(Voided),
                          before.legal && (before.state == Some(Voided) || (before.state.Some? && LegalArrow(before.state.value, Voided))))
  {
    NoteTells(audit, b, event, c);
    NoteTells(Note(audit, b, event), b, EvSeatsReleased, c);
  }

  lemma ReversedTells(s: System, b: nat, refunded: bool)
    requires AllJournalled(s) && Local(s, b) && SagaAt(s, b, Reversed(refunded))
    ensures Tells(s, DoFinishCompensation(s, b), b, false)
  {
    assert Journalled(s, b);
    var t := DoFinishCompensation(s, b);
    var event := if refunded then EvPaymentRefunded else EvPaymentVoided;
    assert t.db.audit == Note(Note(s.db.audit, b, event), b, EvSeatsReleased);
    TwoNotesTell(s.db.audit, b, event, b);
    forall c: nat | c != b && StoryOf(s.db.audit, c).numbered ensures StoryOf(t.db.audit, c) == StoryOf(s.db.audit, c) {
      TwoNotesTell(s.db.audit, b, event, c);
    }
  }

  lemma OwnStepTells(s: System, step: Step, b: nat)
    requires Safe(s) && AllJournalled(s) && Owner(step) == Some(b) && b < |s.sagas|
    ensures Next(s, step) == s || Tells(s, Next(s, step), b, LeavesPath(s, step))
  {
    SafeIsLocal(s, b);
    assert BookingOk(s, b);
    var t := Next(s, step);
    if t != s {
      match step
      case FraudBlock(_) => FraudBlockTells(s, b);
      case RecordTimeout(_) => TimeoutTells(s, b);
      case RecordAnswer(_) => if s.sagas[b].pc.result.approved { ApprovalTells(s, b); } else { DeclineTells(s, b); }
      case IssueTickets(_, rejected) => IssueTicketsTells(s, b, rejected);
      case FinishCompensation(_) =>
        if s.sagas[b].pc.Reversed? {
          ReversedTells(s, b, s.sagas[b].pc.refunded);
        } else {
          ReversalFailedTells(s, b);
        }
      case Confirm(_) => ConfirmTells(s, b);
      case CancelCommit(_) => CancelCommitTells(s, b);
      case _ => QuietStepTells(s, step, b);
    }
  }

  lemma QuietStepTells(s: System, step: Step, b: nat)
    requires Safe(s) && AllJournalled(s) && Owner(step) == Some(b) && Local(s, b) && Next(s, step) != s
    requires step.InsertPayment? || step.Authorize? || step.Reverse? || step.Capture? || step.CancelRefund?
    ensures Tells(s, Next(s, step), b, false)
  {
    StepEffect(s, step);
    QuietStepWritesNothing(s, step, b);
    SilentTells(s, Next(s, step), b);
  }

  lemma QuietStepWritesNothing(s: System, step: Step, b: nat)
    requires Owner(step) == Some(b) && b < |s.sagas| == |s.db.bookings|
    requires step.InsertPayment? || step.Authorize? || step.Reverse? || step.Capture? || step.CancelRefund?
    ensures
      var t := Next(s, step);
      && t.db.audit == s.db.audit && t.db.bookings == s.db.bookings && |t.sagas| == |s.sagas|
      && (t.sagas[b].pc.Issuing? || t.sagas[b].pc.CaptureSent? ==> s.sagas[b].pc.Issuing? || s.sagas[b].pc.CaptureSent?)
  {
    match step
    case Authorize(_, trigger) => AuthorizeWritesNothing(s, b, trigger);
    case Reverse(_, ok) => ReverseWritesNothing(s, b, ok);
    case _ => {}
  }

  lemma AuthorizeWritesNothing(s: System, b: nat, trigger: Trigger)
    requires b < |s.sagas|
    ensures var t := DoAuthorize(s, b, trigger);
      && t.db == s.db && |t.sagas| == |s.sagas|
      && (t == s || !(t.sagas[b].pc.Issuing? || t.sagas[b].pc.CaptureSent?))
  {}

  lemma ReverseWritesNothing(s: System, b: nat, ok: bool)
    requires b < |s.sagas|
    ensures var t := DoReverse(s, b, ok);
      && t.db == s.db && |t.sagas| == |s.sagas|
      && (t == s || !(t.sagas[b].pc.Issuing? || t.sagas[b].pc.CaptureSent?))
  {}

  // ----- opening a booking -----

  lemma OpenTells(s: System, t: System)
    requires Safe(s) && AllJournalled(s) && Opens(s, t)
    requires t.db.audit == Note(Record(s.db.audit, |s.db.bookings|, EvBookingCreated, None, Some(Pending)), |s.db.bookings|, EvSeatsLocked)
    ensures Tells(s, t, |s.db.bookings|, false)
  {
    var b := |s.db.bookings|;
    assert Journalled(s, b);
    var created := Record(s.db.audit, b, EvBookingCreated, None, Some(Pending));
    RecordTells(s.db.audit, b, EvBookingCreated, None, Some(Pending), b);
    NoteTells(created, b, EvSeatsLocked, b);
    forall c: nat | c != b && StoryOf(s.db.audit, c).numbered ensures StoryOf(t.db.audit, c) == StoryOf(s.db.audit, c) {
      RecordTells(s.db.audit, b, EvBookingCreated, None, Some(Pending), c);
      NoteTells(created, b, EvSeatsLocked, c);
    }
  }

  lemma OpenedAudit(s: System, user: nat, key: string, holds: seq<nat>, passengers: nat)
    requires Safe(s)
    ensures
      var t := DoCreateBooking(s, user, key, holds, passengers);
      t == s || t.db.audit == Note(Record(s.db.audit, |s.db.bookings|, EvBookingCreated, None, Some(Pending)), |s.db.bookings|, EvSeatsLocked)
  {}

  // ----- every step, every run -----

  /** Whatever one booking's step writes, every journal stays true and every other path as it was. */
  lemma OneStory(s: System, t: System, b: nat, leaves: bool)
    requires AllJournalled(s) && Tells(s, t, b, leaves)
    requires forall c: nat :: c != b ==>
      && (c < |t.db.bookings| <==> c < |s.db.bookings|) && (c < |t.sagas| <==> c < |s.sagas|)
      && (c < |s.db.bookings| ==> t.db.bookings[c] == s.db.bookings[c])
      && (c < |s.sagas| ==> t.sagas[c] == s.sagas[c])
    ensures AllJournalled(t)
    ensures AllOnPath(s) ==> (AllOnPath(t) <==> !leaves)
  {
    forall c: nat ensures Journalled(t, c) {
      assert Journalled(s, c);
    }
    if AllOnPath(s) {
      assert OnPath(s, b);
      forall c: nat | c != b ensures OnPath(t, c) {
        assert OnPath(s, c) && Journalled(s, c);
      }
      assert leaves ==> !OnPath(t, b);
    }
  }

  lemma OwnStepKeepsJournal(s: System, step: Step, b: nat)
    requires Safe(s) && AllJournalled(s) && Owner(step) == Some(b) && b < |s.sagas|
    ensures AllJournalled(Next(s, step))
    ensures AllOnPath(s) ==> (AllOnPath(Next(s, step)) <==> !LeavesPath(s, step))
  {
    StepEffect(s, step);
    OwnStepTells(s, step, b);
    LeavingMoves(s, step);
    ToldKeepsJournal(s, Next(s, step), step, b, LeavesPath(s, step));
  }

  lemma ToldKeepsJournal(s: System, t: System, step: Step, b: nat, leaves: bool)
    requires Safe(s) && AllJournalled(s) && Owner(step) == Some(b) && b < |s.sagas| && Effect(s, t, step)
    requires (leaves ==> t != s) && (t != s ==> Tells(s, t, b, leaves))
    ensures AllJournalled(t)
    ensures AllOnPath(s) ==> (AllOnPath(t) <==> !leaves)
  {
    if t != s {
      OneStory(s, t, b, leaves);
    }
  }

  lemma CreateKeepsJournal(s: System, step: Step)
    requires Safe(s) && AllJournalled(s) && step.CreateBooking? && Opens(s, Next(s, step))
    ensures AllJournalled(Next(s, step)) && (AllOnPath(s) ==> AllOnPath(Next(s, step)))
  {
    OpenedAudit(s, step.user, step.key, step.holds, step.passengers);
    OpensKeepsJournal(s, Next(s, step));
  }

  lemma OpensKeepsJournal(s: System, t: System)
    requires Safe(s) && AllJournalled(s) && Opens(s, t)
    requires t.db.audit == Note(Record(s.db.audit, |s.db.bookings|, EvBookingCreated, None, Some(Pending)), |s.db.bookings|, EvSeatsLocked)
    ensures AllJournalled(t) && (AllOnPath(s) ==> AllOnPath(t))
  {
    OpenTells(s, t);
    OneStory(s, t, |s.db.bookings|, false);
  }

  /** Every step keeps every journal true; and it keeps every path legal, if and only if it is not the
    * commit of a refused refund for a cancel that loaded its booking as TICKETED. */
  lemma StepKeepsJournal(s: System, step: Step)
    requires Safe(s) && AllJournalled(s)
    ensures AllJournalled(Next(s, step))
    ensures AllOnPath(s) ==> (AllOnPath(Next(s, step)) <==> !LeavesPath(s, step))
  {
    StepEffect(s, step);
    match Owner(step)
    case Some(b) =>
      if b < |s.sagas| {
        OwnStepKeepsJournal(s, step, b);
      } else {
        NoSuchBooking(s, step);
      }
    case None =>
      if step.CreateBooking? && Opens(s, Next(s, step)) {
        CreateKeepsJournal(s, step);
      } else {
        HoldStepWritesNothing(s, Next(s, step));
      }
  }

  lemma HoldStepWritesNothing(s: System, t: System)
    requires AllJournalled(s) && (Idles(s, t) || Shuffles(s, t))
    ensures AllJournalled(t) && (AllOnPath(s) ==> AllOnPath(t))
  {
    forall b: nat ensures Journalled(t, b) {
      assert Journalled(s, b);
    }
    forall b: nat | AllOnPath(s) ensures OnPath(t, b) {
      assert OnPath(s, b);
    }
  }

  lemma LeavingMoves(s: System, step: Step)
    ensures LeavesPath(s, step) ==> Next(s, step) != s
  {
    assert LeavesPath(s, step) ==> step.b in s.cancels && step.b !in Next(s, step).cancels;
  }

  // ----- over whole runs -----

  lemma StartIsJournalled(cfg: Config, now: int, seats: seq<Seat>)
    ensures AllJournalled(Start(cfg, now, seats)) && AllOnPath(Start(cfg, now, seats))
  {
    forall b: nat ensures Rows([], b) == [] {
    }
  }

  lemma {:induction false} RunKeepsJournal(s: System, steps: seq<Step>)
    requires Safe(s) && AllJournalled(s)
    ensures AllJournalled(Exec(s, steps))
  {
    if steps != [] {
      RunKeepsJournal(s, steps[..|steps| - 1]);
      RunIsSafe(s, steps[..|steps| - 1]);
      StepKeepsJournal(Exec(s, steps[..|steps| - 1]), steps[|steps| - 1]);
    }
  }

  /** In every reachable state each booking's sequence numbers are 1, 2, 3, ... without a gap, and replaying
    * its rows gives the booking's committed state. */
  lemma LogIsAJournal(s: System, b: nat)
    requires Reachable(s)
    ensures forall k :: 0 <= k < |Rows(s.db.audit, b)| ==> Rows(s.db.audit, b)[k].number == k + 1
    ensures b < |s.db.bookings| ==> Replay(Rows(s.db.audit, b)) == Some(s.db.bookings[b].state)
    ensures b >= |s.db.bookings| ==> Replay(Rows(s.db.audit, b)) == None
  {
    var cfg: Config, now: int, seats: seq<Seat>, steps: seq<Step> :| Seeded(seats) && s == Exec(Start(cfg, now, seats), steps);
    StartIsSafe(cfg, now, seats);
    StartIsJournalled(cfg, now, seats);
    RunKeepsJournal(Start(cfg, now, seats), steps);
    assert Journalled(s, b);
  }

  /** The flagged cancel writes a row that starts from TICKETED and follows no arrow. */
  lemma LeavingIsIllegal(s: System, step: Step)
    requires Safe(s) && AllJournalled(s) && LeavesPath(s, step)
    ensures !LegalPath(Rows(Next(s, step).db.audit, step.b))
  {
    var b := step.b;
    assert CancelOk(s, b) && Journalled(s, b);
    FlagIsIllegal(s.db.audit, b);
    FlaggedAudit(s, b);
  }

  lemma FlagIsIllegal(audit: seq<AuditRow>, b: nat)
    requires StoryOf(audit, b).numbered && (StoryOf(audit, b).state == Some(Ticketed) || StoryOf(audit, b).state == Some(Confirmed))
    ensures !LegalPath(Rows(Record(audit, b, EvCompensationFailed, Some(Ticketed), Some(NeedsManualReview)), b))
  {
    RecordTells(audit, b, EvCompensationFailed, Some(Ticketed), Some(NeedsManualReview), b);
    assert !LegalArrow(Ticketed, NeedsManualReview);
  }

  lemma FlaggedAudit(s: System, b: nat)
    requires LeavesPath(s, CancelCommit(b))
    ensures Next(s, CancelCommit(b)).db.audit == Record(s.db.audit, b, EvCompensationFailed, Some(Ticketed), Some(NeedsManualReview))
  {}

  ghost predicate KeepsToPath(s: System, steps: seq<Step>) {
    steps == [] || (KeepsToPath(s, steps[..|steps| - 1]) && !LeavesPath(Exec(s, steps[..|steps| - 1]), steps[|steps| - 1]))
  }

  /** A run whose journals all follow the arrows goes on doing so exactly as long as no early cancel fails. */
  lemma {:induction false} PathsAreLegal(s: System, steps: seq<Step>, b: nat)
    requires Safe(s) && AllJournalled(s) && AllOnPath(s) && KeepsToPath(s, steps)
    ensures AllOnPath(Exec(s, steps)) && LegalPath(Rows(Exec(s, steps).db.audit, b))
  {
    if steps != [] {
      var before := Exec(s, steps[..|steps| - 1]);
      PathsAreLegal(s, steps[..|steps| - 1], b);
      RunIsSafe(s, steps[..|steps| - 1]);
      RunKeepsJournal(s, steps[..|steps| - 1]);
      StepKeepsJournal(before, steps[|steps| - 1]);
    }
    assert OnPath(Exec(s, steps), b);
  }

  ghost predicate LegalLogs(s: System) {
    forall b: nat :: LegalPath(Rows(s.db.audit, b))
  }

  /** Every log follows the arrows at every moment of the run. */
  ghost predicate LegalThroughout(s: System, steps: seq<Step>) {
    steps == [] || (LegalThroughout(s, steps[..|steps| - 1]) && LegalLogs(Exec(s, steps)))
  }

  lemma LegalNext(s: System, step: Step)
    requires Safe(s) && AllJournalled(s) && AllOnPath(s)
    ensures LegalLogs(Next(s, step)) <==> !LeavesPath(s, step)
  {
    StepKeepsJournal(s, step);
    if LeavesPath(s, step) {
      LeavingIsIllegal(s, step);
    } else {
      forall b: nat ensures LegalPath(Rows(Next(s, step).db.audit, b)) {
        assert OnPath(Next(s, step), b);
      }
    }
  }

  /** Over whole runs: every log follows the table at every moment, if and only if no cancel that began in TICKETED
    * is flagged. */
  lemma {:induction false} LegalIffNoEarlyFlag(s: System, steps: seq<Step>)
    requires Safe(s) && AllJournalled(s) && AllOnPath(s)
    ensures LegalThroughout(s, steps) <==> KeepsToPath(s, steps)
  {
    if steps != [] {
      var front, last := steps[..|steps| - 1], steps[|steps| - 1];
      LegalIffNoEarlyFlag(s, front);
      if KeepsToPath(s, front) {
        PathsAreLegal(s, front, 0);
        RunIsSafe(s, front);
        RunKeepsJournal(s, front);
        LegalNext(Exec(s, front), last);
      }
    }
  }
}
