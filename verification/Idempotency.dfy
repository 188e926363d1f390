/** Idempotency keys: claim, replay, release, with any number of concurrent calls and a clock. */
module Idempotency {
  import opened Domain

  datatype Response = Response(status: nat, body: string)

  /** A row of idempotency_keys; the digest stands for the canonical request body. */
  datatype Claim = Claim(digest: nat, response: Option<Response>, expires: int)

  datatype Slot = Slot(key: string, user: nat)

  datatype Phase =
    | Running(until: int)        // begin returned None: this call runs the saga
    | Waiting                    // the INSERT hit the existing row, which is not read yet
    | Replayed(response: Response)
    | KeyReused                  // 422
    | Busy                       // 409
    | Finished(response: Response)
    | Released                   // an unknown failure: the claim was dropped
    | Died                       // the process stopped

  datatype Call = Call(slot: Slot, digest: nat, phase: Phase)

  datatype Server = Server(ttl: nat, now: int, claims: map<Slot, Claim>, calls: seq<Call>)

  datatype Step =
    | Tick(seconds: nat)
    | Begin(slot: Slot, digest: nat)
    | Look(c: nat)
    | Complete(c: nat, response: Response)
    | Release(c: nat)
    | Die(c: nat)

  // ----- the transactions -----

  predicate Claimable(claims: map<Slot, Claim>, slot: Slot, now: int) {
    slot !in claims || claims[slot].expires < now
  }

  /** Delete an expired row, then insert unless a row is still there. */
  function ClaimOn(claims: map<Slot, Claim>, slot: Slot, digest: nat, now: int, ttl: nat): map<Slot, Claim> {
    if Claimable(claims, slot, now) then claims[slot := Claim(digest, None, now + ttl)] else claims
  }

  function LookAt(claims: map<Slot, Claim>, slot: Slot, digest: nat): Phase {
    if slot !in claims then Busy
    else if claims[slot].digest != digest then KeyReused
    else if claims[slot].response.Some? && claims[slot].response.value.status != 0 then Replayed(claims[slot].response.value)
    else Busy
  }

  function CompleteOn(claims: map<Slot, Claim>, slot: Slot, response: Response): map<Slot, Claim> {
    if slot in claims then claims[slot := claims[slot].(response := Some(response))] else claims
  }

  // ----- the machine -----

  predicate IsRunning(s: Server, c: nat) {
    c < |s.calls| && s.calls[c].phase.Running?
  }

  function Next(s: Server, step: Step): Server {
    match step
    case Tick(seconds) => s.(now := s.now + seconds)
    case Begin(slot, digest) =>
      var phase := if Claimable(s.claims, slot, s.now) then Running(s.now + s.ttl) else Waiting;
      s.(claims := ClaimOn(s.claims, slot, digest, s.now, s.ttl), calls := s.calls + [Call(slot, digest, phase)])
    case Look(c) =>
      if c < |s.calls| && s.calls[c].phase.Waiting?
      then s.(calls := s.calls[c := s.calls[c].(phase := LookAt(s.claims, s.calls[c].slot, s.calls[c].digest))])
      else s
    case Complete(c, response) =>
      if IsRunning(s, c)
      then s.(claims := CompleteOn(s.claims, s.calls[c].slot, response), calls := s.calls[c := s.calls[c].(phase := Finished(response))])
      else s
    case Release(c) =>
      if IsRunning(s, c)
      then s.(claims := s.claims - {s.calls[c].slot}, calls := s.calls[c := s.calls[c].(phase := Released)])
      else s
    case Die(c) =>
      if IsRunning(s, c) then s.(calls := s.calls[c := s.calls[c].(phase := Died)]) else s
  }

  function Exec(s: Server, steps: seq<Step>): Server {
    if steps == [] then s else Next(Exec(s, steps[..|steps| - 1]), steps[|steps| - 1])
  }

  // ----- at most one run in flight -----

  predicate RunsOn(call: Call, slot: Slot) {
    call.slot == slot && call.phase.Running?
  }

  /** Nobody still runs under the key when the claim it began with has expired. */
  ghost predicate Prompt(s: Server, slot: Slot) {
    forall c :: 0 <= c < |s.calls| && RunsOn(s.calls[c], slot) ==> s.now <= s.calls[c].phase.until
  }

  /** The one call that runs under the key owns its row. */
  ghost predicate OneRuns(s: Server, slot: Slot) {
    && (forall c :: 0 <= c < |s.calls| && RunsOn(s.calls[c], slot) ==>
         slot in s.claims && s.claims[slot] == Claim(s.calls[c].digest, None, s.calls[c].phase.until))
    && (forall c, d :: 0 <= c < |s.calls| && 0 <= d < |s.calls| && RunsOn(s.calls[c], slot) && RunsOn(s.calls[d], slot) ==> c == d)
  }

  lemma StepKeepsOneRuns(s: Server, step: Step, slot: Slot)
    requires OneRuns(s, slot) && Prompt(s, slot)
    ensures OneRuns(Next(s, step), slot)
  {}

  ghost predicate AlwaysPrompt(s: Server, steps: seq<Step>, slot: Slot) {
    forall n :: 0 <= n <= |steps| ==> Prompt(Exec(s, steps[..n]), slot)
  }

  /** If every run under a key ends while its claim lasts, no two calls ever run under it at the same time,
    * whatever the other calls do. */
  lemma AtMostOneInFlight(s: Server, steps: seq<Step>, slot: Slot)
    requires OneRuns(s, slot) && AlwaysPrompt(s, steps, slot)
    ensures OneRuns(Exec(s, steps), slot)
  {
    PromptNeverOverruns(s, steps, slot);
    OneInFlightIffNoOverrun(s, steps, slot);
  }

  // ----- exactly when a key is run twice at once -----

  ghost predicate Single(s: Server, slot: Slot) {
    forall c, d :: 0 <= c < |s.calls| && 0 <= d < |s.calls| && RunsOn(s.calls[c], slot) && RunsOn(s.calls[d], slot) ==> c == d
  }

  /** A retry arrives while a run under the key goes on past its claim, whose time runs from begin. */
  ghost predicate Overruns(s: Server, step: Step, slot: Slot) {
    step.Begin? && step.slot == slot && !Prompt(s, slot)
  }

  lemma SingleIffNoOverrun(s: Server, step: Step, slot: Slot)
    requires OneRuns(s, slot)
    ensures Single(Next(s, step), slot) <==> !Overruns(s, step, slot)
    ensures !Overruns(s, step, slot) ==> OneRuns(Next(s, step), slot)
  {
    if Overruns(s, step, slot) {
      OverrunDoubles(s, step.digest, slot);
    } else if step.Begin? && step.slot == slot {
      StepKeepsOneRuns(s, step, slot);
    }
  }

  /** The row of an overrunning call has expired, so the retry claims the key and runs beside it. */
  lemma OverrunDoubles(s: Server, digest: nat, slot: Slot)
    requires OneRuns(s, slot) && !Prompt(s, slot)
    ensures !Single(Next(s, Begin(slot, digest)), slot)
  {
    var c :| 0 <= c < |s.calls| && RunsOn(s.calls[c], slot) && s.now > s.calls[c].phase.until;
    var t := Next(s, Begin(slot, digest));
    assert RunsOn(t.calls[c], slot) && RunsOn(t.calls[|s.calls|], slot);
  }

  ghost predicate NeverOverruns(s: Server, steps: seq<Step>, slot: Slot) {
    steps == [] || (NeverOverruns(s, steps[..|steps| - 1], slot) && !Overruns(Exec(s, steps[..|steps| - 1]), steps[|steps| - 1], slot))
  }

  ghost predicate SingleThroughout(s: Server, steps: seq<Step>, slot: Slot) {
    Single(Exec(s, steps), slot) && (steps == [] || SingleThroughout(s, steps[..|steps| - 1], slot))
  }

  /** Over any run of any number of calls: at every moment at most one of them runs under the key, if and only if no
    * retry ever begins while a run has outlived its claim. */
  lemma {:induction false} OneInFlightIffNoOverrun(s: Server, steps: seq<Step>, slot: Slot)
    requires OneRuns(s, slot)
    ensures SingleThroughout(s, steps, slot) <==> NeverOverruns(s, steps, slot)
    ensures NeverOverruns(s, steps, slot) ==> OneRuns(Exec(s, steps), slot)
  {
    if steps != [] {
      var front, last := steps[..|steps| - 1], steps[|steps| - 1];
      OneInFlightIffNoOverrun(s, front, slot);
      if NeverOverruns(s, front, slot) {
        SingleIffNoOverrun(Exec(s, front), last, slot);
      }
    }
  }

  /** A prompt run never overruns, so the usual bound on the saga's time suffices. */
  lemma {:induction false} PromptNeverOverruns(s: Server, steps: seq<Step>, slot: Slot)
    requires AlwaysPrompt(s, steps, slot)
    ensures NeverOverruns(s, steps, slot)
  {
    if steps != [] {
      var n := |steps| - 1;
      assert forall m :: 0 <= m <= n ==> steps[..n][..m] == steps[..m];
      PromptNeverOverruns(s, steps[..n], slot);
      assert Prompt(Exec(s, steps[..n]), slot);
    }
  }

  /** For any TTL an overrun can happen. */
  lemma OverrunIsReachable(ttl: nat, now: int, slot: Slot, digest: nat)
    ensures OneRuns(Server(ttl, now, map[], []), slot)
    ensures var s := Exec(Server(ttl, now, map[], []), [Begin(slot, digest), Tick(ttl + 1)]);
      OneRuns(s, slot) && Overruns(s, Begin(slot, digest), slot)
  {
    var s0 := Server(ttl, now, map[], []);
    var steps := [Begin(slot, digest), Tick(ttl + 1)];
    assert steps[..1] == [Begin(slot, digest)] && steps[..1][..0] == [];
    assert Exec(s0, steps[..1]) == Next(s0, Begin(slot, digest));
    assert RunsOn(Exec(s0, steps).calls[0], slot);
  }

  // ----- a recorded outcome is the answer until the key expires -----

  ghost predicate Recorded(s: Server, slot: Slot, claim: Claim) {
    && slot in s.claims && s.claims[slot] == claim
    && claim.response.Some? && claim.response.value.status != 0
    && forall c :: 0 <= c < |s.calls| ==> !RunsOn(s.calls[c], slot)
  }

  /** How a call on the slot has been answered, if it has. */
  ghost predicate ReplaysOrRejects(call: Call, slot: Slot, claim: Claim)
    requires claim.response.Some?
  {
    call.slot == slot ==>
      || call.phase.Waiting?
      || (call.digest == claim.digest && call.phase == Replayed(claim.response.value))
      || (call.digest != claim.digest && call.phase == KeyReused)
  }

  /** Completing a run records its response for good. */
  lemma CompleteRecords(s: Server, c: nat, response: Response)
    requires IsRunning(s, c)
    requires OneRuns(s, s.calls[c].slot) && response.status != 0
    ensures Recorded(Next(s, Complete(c, response)), s.calls[c].slot, Claim(s.calls[c].digest, Some(response), s.calls[c].phase.until))
  {
    assert RunsOn(s.calls[c], s.calls[c].slot);
  }

  /** Until the claim expires, every later call under the key runs nothing: the same body is answered with exactly
    * the recorded status and body, any other body is refused. */
  lemma {:induction false} ReplaysExactly(s: Server, steps: seq<Step>, slot: Slot, claim: Claim)
    requires Recorded(s, slot, claim) && Exec(s, steps).now <= claim.expires
    ensures Recorded(Exec(s, steps), slot, claim) && |s.calls| <= |Exec(s, steps).calls|
    ensures forall c :: |s.calls| <= c < |Exec(s, steps).calls| ==> ReplaysOrRejects(Exec(s, steps).calls[c], slot, claim)
  {
    if steps != [] {
      ReplaysExactly(s, steps[..|steps| - 1], slot, claim);
    }
  }

  /** Every waiting call is answered by its next step, and by nobody else's. */
  lemma LookAnswers(s: Server, c: nat, slot: Slot, claim: Claim)
    requires Recorded(s, slot, claim) && c < |s.calls| && s.calls[c].slot == slot && s.calls[c].phase.Waiting?
    ensures Next(s, Look(c)).calls[c].phase == if s.calls[c].digest == claim.digest then Replayed(claim.response.value) else KeyReused
  {}

  // ----- what a call is told while another runs -----

  /** While a call runs under the key, the same body is told to wait and any other body is refused. */
  lemma LookWhileRunning(s: Server, c: nat, d: nat, slot: Slot)
    requires OneRuns(s, slot) && d < |s.calls| && RunsOn(s.calls[d], slot)
    requires c < |s.calls| && s.calls[c].slot == slot && s.calls[c].phase.Waiting?
    ensures Next(s, Look(c)).calls[c].phase == if s.calls[c].digest == s.calls[d].digest then Busy else KeyReused
    ensures Next(s, Look(c)).calls[d] == s.calls[d] && Next(s, Look(c)).claims == s.claims
  {}

  /** So it is at every moment of every run in which no retry begins during an overrun: a look that meets a running
    * call is answered 409 for the running call's own body and 422 for any other. */
  lemma RetriesAreToldToWait(s: Server, steps: seq<Step>, c: nat, d: nat, slot: Slot)
    requires OneRuns(s, slot) && NeverOverruns(s, steps, slot)
    requires var t := Exec(s, steps);
      && d < |t.calls| && RunsOn(t.calls[d], slot)
      && c < |t.calls| && t.calls[c].slot == slot && t.calls[c].phase.Waiting?
    ensures var t := Exec(s, steps);
      Next(t, Look(c)).calls[c].phase == if t.calls[c].digest == t.calls[d].digest then Busy else KeyReused
  {
    OneInFlightIffNoOverrun(s, steps, slot);
    LookWhileRunning(Exec(s, steps), c, d, slot);
  }

  /** The call began the work, whatever became of it. */
  predicate HasRun(call: Call, slot: Slot) {
    call.slot == slot && (call.phase.Running? || call.phase.Finished? || call.phase.Released? || call.phase.Died?)
  }

  ghost predicate RanWith(calls: seq<Call>, slot: Slot, digest: nat) {
    exists d :: 0 <= d < |calls| && HasRun(calls[d], slot) && calls[d].digest == digest
  }

  ghost predicate RanWithout(calls: seq<Call>, slot: Slot, digest: nat) {
    exists d :: 0 <= d < |calls| && HasRun(calls[d], slot) && calls[d].digest != digest
  }

  ghost predicate WasFinished(calls: seq<Call>, slot: Slot, response: Response) {
    exists d :: 0 <= d < |calls| && calls[d].slot == slot && calls[d].phase == Finished(response)
  }

  /** A row carries the body of a call that ran under its key, and only a response that such a call recorded. */
  ghost predicate RowIsEarned(s: Server, slot: Slot) {
    slot in s.claims ==>
      && RanWith(s.calls, slot, s.claims[slot].digest)
      && (s.claims[slot].response.Some? ==> WasFinished(s.calls, slot, s.claims[slot].response.value))
  }

  /** A refusal for another body means that a call with another body ran under the key; a replay means that a call
    * with this very body ran under it, and that the response is one that a call under it recorded. */
  ghost predicate AnswerIsEarned(calls: seq<Call>, c: nat)
    requires c < |calls|
  {
    match calls[c].phase
    case KeyReused => RanWithout(calls, calls[c].slot, calls[c].digest)
    case Replayed(response) =>
      response.status != 0 && RanWith(calls, calls[c].slot, calls[c].digest) && WasFinished(calls, calls[c].slot, response)
    case _ => true
  }

  ghost predicate Earned(s: Server) {
    && (forall slot :: RowIsEarned(s, slot))
    && (forall c: nat :: c < |s.calls| ==> AnswerIsEarned(s.calls, c))
  }

  /** Calls are only added, and one that has run or finished stays so. */
  ghost predicate CallsGrow(before: seq<Call>, after: seq<Call>) {
    && |before| <= |after|
    && forall d :: 0 <= d < |before| ==>
         && after[d].slot == before[d].slot && after[d].digest == before[d].digest
         && (HasRun(before[d], before[d].slot) ==> HasRun(after[d], after[d].slot))
         && (before[d].phase.Finished? ==> after[d].phase == before[d].phase)
  }

  lemma StepGrowsCalls(s: Server, step: Step)
    ensures CallsGrow(s.calls, Next(s, step).calls)
  {}

  lemma StillEarned(before: seq<Call>, after: seq<Call>, slot: Slot, digest: nat, response: Response)
    requires CallsGrow(before, after)
    ensures RanWith(before, slot, digest) ==> RanWith(after, slot, digest)
    ensures RanWithout(before, slot, digest) ==> RanWithout(after, slot, digest)
    ensures WasFinished(before, slot, response) ==> WasFinished(after, slot, response)
  {
    if RanWith(before, slot, digest) {
      var d :| 0 <= d < |before| && HasRun(before[d], slot) && before[d].digest == digest;
      assert HasRun(after[d], slot);
    }
    if RanWithout(before, slot, digest) {
      var d :| 0 <= d < |before| && HasRun(before[d], slot) && before[d].digest != digest;
      assert HasRun(after[d], slot);
    }
    if WasFinished(before, slot, response) {
      var d :| 0 <= d < |before| && before[d].slot == slot && before[d].phase == Finished(response);
      assert after[d].phase == Finished(response);
    }
  }

  lemma RowStaysEarned(s: Server, step: Step, slot: Slot)
    requires Earned(s)
    ensures RowIsEarned(Next(s, step), slot)
  {
    var t := Next(s, step);
    StepGrowsCalls(s, step);
    assert RowIsEarned(s, slot);
    if slot in t.claims {
      var row := t.claims[slot];
      StillEarned(s.calls, t.calls, slot, row.digest, if row.response.Some? then row.response.value else Response(0, ""));
      if step.Begin? && step.slot == slot && Claimable(s.claims, slot, s.now) {
        assert HasRun(t.calls[|s.calls|], slot);
      } else if step.Complete? && IsRunning(s, step.c) && s.calls[step.c].slot == slot {
        assert t.calls[step.c].phase == Finished(step.response);
      }
    }
  }

  lemma AnswerStaysEarned(s: Server, step: Step, c: nat)
    requires Earned(s) && c < |Next(s, step).calls|
    ensures AnswerIsEarned(Next(s, step).calls, c)
  {
    var t := Next(s, step);
    StepGrowsCalls(s, step);
    var call := t.calls[c];
    StillEarned(s.calls, t.calls, call.slot, call.digest, if call.phase.Replayed? then call.phase.response else Response(0, ""));
    assert RowIsEarned(s, call.slot);
    assert c < |s.calls| ==> AnswerIsEarned(s.calls, c);
    if call.phase.KeyReused? && call.slot in s.claims && s.claims[call.slot].digest != call.digest {
      DifferentRun(s.calls, call.slot, s.claims[call.slot].digest, call.digest);
    }
  }

  lemma DifferentRun(calls: seq<Call>, slot: Slot, digest: nat, other: nat)
    requires RanWith(calls, slot, digest) && digest != other
    ensures RanWithout(calls, slot, other)
  {}

  lemma {:induction false} RunStaysEarned(s: Server, steps: seq<Step>)
    requires Earned(s)
    ensures Earned(Exec(s, steps))
  {
    if steps != [] {
      var front, last := steps[..|steps| - 1], steps[|steps| - 1];
      RunStaysEarned(s, front);
      EarnedStep(Exec(s, front), last);
    }
  }

  lemma EarnedStep(s: Server, step: Step)
    requires Earned(s)
    ensures Earned(Next(s, step))
  {
    forall slot ensures RowIsEarned(Next(s, step), slot) {
      RowStaysEarned(s, step, slot);
    }
    forall c: nat | c < |Next(s, step).calls| ensures AnswerIsEarned(Next(s, step).calls, c) {
      AnswerStaysEarned(s, step, c);
    }
  }

  /** Over every run from an empty table, overruns or not: nobody is told 422 unless a call with another body ran under
    * the key, and nobody is replayed anything but a response that a call under the key recorded. */
  lemma AnswersAreEarned(ttl: nat, now: int, steps: seq<Step>, c: nat)
    requires c < |Exec(Server(ttl, now, map[], []), steps).calls|
    ensures AnswerIsEarned(Exec(Server(ttl, now, map[], []), steps).calls, c)
  {
    RunStaysEarned(Server(ttl, now, map[], []), steps);
  }

  // ----- once per lifetime -----

  function Ran(calls: seq<Call>, slot: Slot): nat {
    if calls == [] then 0
    else
      var last := calls[|calls| - 1];
      Ran(calls[..|calls| - 1], slot)
      + if last.slot == slot && (last.phase.Running? || last.phase.Finished? || last.phase.Released? || last.phase.Died?) then 1 else 0
  }

  function Dropped(calls: seq<Call>, slot: Slot): nat {
    if calls == [] then 0
    else
      var last := calls[|calls| - 1];
      Dropped(calls[..|calls| - 1], slot) + if last.slot == slot && last.phase.Released? then 1 else 0
  }

  lemma {:induction false} RanAfterUpdate(calls: seq<Call>, c: nat, phase: Phase, slot: Slot)
    requires c < |calls|
    requires calls[c].phase.Running? || calls[c].phase.Waiting?
    requires calls[c].phase.Running? ==> phase.Finished? || phase.Released? || phase.Died?
    requires calls[c].phase.Waiting? ==> phase.Replayed? || phase.KeyReused? || phase.Busy?
    ensures var after := calls[c := calls[c].(phase := phase)];
      && Ran(after, slot) == Ran(calls, slot)
      && Dropped(after, slot) == Dropped(calls, slot) + if calls[c].slot == slot && phase.Released? then 1 else 0
  {
    var n := |calls| - 1;
    var after := calls[c := calls[c].(phase := phase)];
    if c < n {
      RanAfterUpdate(calls[..n], c, phase, slot);
      assert after[..n] == calls[..n][c := calls[c].(phase := phase)];
    } else {
      assert after[..n] == calls[..n];
    }
  }

  lemma RanAfterBegin(calls: seq<Call>, call: Call, slot: Slot)
    requires call.phase.Running? || call.phase.Waiting?
    ensures Ran(calls + [call], slot) == Ran(calls, slot) + if call.slot == slot && call.phase.Running? then 1 else 0
    ensures Dropped(calls + [call], slot) == Dropped(calls, slot)
  {
    assert (calls + [call])[..|calls|] == calls;
  }

  /** A claim made at or after the start outlasts the period, so only a release makes way for another run. */
  ghost predicate Counted(s: Server, slot: Slot, start: int, before: int) {
    && OneRuns(s, slot)
    && (slot in s.claims ==> start + s.ttl <= s.claims[slot].expires)
    && Ran(s.calls, slot) - Dropped(s.calls, slot) == before + if slot in s.claims then 1 else 0
  }

  lemma StepKeepsCount(s: Server, step: Step, slot: Slot, start: int, before: int)
    requires Counted(s, slot, start, before) && start <= s.now <= start + s.ttl
    ensures Counted(Next(s, step), slot, start, before)
  {
    var t := Next(s, step);
    StepKeepsOneRuns(s, step, slot);
    match step
    case Begin(begun, digest) => RanAfterBegin(s.calls, t.calls[|s.calls|], slot);
    case Tick(_) =>
    case Look(c) => CallMoved(s, step, c, slot);
    case Complete(c, response) => CallMoved(s, step, c, slot);
    case Release(c) => CallMoved(s, step, c, slot);
    case Die(c) => CallMoved(s, step, c, slot);
  }

  lemma CallMoved(s: Server, step: Step, c: nat, slot: Slot)
    requires step == Look(c) || (step.Complete? && step.c == c) || step == Release(c) || step == Die(c)
    ensures var t := Next(s, step);
      && Ran(t.calls, slot) == Ran(s.calls, slot)
      && Dropped(t.calls, slot) == Dropped(s.calls, slot) + if step.Release? && IsRunning(s, c) && s.calls[c].slot == slot then 1 else 0
  {
    var t := Next(s, step);
    if c < |s.calls| && t.calls != s.calls {
      RanAfterUpdate(s.calls, c, t.calls[c].phase, slot);
    }
  }

  /** Over any run within one TTL from a moment when the key is free: the saga runs under it once, plus once for
    * each time an unknown failure released the claim. */
  lemma {:induction false} RunsOncePerLifetime(s: Server, steps: seq<Step>, slot: Slot)
    requires slot !in s.claims && forall c :: 0 <= c < |s.calls| ==> !RunsOn(s.calls[c], slot)
    requires Exec(s, steps).now <= s.now + s.ttl
    ensures Exec(s, steps).ttl == s.ttl && s.now <= Exec(s, steps).now
    ensures Counted(Exec(s, steps), slot, s.now, Ran(s.calls, slot) - Dropped(s.calls, slot))
    ensures Ran(Exec(s, steps).calls, slot) - Ran(s.calls, slot) <= Dropped(Exec(s, steps).calls, slot) - Dropped(s.calls, slot) + 1
  {
    if steps != [] {
      RunsOncePerLifetime(s, steps[..|steps| - 1], slot);
      StepKeepsCount(Exec(s, steps[..|steps| - 1]), steps[|steps| - 1], slot, s.now, Ran(s.calls, slot) - Dropped(s.calls, slot));
    }
  }

  // ----- the table as the object that the service updates -----

  /** The three answers to a call that finds a row under its key. */
  ghost predicate Tells(row: Claim, digest: nat, answer: Phase) {
    && (row.digest != digest ==> answer == KeyReused)
    && (row.digest == digest && row.response.Some? && row.response.value.status != 0 ==> answer == Replayed(row.response.value))
    && (row.digest == digest && (row.response.None? || row.response.value.status == 0) ==> answer == Busy)
  }

  class KeyTable {
    var claims: map<Slot, Claim>

    constructor ()
      ensures claims == map[]
    {
      claims := map[];
    }

    /** begin(), undisturbed. None means the caller owns the claim. */
    method Begin(slot: Slot, digest: nat, now: int, ttl: nat) returns (answer: Option<Phase>)
      modifies this
      ensures claims == ClaimOn(old(claims), slot, digest, now, ttl)
      ensures answer == if Claimable(old(claims), slot, now) then None else Some(LookAt(old(claims), slot, digest))
      ensures answer.None? <==> slot !in old(claims) || old(claims)[slot].expires < now
      ensures answer.None? ==> claims == old(claims)[slot := Claim(digest, None, now + ttl)]
      ensures answer.Some? ==> claims == old(claims) && Tells(claims[slot], digest, answer.value)
    {
      if slot in claims && claims[slot].expires < now {
        claims := claims - {slot};
      }
      if slot !in claims {
        claims := claims[slot := Claim(digest, None, now + ttl)];
        return None;
      }
      var existing := claims[slot];
      if existing.digest != digest {
        return Some(KeyReused);
      }
      if existing.response.Some? && existing.response.value.status != 0 {
        return Some(Replayed(existing.response.value));
      }
      return Some(Busy);
    }

    method Complete(slot: Slot, response: Response)
      modifies this
      ensures claims == CompleteOn(old(claims), slot, response)
    {
      if slot !in claims {
        return;
      }
      claims := claims[slot := claims[slot].(response := Some(response))];
    }

    method Release(slot: Slot)
      modifies this
      ensures claims == old(claims) - {slot}
    {
      claims := claims - {slot};
    }

    /** POST /bookings around a saga whose outcome is known (Some) or an unknown failure (None). A retry of a
      * known outcome within the key's time gets it back and runs nothing. */
    method CreateBooking(slot: Slot, digest: nat, outcome: Option<Response>, now: int, ttl: nat) returns (answer: Option<Phase>, ran: bool)
      modifies this
      ensures ran <==> slot !in old(claims) || old(claims)[slot].expires < now
      ensures !ran ==> claims == old(claims) && answer.Some? && Tells(claims[slot], digest, answer.value)
      ensures ran && outcome.Some? ==>
        answer == Some(Finished(outcome.value)) && claims == old(claims)[slot := Claim(digest, outcome, now + ttl)]
      ensures ran && outcome.None? ==> answer == None && claims == old(claims) - {slot}
    {
      answer := Begin(slot, digest, now, ttl);
      if answer.Some? {
        return answer, false;
      }
      ran := true;
      match outcome
      case Some(response) =>
        Complete(slot, response);
        answer := Some(Finished(response));
      case None =>
        Release(slot);
    }
  }
}
