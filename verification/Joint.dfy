/** The claim table and the sagas in one machine: every booking is opened by a call that owns its key. What the money
  * rule asks of a caller that opens a booking, the claims supply. */
module Joint {
  import opened Domain
  import opened Inventory
  import opened Store
  import opened Machine
  import opened Safety
  import opened Steps
  import opened Runs
  import opened Isolation
  import opened Settlement
  import Failures
  import Idempotency

  /** bookingOf: the booking that a call has opened in step 1 of its saga. */
  datatype Joined = Joined(server: Idempotency.Server, sys: System, bookingOf: map<nat, nat>)

  datatype Move =
    | Claim(claim: Idempotency.Step)                       // begin, its second look, complete, release, a stopped process
    | Open(c: nat, holds: seq<nat>, passengers: nat)       // step 1 of the saga of call c
    | Work(step: Step)                                     // anything else in the machine
    | Wait(seconds: nat)                                   // both clocks

  function SlotOf(j: Joined, c: nat): Idempotency.Slot
    requires c < |j.server.calls|
  {
    j.server.calls[c].slot
  }

  predicate MayOpen(j: Joined, c: nat) {
    Idempotency.IsRunning(j.server, c) && c !in j.bookingOf
  }

  function Opening(j: Joined, c: nat, holds: seq<nat>, passengers: nat): Step
    requires c < |j.server.calls|
  {
    CreateBooking(SlotOf(j, c).user, SlotOf(j, c).key, holds, passengers)
  }

  function NextOf(j: Joined, move: Move): Joined {
    match move
    case Claim(claim) => if claim.Tick? then j else j.(server := Idempotency.Next(j.server, claim))
    case Work(step) => if step.Tick? || step.CreateBooking? then j else j.(sys := Next(j.sys, step))
    case Wait(seconds) =>
      j.(server := Idempotency.Next(j.server, Idempotency.Tick(seconds)), sys := Next(j.sys, Tick(seconds)))
    case Open(c, holds, passengers) =>
      if !MayOpen(j, c) then j
      else
        var t := Next(j.sys, Opening(j, c, holds, passengers));
        if t == j.sys then j else j.(sys := t, bookingOf := j.bookingOf[c := |j.sys.db.bookings|])
  }

  function Run(j: Joined, moves: seq<Move>): Joined {
    if moves == [] then j else NextOf(Run(j, moves[..|moves| - 1]), moves[|moves| - 1])
  }

  // ----- the discipline: what callers and operators owe, all of it visible before the move -----

  /** A key belongs to one user. */
  predicate OneUserPerKey(j: Joined, slot: Idempotency.Slot) {
    forall c | 0 <= c < |j.server.calls| :: j.server.calls[c].slot.key == slot.key ==> j.server.calls[c].slot == slot
  }

  /** A claim is taken over only when its run has ended and nothing under the key can still be captured or voided;
    * and it is dropped only then. */
  ghost predicate Disciplined(j: Joined, move: Move)
    requires |j.sys.sagas| == |j.sys.db.bookings|
  {
    match move
    case Claim(claim) =>
      (match claim
       case Begin(slot, _) =>
         && OneUserPerKey(j, slot)
         && (slot in j.server.claims && j.server.claims[slot].expires < j.server.now ==>
              Harmless(j.sys, slot.key) && Idempotency.Prompt(j.server, slot))
       case Release(c) => Idempotency.IsRunning(j.server, c) ==> Harmless(j.sys, SlotOf(j, c).key)
       case _ => true)
    case Work(step) => !step.CreateBooking? ==> Careful(j.sys, step)
    case Open(_, _, _) => true
    case Wait(_) => true
  }

  // ----- what every disciplined move keeps -----

  /** While a key is not harmless its claim stands, and nobody runs under it but a call that has opened its booking. */
  ghost predicate Guarded(j: Joined, slot: Idempotency.Slot)
    requires |j.sys.sagas| == |j.sys.db.bookings|
  {
    !Harmless(j.sys, slot.key) ==>
      && slot in j.server.claims
      && forall c :: 0 <= c < |j.server.calls| && Idempotency.RunsOn(j.server.calls[c], slot) ==> c in j.bookingOf
  }

  ghost predicate Begun(j: Joined, slot: Idempotency.Slot) {
    exists c :: 0 <= c < |j.server.calls| && j.server.calls[c].slot == slot
  }

  ghost predicate KeysApart(j: Joined) {
    forall c, d :: 0 <= c < |j.server.calls| && 0 <= d < |j.server.calls| && j.server.calls[c].slot.key == j.server.calls[d].slot.key ==>
      j.server.calls[c].slot == j.server.calls[d].slot
  }

  /** Every booking was opened under a key some call began with. */
  ghost predicate OpenedByCalls(j: Joined) {
    forall b: nat :: b < |j.sys.db.bookings| ==> KeyBegun(j.server, j.sys.db.bookings[b].key)
  }

  ghost predicate KeyBegun(server: Idempotency.Server, key: string) {
    exists c: nat :: c < |server.calls| && server.calls[c].slot.key == key
  }

  ghost predicate Sound(j: Joined) {
    && Safe(j.sys) && Settled(j.sys) && KeysApart(j) && OpenedByCalls(j)
    && (forall slot :: Idempotency.OneRuns(j.server, slot))
    && (forall slot :: Begun(j, slot) ==> Guarded(j, slot))
  }

  // ----- a harmless key stays harmless until somebody opens a booking under it -----

  lemma GivenUpStays(s: System, step: Step, b: nat)
    requires Safe(s) && b < |s.sagas| && Inert(s.sagas[b].pc) && !step.CreateBooking?
    ensures |Next(s, step).sagas| == |s.sagas| && Inert(Next(s, step).sagas[b].pc)
  {
    if Owner(step).Some? && Owner(step).value != b {
      SagasAreIsolated(s, step, Owner(step).value);
    } else if Owner(step) == Some(b) {
      OwnStepGivenUp(s, step, b);
    } else {
      HoldStepKeepsSagas(s, step);
    }
  }

  lemma HoldStepKeepsSagas(s: System, step: Step)
    requires Owner(step).None? && !step.CreateBooking?
    ensures var t := Next(s, step); t.sagas == s.sagas && t.db.bookings == s.db.bookings && t.gw == s.gw
  {}

  lemma OwnStepGivenUp(s: System, step: Step, b: nat)
    requires Safe(s) && b < |s.sagas| && Inert(s.sagas[b].pc) && Owner(step) == Some(b)
    ensures |Next(s, step).sagas| == |s.sagas| && Inert(Next(s, step).sagas[b].pc)
  {
    match step
    case FinishCompensation(_) => FinishGivenUp(s, b);
    case CancelRefund(_, ok) => {}
    case CancelCommit(_) => {}
    case _ => {}
  }

  lemma FinishGivenUp(s: System, b: nat)
    requires b < |s.sagas| && Inert(s.sagas[b].pc)
    ensures var t := DoFinishCompensation(s, b); |t.sagas| == |s.sagas| && Inert(t.sagas[b].pc)
  {}

  lemma KeysFixed(s: System, step: Step)
    requires Safe(s) && !step.CreateBooking?
    ensures var t := Next(s, step);
      |t.db.bookings| == |s.db.bookings| && forall b :: 0 <= b < |s.db.bookings| ==> t.db.bookings[b].key == s.db.bookings[b].key
  {
    if Owner(step).Some? { Failures.KeysStay(s, step, Owner(step).value); } else { HoldStepKeepsSagas(s, step); }
  }

  lemma HarmlessStays(s: System, step: Step, key: string)
    requires Safe(s) && Harmless(s, key) && !step.CreateBooking?
    ensures |Next(s, step).sagas| == |Next(s, step).db.bookings| && Harmless(Next(s, step), key)
  {
    var t := Next(s, step);
    StepIsSafe(s, step);
    KeysFixed(s, step);
    if Declined(s.gw, AuthKey(key)) {
      Failures.GatewayGrows(s, step);
    } else {
      forall b: nat | b < |t.db.bookings| && t.db.bookings[b].key == key ensures Inert(t.sagas[b].pc) {
        GivenUpStays(s, step, b);
      }
    }
  }

  // ----- the moves of the claim table -----

  /** Calls are only added, and none changes its slot. */
  lemma CallsKeepSlots(s: Idempotency.Server, step: Idempotency.Step)
    ensures |s.calls| <= |Idempotency.Next(s, step).calls|
    ensures forall c :: 0 <= c < |s.calls| ==> Idempotency.Next(s, step).calls[c].slot == s.calls[c].slot
  {}

  lemma OneRunsStays(j: Joined, claim: Idempotency.Step, slot: Idempotency.Slot)
    requires Sound(j) && Disciplined(j, Claim(claim))
    ensures Idempotency.OneRuns(Idempotency.Next(j.server, claim), slot)
  {
    assert Idempotency.OneRuns(j.server, slot);
    Idempotency.SingleIffNoOverrun(j.server, claim, slot);
  }

  /** A key nobody has begun with is harmless, as nobody has booked under it. */
  lemma UnusedIsHarmless(j: Joined, slot: Idempotency.Slot)
    requires Sound(j) && OneUserPerKey(j, slot) && !Begun(j, slot)
    ensures Harmless(j.sys, slot.key)
  {
    forall b: nat | b < |j.sys.db.bookings| ensures j.sys.db.bookings[b].key != slot.key {
      assert KeyBegun(j.server, j.sys.db.bookings[b].key);
    }
  }

  lemma BeginKeepsGuard(j: Joined, slot: Idempotency.Slot, digest: nat, other: Idempotency.Slot)
    requires Sound(j) && Disciplined(j, Claim(Idempotency.Begin(slot, digest)))
    requires Begun(NextOf(j, Claim(Idempotency.Begin(slot, digest))), other)
    ensures Guarded(NextOf(j, Claim(Idempotency.Begin(slot, digest))), other)
  {
    if Begun(j, other) {
      assert Guarded(j, other);
    } else {
      assert other == slot;
      UnusedIsHarmless(j, slot);
    }
  }

  lemma ClaimKeepsGuard(j: Joined, claim: Idempotency.Step, other: Idempotency.Slot)
    requires Sound(j) && Disciplined(j, Claim(claim)) && !claim.Tick? && Begun(NextOf(j, Claim(claim)), other)
    ensures Guarded(NextOf(j, Claim(claim)), other)
  {
    match claim
    case Begin(slot, digest) => BeginKeepsGuard(j, slot, digest, other);
    case _ => OtherClaimKeepsGuard(j, claim, other);
  }

  /** A key that is not harmless is not released, so its row stays; and nobody starts to run. */
  lemma OtherClaimKeepsGuard(j: Joined, claim: Idempotency.Step, other: Idempotency.Slot)
    requires Sound(j) && Disciplined(j, Claim(claim)) && !claim.Begin? && !claim.Tick? && Begun(NextOf(j, Claim(claim)), other)
    ensures Guarded(NextOf(j, Claim(claim)), other)
  {
    CallsKeepSlots(j.server, claim);
    assert Begun(j, other) && Guarded(j, other);
    RowsStay(j.server, claim, other);
  }

  lemma RowsStay(s: Idempotency.Server, claim: Idempotency.Step, slot: Idempotency.Slot)
    requires !claim.Begin?
    ensures var t := Idempotency.Next(s, claim);
      && |t.calls| == |s.calls|
      && (forall c :: 0 <= c < |s.calls| && Idempotency.RunsOn(t.calls[c], slot) ==> Idempotency.RunsOn(s.calls[c], slot))
      && (slot in s.claims && slot !in t.claims ==> claim.Release? && Idempotency.IsRunning(s, claim.c) && s.calls[claim.c].slot == slot)
  {}

  lemma BeginKeepsKeysApart(j: Joined, claim: Idempotency.Step)
    requires KeysApart(j) && (claim.Begin? ==> OneUserPerKey(j, claim.slot)) && !claim.Tick?
    ensures KeysApart(NextOf(j, Claim(claim)))
  {
    CallsKeepSlots(j.server, claim);
  }

  lemma ClaimKeepsSound(j: Joined, claim: Idempotency.Step)
    requires Sound(j) && Disciplined(j, Claim(claim)) && !claim.Tick?
    ensures Sound(NextOf(j, Claim(claim)))
  {
    var k := NextOf(j, Claim(claim));
    CallsKeepSlots(j.server, claim);
    BeginKeepsKeysApart(j, claim);
    forall slot ensures Idempotency.OneRuns(k.server, slot) {
      OneRunsStays(j, claim, slot);
    }
    forall slot | Begun(k, slot) ensures Guarded(k, slot) {
      ClaimKeepsGuard(j, claim, slot);
    }
    forall b: nat | b < |k.sys.db.bookings| ensures KeyBegun(k.server, k.sys.db.bookings[b].key) {
      StillBegun(j.server, claim, j.sys.db.bookings[b].key);
    }
  }

  lemma StillBegun(server: Idempotency.Server, claim: Idempotency.Step, key: string)
    requires KeyBegun(server, key)
    ensures KeyBegun(Idempotency.Next(server, claim), key)
  {
    CallsKeepSlots(server, claim);
    var c: nat :| c < |server.calls| && server.calls[c].slot.key == key;
    assert Idempotency.Next(server, claim).calls[c].slot.key == key;
  }

  // ----- the moves of the machine -----

  lemma WorkKeepsSound(j: Joined, step: Step)
    requires Sound(j) && Careful(j.sys, step) && !step.CreateBooking?
    ensures Sound(j.(sys := Next(j.sys, step)))
  {
    var k := j.(sys := Next(j.sys, step));
    CarefulStepSettles(j.sys, step);
    KeysFixed(j.sys, step);
    forall slot | Begun(k, slot) ensures Guarded(k, slot) {
      assert Begun(j, slot) && Guarded(j, slot);
      if Harmless(j.sys, slot.key) {
        HarmlessStays(j.sys, step, slot.key);
      }
    }
  }

  lemma ServerTicks(j: Joined, seconds: nat)
    requires Sound(j)
    ensures Sound(j.(server := Idempotency.Next(j.server, Idempotency.Tick(seconds))))
  {
    var k := j.(server := Idempotency.Next(j.server, Idempotency.Tick(seconds)));
    assert k.server.calls == j.server.calls && k.server.claims == j.server.claims;
    forall slot ensures Idempotency.OneRuns(k.server, slot) {
      assert Idempotency.OneRuns(j.server, slot);
    }
    forall slot | Begun(k, slot) ensures Guarded(k, slot) {
      assert Begun(j, slot) && Guarded(j, slot);
    }
    forall b: nat | b < |k.sys.db.bookings| ensures KeyBegun(k.server, k.sys.db.bookings[b].key) {
      StillBegun(j.server, Idempotency.Tick(seconds), j.sys.db.bookings[b].key);
    }
  }

  lemma WaitKeepsSound(j: Joined, seconds: nat)
    requires Sound(j)
    ensures Sound(NextOf(j, Wait(seconds)))
  {
    ServerTicks(j, seconds);
    WorkKeepsSound(j.(server := Idempotency.Next(j.server, Idempotency.Tick(seconds))), Tick(seconds));
  }

  /** A call that may open a booking runs under a key that is harmless: the claims see to it. */
  lemma ClaimMakesHarmless(j: Joined, c: nat)
    requires Sound(j) && MayOpen(j, c)
    ensures Harmless(j.sys, SlotOf(j, c).key)
  {
    var slot := SlotOf(j, c);
    assert Begun(j, slot) && Guarded(j, slot);
    assert Idempotency.RunsOn(j.server.calls[c], slot);
  }

  lemma OpenedElsewhere(s: System, t: System, key: string)
    requires Opens(s, t) && t.db.bookings[|s.db.bookings|].key != key && Harmless(s, key)
    ensures Harmless(t, key)
  {
    if !Declined(s.gw, AuthKey(key)) {
      forall b: nat | b < |t.db.bookings| && t.db.bookings[b].key == key ensures Inert(t.sagas[b].pc) {
        OldAccountKept(s, t, b);
        assert t.db.bookings[b] == s.db.bookings[b];
      }
    }
  }

  lemma OpenKeepsGuard(j: Joined, c: nat, t: System, slot: Idempotency.Slot)
    requires Sound(j) && MayOpen(j, c) && Opens(j.sys, t) && t.db.bookings[|j.sys.db.bookings|].key == SlotOf(j, c).key
    requires Begun(j, slot)
    ensures Guarded(j.(sys := t, bookingOf := j.bookingOf[c := |j.sys.db.bookings|]), slot)
  {
    assert Guarded(j, slot);
    if slot.key == SlotOf(j, c).key {
      assert slot == SlotOf(j, c);
      assert Idempotency.OneRuns(j.server, slot) && Idempotency.RunsOn(j.server.calls[c], slot);
    } else if Harmless(j.sys, slot.key) {
      OpenedElsewhere(j.sys, t, slot.key);
    }
  }

  lemma OpenKeepsSound(j: Joined, c: nat, holds: seq<nat>, passengers: nat)
    requires Sound(j)
    ensures Sound(NextOf(j, Move.Open(c, holds, passengers)))
  {
    if MayOpen(j, c) && Next(j.sys, Opening(j, c, holds, passengers)) != j.sys {
      var step := Opening(j, c, holds, passengers);
      ClaimMakesHarmless(j, c);
      CarefulStepSettles(j.sys, step);
      Failures.OpenedStands(j.sys, step);
      OpenedKeepsSound(j, c, Next(j.sys, step));
    }
  }

  lemma OpenedKeepsSound(j: Joined, c: nat, t: System)
    requires Sound(j) && MayOpen(j, c) && Opens(j.sys, t) && t.db.bookings[|j.sys.db.bookings|].key == SlotOf(j, c).key
    requires Safe(t) && Settled(t)
    ensures Sound(j.(sys := t, bookingOf := j.bookingOf[c := |j.sys.db.bookings|]))
  {
    var k := j.(sys := t, bookingOf := j.bookingOf[c := |j.sys.db.bookings|]);
    forall slot | Begun(k, slot) ensures Guarded(k, slot) {
      assert Begun(j, slot);
      OpenKeepsGuard(j, c, t, slot);
    }
    forall b: nat | b < |t.db.bookings| ensures KeyBegun(j.server, t.db.bookings[b].key) {
      if b < |j.sys.db.bookings| {
        assert t.db.bookings[b] == j.sys.db.bookings[b];
        assert KeyBegun(j.server, j.sys.db.bookings[b].key);
      }
    }
  }

  lemma MoveKeepsSound(j: Joined, move: Move)
    requires Sound(j) && Disciplined(j, move)
    ensures Sound(NextOf(j, move))
  {
    match move
    case Claim(claim) => if !claim.Tick? { ClaimKeepsSound(j, claim); }
    case Work(step) => if !step.Tick? && !step.CreateBooking? { WorkKeepsSound(j, step); }
    case Wait(seconds) => WaitKeepsSound(j, seconds);
    case Open(c, holds, passengers) => OpenKeepsSound(j, c, holds, passengers);
  }

  // ----- over whole runs -----

  ghost predicate DisciplinedRun(j: Joined, moves: seq<Move>) {
    moves == []
    || (DisciplinedRun(j, moves[..|moves| - 1]) && IsDisciplined(Run(j, moves[..|moves| - 1]), moves[|moves| - 1]))
  }

  ghost predicate IsDisciplined(j: Joined, move: Move) {
    |j.sys.sagas| == |j.sys.db.bookings| && Disciplined(j, move)
  }

  lemma {:induction false} RunKeepsSound(j: Joined, moves: seq<Move>)
    requires Sound(j) && DisciplinedRun(j, moves)
    ensures Sound(Run(j, moves))
  {
    if moves != [] {
      RunKeepsSound(j, moves[..|moves| - 1]);
      MoveKeepsSound(Run(j, moves[..|moves| - 1]), moves[|moves| - 1]);
    }
  }

  lemma FreshIsSound(ttl: nat, cfg: Config, now: int, seats: seq<Seat>)
    requires Seeded(seats)
    ensures Sound(Joined(Idempotency.Server(ttl, now, map[], []), Start(cfg, now, seats), map[]))
  {
    StartIsSafe(cfg, now, seats);
  }

  /** Claims, sagas, holds, cancels, crashes and both clocks together: if keys belong to one user and no claim is taken
    * over or dropped while a charge under its key may still move, then whenever a call opens a booking its key is
    * harmless, and the money rule holds throughout, without anything being asked of the opening itself. */
  lemma ClaimsKeepTheMoneyRule(ttl: nat, cfg: Config, now: int, seats: seq<Seat>, moves: seq<Move>)
    requires Seeded(seats)
    requires DisciplinedRun(Joined(Idempotency.Server(ttl, now, map[], []), Start(cfg, now, seats), map[]), moves)
    ensures var j := Run(Joined(Idempotency.Server(ttl, now, map[], []), Start(cfg, now, seats), map[]), moves);
      && MoneyRule(j.sys)
      && |j.sys.sagas| == |j.sys.db.bookings|
      && forall c :: MayOpen(j, c) ==> Harmless(j.sys, SlotOf(j, c).key)
  {
    var start := Joined(Idempotency.Server(ttl, now, map[], []), Start(cfg, now, seats), map[]);
    FreshIsSound(ttl, cfg, now, seats);
    RunKeepsSound(start, moves);
    var j := Run(start, moves);
    SettledKeepsTheRule(j.sys);
    forall c | MayOpen(j, c) ensures Harmless(j.sys, SlotOf(j, c).key) {
      ClaimMakesHarmless(j, c);
    }
  }
}
