/** Exactly what a granted claim must not be granted over: the weakest discipline under which calls, claims and sagas
  * together keep the money rule. Two users may share a key, and a claim may be released at any time. */
module Admission {
  import opened Inventory
  import opened Store
  import opened Machine
  import opened Safety
  import opened Runs
  import opened Settlement
  import opened Joint
  import Failures
  import Idempotency

  /** No call that has still to open its booking runs under the key. */
  ghost predicate NobodyWaits(j: Joined, key: string) {
    forall c: nat :: MayOpen(j, c) ==> SlotOf(j, c).key != key
  }

  ghost predicate Grants(j: Joined, slot: Idempotency.Slot) {
    Idempotency.Claimable(j.server.claims, slot, j.server.now)
  }

  /** A claim is granted only over a key under which nothing can still move and nobody is about to open a booking. */
  ghost predicate Admitted(j: Joined, move: Move)
    requires |j.sys.sagas| == |j.sys.db.bookings|
  {
    match move
    case Claim(claim) =>
      claim.Begin? && Grants(j, claim.slot) ==> Harmless(j.sys, claim.slot.key) && NobodyWaits(j, claim.slot.key)
    case Work(step) => !step.CreateBooking? ==> Careful(j.sys, step)
    case Open(_, _, _) => true
    case Wait(_) => true
  }

  /** Whoever may open a booking may do so under a harmless key. */
  ghost predicate OpensHarmless(j: Joined)
    requires |j.sys.sagas| == |j.sys.db.bookings|
  {
    forall c: nat :: MayOpen(j, c) ==> Harmless(j.sys, SlotOf(j, c).key)
  }

  ghost predicate OneWaits(j: Joined) {
    forall c: nat, d: nat :: MayOpen(j, c) && MayOpen(j, d) && c != d ==> SlotOf(j, c).key != SlotOf(j, d).key
  }

  ghost predicate Ready(j: Joined) {
    && Safe(j.sys) && Settled(j.sys) && OpensHarmless(j) && OneWaits(j)
    && (forall c :: c in j.bookingOf ==> c < |j.server.calls|)
  }

  // ----- claims -----

  /** Which calls may open after a move of the claim table: those that might before, and a call just granted. */
  lemma WhoMayOpen(j: Joined, claim: Idempotency.Step, c: nat)
    requires (forall d :: d in j.bookingOf ==> d < |j.server.calls|) && MayOpen(NextOf(j, Claim(claim)), c)
    ensures c < |j.server.calls| ==> MayOpen(j, c) && SlotOf(NextOf(j, Claim(claim)), c) == SlotOf(j, c)
    ensures c >= |j.server.calls| ==>
      c == |j.server.calls| && claim.Begin? && Grants(j, claim.slot) && SlotOf(NextOf(j, Claim(claim)), c) == claim.slot
  {}

  lemma BeginMayOpen(j: Joined, slot: Idempotency.Slot, digest: nat, c: nat)
    requires forall d :: d in j.bookingOf ==> d < |j.server.calls|
    ensures var k := NextOf(j, Claim(Idempotency.Begin(slot, digest)));
      && (MayOpen(j, c) ==> MayOpen(k, c) && SlotOf(k, c) == SlotOf(j, c))
      && (c == |j.server.calls| && Grants(j, slot) ==> MayOpen(k, c) && SlotOf(k, c) == slot)
  {}

  /** After a begin every call that may open has a harmless key, if and only if the claim, if it was granted, was
    * granted over a harmless key. */
  lemma BeginIsHarmlessIff(j: Joined, slot: Idempotency.Slot, digest: nat)
    requires Ready(j)
    ensures OpensHarmless(NextOf(j, Claim(Idempotency.Begin(slot, digest)))) <==> (Grants(j, slot) ==> Harmless(j.sys, slot.key))
  {
    var k := NextOf(j, Claim(Idempotency.Begin(slot, digest)));
    BeginMayOpen(j, slot, digest, |j.server.calls|);
    forall c: nat | MayOpen(k, c) && (Grants(j, slot) ==> Harmless(j.sys, slot.key)) ensures Harmless(k.sys, SlotOf(k, c).key) {
      WhoMayOpen(j, Idempotency.Begin(slot, digest), c);
    }
  }

  /** And then at most one of them runs under each key, if and only if nobody else waited under a key just granted. */
  lemma BeginIsAloneIff(j: Joined, slot: Idempotency.Slot, digest: nat)
    requires Ready(j)
    ensures OneWaits(NextOf(j, Claim(Idempotency.Begin(slot, digest)))) <==> (Grants(j, slot) ==> NobodyWaits(j, slot.key))
  {
    var k := NextOf(j, Claim(Idempotency.Begin(slot, digest)));
    var n := |j.server.calls|;
    BeginMayOpen(j, slot, digest, n);
    if Grants(j, slot) && !NobodyWaits(j, slot.key) {
      var c: nat :| MayOpen(j, c) && SlotOf(j, c).key == slot.key;
      BeginMayOpen(j, slot, digest, c);
      assert MayOpen(k, c) && MayOpen(k, n) && c != n;
    } else {
      forall c: nat, d: nat | MayOpen(k, c) && MayOpen(k, d) && c != d ensures SlotOf(k, c).key != SlotOf(k, d).key {
        WhoMayOpen(j, Idempotency.Begin(slot, digest), c);
        WhoMayOpen(j, Idempotency.Begin(slot, digest), d);
      }
    }
  }

  /** The second condition is needed too: of two calls that wait under one key, whichever opens first leaves the other
    * about to open under a key that is not harmless, unless its charge was declined. */
  lemma TwoWaitingClash(j: Joined, c: nat, d: nat, holds: seq<nat>, passengers: nat)
    requires Safe(j.sys) && Settled(j.sys) && MayOpen(j, c) && MayOpen(j, d) && c != d && SlotOf(j, c).key == SlotOf(j, d).key
    requires Next(j.sys, Opening(j, c, holds, passengers)) != j.sys && !Declined(j.sys.gw, AuthKey(SlotOf(j, c).key))
    ensures var k := NextOf(j, Move.Open(c, holds, passengers));
      |k.sys.sagas| == |k.sys.db.bookings| && MayOpen(k, d) && !Harmless(k.sys, SlotOf(k, d).key)
  {
    var step := Opening(j, c, holds, passengers);
    StepIsSafe(j.sys, step);
    Failures.OpenedStands(j.sys, step);
    var t := Next(j.sys, step);
    assert t.db.bookings[|j.sys.db.bookings|].key == SlotOf(j, c).key && !Inert(t.sagas[|j.sys.db.bookings|].pc);
  }

  lemma ClaimKeepsReady(j: Joined, claim: Idempotency.Step)
    requires Ready(j) && Admitted(j, Claim(claim))
    ensures Ready(NextOf(j, Claim(claim)))
  {
    var k := NextOf(j, Claim(claim));
    forall c: nat | MayOpen(k, c) ensures Harmless(k.sys, SlotOf(k, c).key) {
      WhoMayOpen(j, claim, c);
    }
    forall c: nat, d: nat | MayOpen(k, c) && MayOpen(k, d) && c != d ensures SlotOf(k, c).key != SlotOf(k, d).key {
      WhoMayOpen(j, claim, c);
      WhoMayOpen(j, claim, d);
    }
  }

  // ----- the machine -----

  lemma NoMoreWait(j: Joined, k: Joined)
    requires OneWaits(j) && k.server.calls == j.server.calls && j.bookingOf.Keys <= k.bookingOf.Keys
    ensures OneWaits(k)
    ensures forall c: nat :: MayOpen(k, c) ==> MayOpen(j, c) && SlotOf(k, c) == SlotOf(j, c)
  {
    forall c: nat, d: nat | MayOpen(k, c) && MayOpen(k, d) && c != d ensures SlotOf(k, c).key != SlotOf(k, d).key {
      assert MayOpen(j, c) && MayOpen(j, d);
    }
  }

  lemma WorkKeepsReady(j: Joined, step: Step)
    requires Ready(j) && Careful(j.sys, step) && !step.CreateBooking?
    ensures Ready(j.(sys := Next(j.sys, step)))
  {
    CarefulStepSettles(j.sys, step);
    var k := j.(sys := Next(j.sys, step));
    NoMoreWait(j, k);
    forall c: nat | MayOpen(k, c) ensures Harmless(k.sys, SlotOf(k, c).key) {
      assert MayOpen(j, c);
      HarmlessStays(j.sys, step, SlotOf(j, c).key);
    }
  }

  lemma WaitKeepsReady(j: Joined, seconds: nat)
    requires Ready(j)
    ensures Ready(NextOf(j, Wait(seconds)))
  {
    var m := j.(server := Idempotency.Next(j.server, Idempotency.Tick(seconds)));
    NoMoreWait(j, m);
    WorkKeepsReady(m, Tick(seconds));
  }

  lemma OpenedKeepsReady(j: Joined, c: nat, t: System)
    requires Ready(j) && MayOpen(j, c) && Opens(j.sys, t) && t.db.bookings[|j.sys.db.bookings|].key == SlotOf(j, c).key
    requires Safe(t) && Settled(t)
    ensures Ready(j.(sys := t, bookingOf := j.bookingOf[c := |j.sys.db.bookings|]))
  {
    var k := j.(sys := t, bookingOf := j.bookingOf[c := |j.sys.db.bookings|]);
    NoMoreWait(j, k);
    forall d: nat | MayOpen(k, d) ensures Harmless(t, SlotOf(k, d).key) {
      assert MayOpen(j, d) && d != c;
      OpenedElsewhere(j.sys, t, SlotOf(j, d).key);
    }
  }

  lemma OpenKeepsReady(j: Joined, c: nat, holds: seq<nat>, passengers: nat)
    requires Ready(j)
    ensures Ready(NextOf(j, Move.Open(c, holds, passengers)))
  {
    if MayOpen(j, c) && Next(j.sys, Opening(j, c, holds, passengers)) != j.sys {
      var step := Opening(j, c, holds, passengers);
      CarefulStepSettles(j.sys, step);
      Failures.OpenedStands(j.sys, step);
      OpenedKeepsReady(j, c, Next(j.sys, step));
    }
  }

  lemma MoveKeepsReady(j: Joined, move: Move)
    requires Ready(j) && Admitted(j, move)
    ensures Ready(NextOf(j, move))
  {
    match move
    case Claim(claim) => ClaimKeepsReady(j, claim);
    case Work(step) => if !step.Tick? && !step.CreateBooking? { WorkKeepsReady(j, step); }
    case Wait(seconds) => WaitKeepsReady(j, seconds);
    case Open(c, holds, passengers) => OpenKeepsReady(j, c, holds, passengers);
  }

  // ----- over whole runs -----

  ghost predicate AdmittedRun(j: Joined, moves: seq<Move>) {
    moves == []
    || (AdmittedRun(j, moves[..|moves| - 1]) && IsAdmitted(Run(j, moves[..|moves| - 1]), moves[|moves| - 1]))
  }

  ghost predicate IsAdmitted(j: Joined, move: Move) {
    |j.sys.sagas| == |j.sys.db.bookings| && Admitted(j, move)
  }

  lemma {:induction false} RunKeepsReady(j: Joined, moves: seq<Move>)
    requires Ready(j) && AdmittedRun(j, moves)
    ensures Ready(Run(j, moves))
  {
    if moves != [] {
      RunKeepsReady(j, moves[..|moves| - 1]);
      MoveKeepsReady(Run(j, moves[..|moves| - 1]), moves[|moves| - 1]);
    }
  }

  /** A retry never books twice: under one key at most one booking ever issues tickets. */
  ghost predicate OneTicketedPerKey(s: System)
    requires |s.sagas| == |s.db.bookings|
  {
    forall b: nat, c: nat :: b < |s.sagas| && c < |s.sagas| && b != c && s.db.bookings[b].key == s.db.bookings[c].key ==>
      !(HasIssued(s.sagas[b]) && HasIssued(s.sagas[c]))
  }

  function Fresh(ttl: nat, cfg: Config, now: int, seats: seq<Seat>): Joined {
    Joined(Idempotency.Server(ttl, now, map[], []), Start(cfg, now, seats), map[])
  }

  lemma ReadyKeepsTheRules(j: Joined)
    requires Ready(j)
    ensures MoneyRule(j.sys) && OneTicketedPerKey(j.sys)
  {
    SettledKeepsTheRule(j.sys);
    forall b: nat, c: nat | b < |j.sys.sagas| && c < |j.sys.sagas| && b != c && j.sys.db.bookings[b].key == j.sys.db.bookings[c].key
      ensures !(HasIssued(j.sys.sagas[b]) && HasIssued(j.sys.sagas[c]))
    {
      OneIssuedPerKey(j.sys, b, c);
    }
  }

  /** Claims, sagas, holds, cancels, crashes and both clocks together, in any interleaving: if claims are granted only so
    * and refunds go through only for bookings that are not TICKETED, then no booking is made twice under a key, every
    * call that may open a booking does so under a harmless key, and the money rule holds throughout. */
  lemma NeverBooksTwice(ttl: nat, cfg: Config, now: int, seats: seq<Seat>, moves: seq<Move>)
    requires Seeded(seats) && AdmittedRun(Fresh(ttl, cfg, now, seats), moves)
    ensures var j := Run(Fresh(ttl, cfg, now, seats), moves);
      && |j.sys.sagas| == |j.sys.db.bookings|
      && OneTicketedPerKey(j.sys) && MoneyRule(j.sys) && OpensHarmless(j)
  {
    StartIsSafe(cfg, now, seats);
    assert Ready(Fresh(ttl, cfg, now, seats));
    RunKeepsReady(Fresh(ttl, cfg, now, seats), moves);
    ReadyKeepsTheRules(Run(Fresh(ttl, cfg, now, seats), moves));
  }

  // ----- standing claims suffice -----

  /** One user per key, and no claim taken over or dropped while a charge under it may move: then every claim that is
    * granted is admitted. */
  lemma DisciplinedIsAdmitted(j: Joined, move: Move)
    requires Sound(j) && Disciplined(j, move)
    ensures Admitted(j, move)
  {
    match move
    case Claim(claim) => if claim.Begin? && Grants(j, claim.slot) { GrantIsAdmitted(j, claim.slot, claim.digest); }
    case _ => {}
  }

  lemma GrantIsAdmitted(j: Joined, slot: Idempotency.Slot, digest: nat)
    requires Sound(j) && Disciplined(j, Claim(Idempotency.Begin(slot, digest))) && Grants(j, slot)
    ensures Harmless(j.sys, slot.key) && NobodyWaits(j, slot.key)
  {
    assert Idempotency.OneRuns(j.server, slot);
    if slot !in j.server.claims {
      if Begun(j, slot) {
        assert Guarded(j, slot);
      } else {
        UnusedIsHarmless(j, slot);
      }
    }
    forall c: nat | MayOpen(j, c) ensures SlotOf(j, c).key != slot.key {
      RunsOnOwnSlot(j, slot, c);
    }
  }

  lemma RunsOnOwnSlot(j: Joined, slot: Idempotency.Slot, c: nat)
    requires OneUserPerKey(j, slot) && MayOpen(j, c)
    ensures SlotOf(j, c).key == slot.key ==> Idempotency.RunsOn(j.server.calls[c], slot)
  {}

  lemma {:induction false} DisciplinedRunIsAdmitted(j: Joined, moves: seq<Move>)
    requires Sound(j) && DisciplinedRun(j, moves)
    ensures AdmittedRun(j, moves)
  {
    if moves != [] {
      DisciplinedRunIsAdmitted(j, moves[..|moves| - 1]);
      RunKeepsSound(j, moves[..|moves| - 1]);
      DisciplinedIsAdmitted(Run(j, moves[..|moves| - 1]), moves[|moves| - 1]);
    }
  }
}
