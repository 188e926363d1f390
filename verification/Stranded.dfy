/** The seats of a saga that stopped: no sweep gives them back. Exactly three things do. */
module Stranded {
  import opened Domain
  import opened Inventory
  import opened Store
  import opened Machine
  import opened Safety
  import opened Steps
  import opened Runs
  import opened Isolation
  import opened Holds

  /** Held, and pinned to booking b. */
  ghost predicate PinnedTo(s: System, b: nat, i: nat) {
    i < |s.db.seats| && s.db.seats[i].status.Held? && s.db.seats[i].booking == Some(b)
  }

  /** Somebody gives the seat's own hold back. */
  ghost predicate Releases(s: System, step: Step, i: nat)
    requires i < |s.db.seats|
  {
    step.ReleaseHold? && HasHold(s.db.seats[i], step.hold, step.owner)
  }

  /** The holder opens another booking on the same hold. */
  ghost predicate Repins(s: System, step: Step, i: nat)
    requires i < |s.db.seats|
  {
    && step.CreateBooking? && ValidRequest(step.holds, step.passengers)
    && Store.CreateBooking(s.db, step.user, step.key, step.holds, s.now).Created?
    && Mine(s.db.seats[i], step.holds, step.user)
  }

  ghost predicate Leaves(s: System, step: Step, i: nat)
    requires i < |s.db.seats|
  {
    Wins(s, step, i) || Releases(s, step, i) || Repins(s, step, i)
  }

  function AfterLeaving(s: System, step: Step, i: nat): Seat
    requires i < |s.db.seats|
  {
    match step
    case TakeSeat(user, _, _) => Taken(s.db.seats[i], user, s.db.nextHold, s.now + s.cfg.holdTtl)
    case ReleaseHold(_, _) => LetGo(s.db.seats[i])
    case _ => Pinned(s.db.seats[i], |s.db.bookings|)
  }

  lemma CreatedPinsMine(db: Tables, user: nat, key: string, holds: seq<nat>, now: int, i: nat)
    requires i < |db.seats| && Store.CreateBooking(db, user, key, holds, now).Created?
    ensures var t := Store.CreateBooking(db, user, key, holds, now).tables;
      |t.seats| == |db.seats| && t.seats[i] == if Mine(db.seats[i], holds, user) then Pinned(db.seats[i], |db.bookings|) else db.seats[i]
  {
    var ids := Matched(db.seats, |db.seats|, holds, user);
    MatchedIsExact(db.seats, |db.seats|, holds, user);
    SortByPlaceKeeps(db.seats, ids);
    SameMultiset(ids, SortByPlace(db.seats, ids));
  }

  lemma CreateOnSeat(s: System, step: Step, i: nat)
    requires i < |s.db.seats| && step.CreateBooking?
    ensures |Next(s, step).db.seats| == |s.db.seats|
    ensures Next(s, step).db.seats[i] == if Repins(s, step, i) then AfterLeaving(s, step, i) else s.db.seats[i]
  {
    if Store.CreateBooking(s.db, step.user, step.key, step.holds, s.now).Created? {
      CreatedPinsMine(s.db, step.user, step.key, step.holds, s.now, i);
    }
  }

  lemma HoldStepOnSeat(s: System, step: Step, b: nat, i: nat)
    requires PinnedTo(s, b, i) && Owner(step).None? && !step.CreateBooking?
    ensures |Next(s, step).db.seats| == |s.db.seats|
    ensures Next(s, step).db.seats[i] == if Leaves(s, step, i) then AfterLeaving(s, step, i) else s.db.seats[i]
  {}

  /** Without a step of its own saga or cancel, a pinned hold leaves its booking if and only if an acquire wins the
    * expired seat, somebody releases that very hold, or its holder opens another booking on it. In particular no
    * sweep ever changes it. */
  lemma PinnedLeavesOnlySo(s: System, step: Step, b: nat, i: nat)
    requires Safe(s) && PinnedTo(s, b, i) && Owner(step) != Some(b)
    ensures |Next(s, step).db.seats| == |s.db.seats|
    ensures Next(s, step).db.seats[i] == if Leaves(s, step, i) then AfterLeaving(s, step, i) else s.db.seats[i]
    ensures Next(s, step).db.seats[i] != s.db.seats[i] <==> Leaves(s, step, i)
    ensures step.Sweep? ==> Next(s, step).db.seats[i] == s.db.seats[i]
    ensures Wins(s, step, i) ==> s.db.seats[i].expires.Some? && s.db.seats[i].expires.value < s.now
  {
    if Owner(step).Some? {
      SagasAreIsolated(s, step, Owner(step).value);
    } else if step.CreateBooking? {
      CreateOnSeat(s, step, i);
    } else {
      HoldStepOnSeat(s, step, b, i);
    }
  }

  // ----- over whole runs -----

  /** Booking b's saga has stopped, and nobody cancels it. */
  ghost predicate Stopped(steps: seq<Step>, b: nat) {
    forall k :: 0 <= k < |steps| ==> Owner(steps[k]) != Some(b)
  }

  ghost predicate NobodyTakesIt(s: System, steps: seq<Step>, i: nat) {
    steps == []
    || (NobodyTakesIt(s, steps[..|steps| - 1], i)
        && i < |Exec(s, steps[..|steps| - 1]).db.seats| && !Leaves(Exec(s, steps[..|steps| - 1]), steps[|steps| - 1], i))
  }

  ghost predicate KeepsSeat(s: System, steps: seq<Step>, i: nat, seat: Seat) {
    && i < |Exec(s, steps).db.seats| && Exec(s, steps).db.seats[i] == seat
    && (steps == [] || KeepsSeat(s, steps[..|steps| - 1], i, seat))
  }

  /** However many sweeps run and however much time passes, the seat of a stopped saga stays as it is, column for
    * column, at every moment, if and only if nobody takes it in one of the three ways. */
  lemma {:induction false} StrandedUntilTaken(s: System, steps: seq<Step>, b: nat, i: nat)
    requires Safe(s) && PinnedTo(s, b, i) && Stopped(steps, b)
    ensures KeepsSeat(s, steps, i, s.db.seats[i]) <==> NobodyTakesIt(s, steps, i)
  {
    if steps != [] {
      var front, last := steps[..|steps| - 1], steps[|steps| - 1];
      StrandedUntilTaken(s, front, b, i);
      RunIsSafe(s, front);
      if KeepsSeat(s, front, i, s.db.seats[i]) {
        PinnedLeavesOnlySo(Exec(s, front), last, b, i);
      }
    }
  }

  predicate OnlyHousekeeping(step: Step) {
    step.Sweep? || step.Tick? || step.CountHolds?
  }

  /** So the sweep alone never recovers the seat. */
  lemma {:induction false} SweepsNeverRecover(s: System, steps: seq<Step>, b: nat, i: nat)
    requires Safe(s) && PinnedTo(s, b, i) && forall k :: 0 <= k < |steps| ==> OnlyHousekeeping(steps[k])
    ensures PinnedTo(Exec(s, steps), b, i) && Exec(s, steps).db.seats[i] == s.db.seats[i]
  {
    if steps != [] {
      var front, last := steps[..|steps| - 1], steps[|steps| - 1];
      SweepsNeverRecover(s, front, b, i);
      RunIsSafe(s, front);
      assert OnlyHousekeeping(last);
      PinnedLeavesOnlySo(Exec(s, front), last, b, i);
    }
  }
}
