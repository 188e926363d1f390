/** Hold intervals, racing acquires and the cap on holds, over every run of the machine. */
module Holds {
  import opened Domain
  import opened Inventory
  import opened Store
  import opened Machine
  import opened Safety
  import opened Steps
  import opened Runs

  // ----- every write any step makes to a seat row -----

  ghost predicate TakesSeat(s: System, step: Step, i: nat)
    requires i < |s.db.seats|
  {
    && step.TakeSeat? && Inventory.At(s.db.seats[i], step.flight, step.place)
    && CountedFor(s, step.user) > 0
  }

  ghost predicate Wins(s: System, step: Step, i: nat)
    requires i < |s.db.seats|
  {
    TakesSeat(s, step, i) && Takeable(s.db.seats[i], s.now)
  }

  /** Only its booking_id changed, and only a live hold is pinned. */
  ghost predicate Relinked(before: Seat, after: Seat, now: int) {
    && after == before.(booking := after.booking, version := before.version + 1)
    && (after.booking.Some? ==> before.status.Held? && !Lapsed(before, now))
  }

  ghost predicate SoldNow(before: Seat, after: Seat) {
    before.status.Held? && before.booking.Some? && after == Inventory.Sold(before, before.booking.value)
  }

  ghost predicate LetGoNow(before: Seat, after: Seat) {
    after == LetGo(before) || after == Returned(before)
  }

  /** What one step may do to seat i. */
  ghost predicate RowWrite(s: System, step: Step, i: nat, after: Seat)
    requires i < |s.db.seats|
  {
    if Wins(s, step, i) then after == Taken(s.db.seats[i], step.user, s.db.nextHold, s.now + s.cfg.holdTtl)
    else Rewritten(s.db.seats[i], after, s.now)
  }

  ghost predicate Rewritten(before: Seat, after: Seat, now: int) {
    after == before || LetGoNow(before, after) || Relinked(before, after, now) || SoldNow(before, after)
  }

  lemma TableWrites(seats: seq<Seat>, b: nat, ids: seq<nat>, i: nat)
    requires i < |seats|
    ensures |Unpin(seats, b)| == |Return(seats, b)| == |Sell(seats, ids, b)| == |Pin(seats, ids, b)| == |seats|
    ensures Unpin(seats, b)[i] == if seats[i].booking == Some(b) then Unpinned(seats[i]) else seats[i]
    ensures Return(seats, b)[i] == if seats[i].booking == Some(b) then Returned(seats[i]) else seats[i]
    ensures Sell(seats, ids, b)[i] == if i in ids then Inventory.Sold(seats[i], b) else seats[i]
    ensures Pin(seats, ids, b)[i] == if i in ids then Pinned(seats[i], b) else seats[i]
  {}

  lemma IssueWrites(s: System, b: nat, rejected: bool, i: nat)
    requires Safe(s) && i < |s.db.seats|
    ensures var t := DoIssueTickets(s, b, rejected);
      |t.db.seats| == |s.db.seats| && (t.db.seats[i] == s.db.seats[i] || SoldNow(s.db.seats[i], t.db.seats[i]))
  {
    IssueWritesTable(s, b, rejected);
    if MaySell(s, b) {
      TableWrites(s.db.seats, b, s.db.bookings[b].seats, i);
      if i in s.db.bookings[b].seats {
        OursIsHeld(s, b, i);
      }
    }
  }

  ghost predicate MaySell(s: System, b: nat) {
    && SagaAt(s, b, Authorized) && InTable(s.db.seats, s.db.bookings[b].seats)
    && !AnyLost(s.db.seats, s.db.bookings[b].seats, b, s.db.bookings[b].user)
  }

  lemma IssueWritesTable(s: System, b: nat, rejected: bool)
    ensures DoIssueTickets(s, b, rejected).db.seats == s.db.seats
      || (MaySell(s, b) && DoIssueTickets(s, b, rejected).db.seats == Sell(s.db.seats, s.db.bookings[b].seats, b))
  {}

  lemma OursIsHeld(s: System, b: nat, i: nat)
    requires Safe(s) && MaySell(s, b) && i in s.db.bookings[b].seats
    ensures s.db.seats[i].status.Held? && s.db.seats[i].booking == Some(b)
  {
    var ids := s.db.bookings[b].seats;
    var k :| 0 <= k < |ids| && ids[k] == i;
    assert !Lost(s.db.seats[ids[k]], b, s.db.bookings[b].user);
    assert BookingOk(s, b);
    StillOursIsUntouched(s, b, k);
  }

  lemma CreateWrites(s: System, user: nat, key: string, holds: seq<nat>, passengers: nat, i: nat)
    requires Safe(s) && i < |s.db.seats|
    ensures var t := DoCreateBooking(s, user, key, holds, passengers);
      |t.db.seats| == |s.db.seats| && (t.db.seats[i] == s.db.seats[i] || Relinked(s.db.seats[i], t.db.seats[i], s.now))
  {
    if ValidRequest(holds, passengers) && Store.CreateBooking(s.db, user, key, holds, s.now).Created? {
      StepOneSeats(s, user, key, holds);
      var b := |s.db.bookings|;
      var ids := DoCreateBooking(s, user, key, holds, passengers).db.bookings[b].seats;
      assert DoCreateBooking(s, user, key, holds, passengers).db.seats == Pin(s.db.seats, ids, b);
      TableWrites(s.db.seats, b, ids, i);
      PinWrites(s.db.seats, ids, b, i, s.now);
    }
  }

  lemma PinWrites(seats: seq<Seat>, ids: seq<nat>, b: nat, i: nat, now: int)
    requires i < |seats| && InTable(seats, ids)
    requires forall k :: 0 <= k < |ids| ==> HoldIsLive(seats[ids[k]], now)
    ensures Pin(seats, ids, b)[i] == seats[i] || Relinked(seats[i], Pin(seats, ids, b)[i], now)
  {
    assert i in ids ==> HoldIsLive(seats[i], now);
  }

  lemma HoldWrites(s: System, step: Step, i: nat)
    requires Safe(s) && i < |s.db.seats| && Owner(step).None?
    ensures |Next(s, step).db.seats| == |s.db.seats|
    ensures RowWrite(s, step, i, Next(s, step).db.seats[i])
  {
    match step
    case CreateBooking(user, key, holds, passengers) => CreateWrites(s, user, key, holds, passengers, i);
    case _ => {}
  }

  predicate GivesBack(step: Step) {
    step.FraudBlock? || step.RecordAnswer? || step.FinishCompensation? || step.CancelCommit?
  }

  lemma QuietSteps(s: System, step: Step)
    requires Owner(step).Some? && !GivesBack(step) && !step.IssueTickets?
    ensures Next(s, step).db.seats == s.db.seats
  {}

  lemma GivesBackWrites(s: System, step: Step)
    requires GivesBack(step)
    ensures var b := Owner(step).value;
      var after := Next(s, step).db.seats;
      after == s.db.seats || after == Unpin(s.db.seats, b) || after == Return(s.db.seats, b)
  {
    match step
    case FinishCompensation(b) => FinishWrites(s, b);
    case _ => {}
  }

  lemma FinishWrites(s: System, b: nat)
    ensures var after := DoFinishCompensation(s, b).db.seats;
      after == s.db.seats || after == Return(s.db.seats, b)
  {}

  lemma SagaWrites(s: System, step: Step, i: nat)
    requires Safe(s) && i < |s.db.seats| && Owner(step).Some?
    ensures |Next(s, step).db.seats| == |s.db.seats|
    ensures Rewritten(s.db.seats[i], Next(s, step).db.seats[i], s.now)
  {
    if step.IssueTickets? {
      IssueWrites(s, step.b, step.rejected, i);
    } else if GivesBack(step) {
      GivesBackWrites(s, step);
      TableWrites(s.db.seats, Owner(step).value, [], i);
    } else {
      QuietSteps(s, step);
    }
  }

  /** Every write any step makes to a seat row, and when. */
  lemma EveryWrite(s: System, step: Step, i: nat)
    requires Safe(s) && i < |s.db.seats|
    ensures |Next(s, step).db.seats| == |s.db.seats|
    ensures RowWrite(s, step, i, Next(s, step).db.seats[i])
  {
    if Owner(step).Some? { SagaWrites(s, step, i); } else { HoldWrites(s, step, i); }
  }

  // ----- hold intervals -----

  ghost predicate Shows(s: System, i: nat, hold: nat) {
    i < |s.db.seats| && s.db.seats[i].holdId == Some(hold)
  }

  ghost predicate LiveUnder(s: System, i: nat, hold: nat) {
    Shows(s, i, hold) && HoldIsLive(s.db.seats[i], s.now)
  }

  /** A hold starts only on a seat that is free or whose hold ran out, never on a sold one; and while a hold
    * is shown its holder and expiry stand still. */
  ghost predicate StartsOrStays(s: System, step: Step, i: nat, after: Seat, hold: nat)
    requires i < |s.db.seats|
  {
    var before := s.db.seats[i];
    if before.holdId == Some(hold) then after.expires == before.expires && after.holder == before.holder
    else
      && hold == s.db.nextHold && Wins(s, step, i) && !before.status.Booked?
      && (before.holdId.Some? ==> before.expires.Some? && before.expires.value < s.now)
  }

  lemma WritesStartOrStay(s: System, step: Step, i: nat, after: Seat, hold: nat)
    requires i < |s.db.seats| && SeatOk(s.db.seats[i]) && RowWrite(s, step, i, after) && after.holdId == Some(hold)
    requires s.db.seats[i].holdId.Some? ==> s.db.seats[i].holdId.value < s.db.nextHold
    ensures StartsOrStays(s, step, i, after, hold)
  {}

  lemma HoldsStartOnFreeSeats(s: System, step: Step, i: nat, hold: nat)
    requires Safe(s) && i < |s.db.seats| && Shows(Next(s, step), i, hold)
    ensures StartsOrStays(s, step, i, Next(s, step).db.seats[i], hold)
  {
    EveryWrite(s, step, i);
    assert SeatOk(s.db.seats[i]);
    WritesStartOrStay(s, step, i, Next(s, step).db.seats[i], hold);
  }

  /** A hold id once taken off a seat never comes back to it. */
  lemma {:induction false} GoneForGood(s: System, steps: seq<Step>, i: nat, hold: nat)
    requires Safe(s) && i < |s.db.seats| && !Shows(s, i, hold) && hold < s.db.nextHold
    ensures !Shows(Exec(s, steps), i, hold)
    ensures hold < Exec(s, steps).db.nextHold && |Exec(s, steps).db.seats| == |s.db.seats|
  {
    if steps != [] {
      var front, last := steps[..|steps| - 1], steps[|steps| - 1];
      GoneForGood(s, front, i, hold);
      RunIsSafe(s, front);
      EveryWrite(Exec(s, front), last, i);
      HoldIdsGrow(Exec(s, front), last);
      if Shows(Next(Exec(s, front), last), i, hold) {
        HoldsStartOnFreeSeats(Exec(s, front), last, i, hold);
      }
    }
  }

  lemma HoldIdsGrow(s: System, step: Step)
    requires Safe(s)
    ensures s.db.nextHold <= Next(s, step).db.nextHold && s.now <= Next(s, step).now && s.cfg == Next(s, step).cfg
  {
    if Owner(step).Some? { SagaKeepsClock(s, step); } else { HoldStepClock(s, step); }
  }

  lemma SagaKeepsClock(s: System, step: Step)
    requires Safe(s) && Owner(step).Some?
    ensures var t := Next(s, step);
      t.db.nextHold == s.db.nextHold && t.now == s.now && t.cfg == s.cfg && t.counted == s.counted
  {
    StepEffect(s, step);
    EffectIsFramed(s, Next(s, step), step, Owner(step).value);
    OwnEffectKeeps(s, Next(s, step), Owner(step).value);
  }

  lemma HoldStepClock(s: System, step: Step)
    requires Owner(step).None?
    ensures s.db.nextHold <= Next(s, step).db.nextHold && s.now <= Next(s, step).now && s.cfg == Next(s, step).cfg
  {}

  lemma {:induction false} ExecSplit(s: System, steps: seq<Step>, k: nat)
    requires k <= |steps|
    ensures Exec(s, steps) == Exec(Exec(s, steps[..k]), steps[k..])
  {
    if k < |steps| {
      var n := |steps| - 1;
      ExecSplit(s, steps[..n], k);
      assert steps[..n][..k] == steps[..k];
      assert steps[..n][k..] == steps[k..][..n - k];
    } else {
      assert steps[..k] == steps;
    }
  }

  /** A hold shown at both ends of a run was shown all along, with the same expiry. */
  lemma {:induction false} ShownThroughout(s: System, steps: seq<Step>, i: nat, hold: nat)
    requires Safe(s) && Shows(s, i, hold) && Shows(Exec(s, steps), i, hold)
    ensures Exec(s, steps).db.seats[i].expires == s.db.seats[i].expires
    ensures Exec(s, steps).now >= s.now
  {
    if steps != [] {
      var front, last := steps[..|steps| - 1], steps[|steps| - 1];
      RunIsSafe(s, front);
      var t := Exec(s, front);
      GoneOrShown(s, front, i, hold);
      EveryWrite(t, last, i);
      HoldIdsGrow(t, last);
      HoldsStartOnFreeSeats(t, last, i, hold);
      ShownThroughout(s, front, i, hold);
    }
  }

  /** Fresh ids: the counter has passed every id that was ever shown. */
  lemma {:induction false} GoneOrShown(s: System, steps: seq<Step>, i: nat, hold: nat)
    requires Safe(s) && i < |s.db.seats| && hold < s.db.nextHold
    ensures hold < Exec(s, steps).db.nextHold && |Exec(s, steps).db.seats| == |s.db.seats|
  {
    if steps != [] {
      var front, last := steps[..|steps| - 1], steps[|steps| - 1];
      RunIsSafe(s, front);
      GoneOrShown(s, front, i, hold);
      EveryWrite(Exec(s, front), last, i);
      HoldIdsGrow(Exec(s, front), last);
    }
  }

  /** The moments at which a hold is live are one unbroken interval of the run, so the intervals of two
    * holds on one seat are disjoint. */
  lemma HoldIntervalsNeverOverlap(s: System, steps: seq<Step>, p: nat, q: nat, r: nat, i: nat, hold: nat)
    requires Safe(s) && p <= q <= r <= |steps|
    requires LiveUnder(Exec(s, steps[..p]), i, hold) && LiveUnder(Exec(s, steps[..r]), i, hold)
    ensures LiveUnder(Exec(s, steps[..q]), i, hold)
    ensures forall other :: other != hold ==> !LiveUnder(Exec(s, steps[..q]), i, other)
  {
    var at, mid, end := Exec(s, steps[..p]), Exec(s, steps[..q]), Exec(s, steps[..r]);
    RunIsSafe(s, steps[..p]);
    RunIsSafe(s, steps[..q]);
    var toMid, toEnd := steps[p..q], steps[q..r];
    assert steps[..q][..p] == steps[..p] && steps[..q][p..] == toMid;
    ExecSplit(s, steps[..q], p);
    assert steps[..r][..q] == steps[..q] && steps[..r][q..] == toEnd;
    ExecSplit(s, steps[..r], q);
    GoneOrShown(at, toMid, i, hold);
    if !Shows(mid, i, hold) {
      GoneForGood(mid, toEnd, i, hold);
    }
    ShownThroughout(mid, toEnd, i, hold);
    assert SeatOk(mid.db.seats[i]);
  }

  // ----- racing acquires -----

  /** The step frees a seat that could not be taken before. */
  ghost predicate Frees(s: System, step: Step, i: nat)
    requires Safe(s) && i < |s.db.seats|
  {
    EveryWrite(s, step, i);
    !Takeable(s.db.seats[i], s.now) && Takeable(Next(s, step).db.seats[i], s.now)
  }

  ghost predicate FreedWithin(s: System, steps: seq<Step>, i: nat)
    requires Safe(s) && i < |s.db.seats|
  {
    exists k | 0 <= k < |steps| :: FreedAt(s, steps, k, i)
  }

  ghost predicate FreedAt(s: System, steps: seq<Step>, k: nat, i: nat)
    requires Safe(s) && i < |s.db.seats| && k < |steps|
  {
    RunIsSafe(s, steps[..k]);
    i < |Exec(s, steps[..k]).db.seats| && Frees(Exec(s, steps[..k]), steps[k], i)
  }

  /** How many acquires reached the seat's UPDATE, and how many of them found it takeable. */
  ghost function Attempts(s: System, steps: seq<Step>, i: nat): nat {
    if steps == [] then 0
    else
      var front := steps[..|steps| - 1];
      var t := Exec(s, front);
      Attempts(s, front, i) + if i < |t.db.seats| && TakesSeat(t, steps[|steps| - 1], i) then 1 else 0
  }

  ghost function Winners(s: System, steps: seq<Step>, i: nat): nat {
    if steps == [] then 0
    else
      var front := steps[..|steps| - 1];
      var t := Exec(s, front);
      Winners(s, front, i) + if i < |t.db.seats| && Wins(t, steps[|steps| - 1], i) then 1 else 0
  }

  ghost predicate UpForGrabs(seat: Seat, now: int) {
    Takeable(seat, now) && (seat.status.Available? || seat.booking.None?)
  }

  predicate Won(seat: Seat, until: int) {
    seat.status.Booked? || (seat.status.Held? && seat.expires.Some? && seat.expires.value >= until)
  }

  lemma RaceStep(s: System, step: Step, i: nat, after: Seat, until: int)
    requires i < |s.db.seats| && SeatOk(s.db.seats[i]) && RowWrite(s, step, i, after)
    requires s.now <= until <= s.now + s.cfg.holdTtl
    ensures UpForGrabs(s.db.seats[i], s.now) && !TakesSeat(s, step, i) ==> UpForGrabs(after, s.now)
    ensures UpForGrabs(s.db.seats[i], s.now) && TakesSeat(s, step, i) ==> Wins(s, step, i) && Won(after, until)
    ensures Won(s.db.seats[i], until) ==> !Wins(s, step, i) && (Takeable(after, s.now) || Won(after, until))
  {}

  lemma RaceNext(s: System, step: Step, i: nat, until: int)
    requires Safe(s) && i < |s.db.seats| && Next(s, step).now <= until <= s.now + s.cfg.holdTtl && !Frees(s, step, i)
    ensures |Next(s, step).db.seats| == |s.db.seats|
    ensures UpForGrabs(s.db.seats[i], s.now) && !TakesSeat(s, step, i) ==>
      !Wins(s, step, i) && UpForGrabs(Next(s, step).db.seats[i], Next(s, step).now)
    ensures UpForGrabs(s.db.seats[i], s.now) && TakesSeat(s, step, i) ==> Wins(s, step, i) && Won(Next(s, step).db.seats[i], until)
    ensures Won(s.db.seats[i], until) ==> !Wins(s, step, i) && Won(Next(s, step).db.seats[i], until)
  {
    EveryWrite(s, step, i);
    HoldIdsGrow(s, step);
    assert SeatOk(s.db.seats[i]);
    RaceStep(s, step, i, Next(s, step).db.seats[i], until);
  }

  lemma NotFreedBefore(s: System, steps: seq<Step>, i: nat)
    requires Safe(s) && i < |s.db.seats| && steps != [] && !FreedWithin(s, steps, i)
    ensures !FreedWithin(s, steps[..|steps| - 1], i)
    ensures !FreedAt(s, steps, |steps| - 1, i)
  {
    var front := steps[..|steps| - 1];
    forall k | 0 <= k < |front| ensures !FreedAt(s, front, k, i) {
      assert front[..k] == steps[..k];
      assert !FreedAt(s, steps, k, i);
    }
  }

  /** However many users race for a free seat within one hold's time, and whatever else goes on, exactly one
    * gets it unless somebody hands it back. */
  lemma {:induction false} ExactlyOneWins(s: System, steps: seq<Step>, i: nat)
    requires Safe(s) && i < |s.db.seats| && UpForGrabs(s.db.seats[i], s.now)
    requires Exec(s, steps).now <= s.now + s.cfg.holdTtl && !FreedWithin(s, steps, i)
    ensures |Exec(s, steps).db.seats| == |s.db.seats| && Exec(s, steps).cfg == s.cfg && Exec(s, steps).now >= s.now
    ensures Winners(s, steps, i) == if Attempts(s, steps, i) == 0 then 0 else 1
    ensures if Attempts(s, steps, i) == 0 then UpForGrabs(Exec(s, steps).db.seats[i], Exec(s, steps).now)
      else Won(Exec(s, steps).db.seats[i], s.now + s.cfg.holdTtl)
  {
    if steps != [] {
      var front, last := steps[..|steps| - 1], steps[|steps| - 1];
      var t := Exec(s, front);
      RunIsSafe(s, front);
      HoldIdsGrow(t, last);
      NotFreedBefore(s, steps, i);
      ExactlyOneWins(s, front, i);
      RaceNext(t, last, i, s.now + s.cfg.holdTtl);
    }
  }

  lemma AnyRaceStep(s: System, step: Step, i: nat, after: Seat, until: int)
    requires i < |s.db.seats| && SeatOk(s.db.seats[i]) && RowWrite(s, step, i, after)
    requires s.now <= until <= s.now + s.cfg.holdTtl
    ensures Wins(s, step, i) ==> Won(after, until)
    ensures Takeable(s.db.seats[i], s.now) && !Wins(s, step, i) ==>
      !TakesSeat(s, step, i) && (Takeable(after, s.now) || after.status.Booked?)
  {}

  lemma AnyRaceNext(s: System, step: Step, i: nat, until: int)
    requires Safe(s) && i < |s.db.seats| && Next(s, step).now <= until <= s.now + s.cfg.holdTtl
    ensures |Next(s, step).db.seats| == |s.db.seats| && s.now <= Next(s, step).now && Next(s, step).cfg == s.cfg
    ensures Wins(s, step, i) ==> Won(Next(s, step).db.seats[i], until)
    ensures Takeable(s.db.seats[i], s.now) && !Wins(s, step, i) ==>
      !TakesSeat(s, step, i) && (Takeable(Next(s, step).db.seats[i], Next(s, step).now) || Next(s, step).db.seats[i].status.Booked?)
  {
    EveryWrite(s, step, i);
    HoldIdsGrow(s, step);
    assert SeatOk(s.db.seats[i]);
    AnyRaceStep(s, step, i, Next(s, step).db.seats[i], until);
  }

  lemma SoldStaysSold(s: System, step: Step, i: nat)
    requires Safe(s) && i < |s.db.seats| && s.db.seats[i].status.Booked? && !Frees(s, step, i)
    ensures i < |Next(s, step).db.seats| && Next(s, step).db.seats[i].status.Booked?
  {
    EveryWrite(s, step, i);
  }

  /** How a race stands after some winners and attempts. Nobody has won, or one has and the seat is theirs or sold;
    * and if the seat could be taken at first: somebody won, or it was sold, or nobody tried and it still can be. */
  predicate RaceStands(winners: nat, attempts: nat, seat: Seat, now: int, until: int, free: bool) {
    && winners <= 1
    && (winners == 1 ==> Won(seat, until))
    && (free ==> winners == 1 || seat.status.Booked? || (attempts == 0 && Takeable(seat, now)))
  }

  lemma RaceGoesOn(s: System, step: Step, i: nat, winners: nat, attempts: nat, until: int, free: bool)
    requires Safe(s) && i < |s.db.seats| && Next(s, step).now <= until <= s.now + s.cfg.holdTtl && !Frees(s, step, i)
    requires RaceStands(winners, attempts, s.db.seats[i], s.now, until, free)
    ensures i < |Next(s, step).db.seats|
    ensures RaceStands(winners + if Wins(s, step, i) then 1 else 0, attempts + if TakesSeat(s, step, i) then 1 else 0,
                       Next(s, step).db.seats[i], Next(s, step).now, until, free)
  {
    RaceNext(s, step, i, until);
    AnyRaceNext(s, step, i, until);
    if s.db.seats[i].status.Booked? {
      SoldStaysSold(s, step, i);
    }
  }

  /** From any state of a seat, an expired hold still pinned by a booking included: of all the acquires within one
    * hold's time at most one wins, unless somebody hands the seat back. If it could be taken, one does win, or the
    * booking that had pinned it buys it first, or nobody tries. */
  lemma {:induction false} AtMostOneWins(s: System, steps: seq<Step>, i: nat)
    requires Safe(s) && i < |s.db.seats|
    requires Exec(s, steps).now <= s.now + s.cfg.holdTtl && !FreedWithin(s, steps, i)
    ensures Exec(s, steps).cfg == s.cfg && Exec(s, steps).now >= s.now && i < |Exec(s, steps).db.seats|
    ensures RaceStands(Winners(s, steps, i), Attempts(s, steps, i), Exec(s, steps).db.seats[i], Exec(s, steps).now,
                       s.now + s.cfg.holdTtl, Takeable(s.db.seats[i], s.now))
  {
    if steps != [] {
      var front, last := steps[..|steps| - 1], steps[|steps| - 1];
      var t := Exec(s, front);
      RunIsSafe(s, front);
      HoldIdsGrow(t, last);
      NotFreedBefore(s, steps, i);
      AtMostOneWins(s, front, i);
      RaceGoesOn(t, last, i, Winners(s, front, i), Attempts(s, front, i), s.now + s.cfg.holdTtl, Takeable(s.db.seats[i], s.now));
    }
  }

  // ----- the cap on a user's live holds -----

  predicate LiveFor(seat: Seat, user: nat, now: int) {
    seat.holder == Some(user) && HoldIsLive(seat, now)
  }

  lemma {:induction false} LiveHoldsGrowBy(s: seq<Seat>, t: seq<Seat>, n: nat, user: nat, now: int, later: int, extra: set<nat>)
    requires n <= |s| == |t|
    requires forall i: nat :: i < n && LiveFor(t[i], user, later) ==> LiveFor(s[i], user, now) || i in extra
    requires forall i, j :: i in extra && j in extra ==> i == j
    ensures LiveHolds(t, n, user, later) <= LiveHolds(s, n, user, now) + if exists i: nat :: i < n && i in extra then 1 else 0
  {
    if n > 0 {
      LiveHoldsGrowBy(s, t, n - 1, user, now, later, extra);
      assert LiveFor(t[n - 1], user, later) ==> LiveFor(s[n - 1], user, now) || n - 1 in extra;
    }
  }

  function Held(s: System, user: nat): nat {
    LiveHolds(s.db.seats, |s.db.seats|, user, s.now)
  }

  ghost function TakenBy(s: System, step: Step, user: nat): set<nat> {
    set i: nat | i < |s.db.seats| && Wins(s, step, i) && step.user == user
  }

  lemma OnlyWinnersGain(s: System, step: Step, user: nat)
    requires Safe(s)
    ensures Held(Next(s, step), user) <= Held(s, user) + if step.TakeSeat? && step.user == user && CountedFor(s, user) > 0 then 1 else 0
  {
    var t := Next(s, step);
    var extra := TakenBy(s, step, user);
    HoldIdsGrow(s, step);
    SameLength(s, step);
    forall i: nat | i < |s.db.seats| && LiveFor(t.db.seats[i], user, t.now) ensures LiveFor(s.db.seats[i], user, s.now) || i in extra {
      EveryWrite(s, step, i);
      GainsByWinning(s, step, i, t.db.seats[i], user, t.now);
    }
    forall i, j | i in extra && j in extra ensures i == j {
      assert Inventory.At(s.db.seats[j], s.db.seats[i].flight, s.db.seats[i].place);
      assert Inventory.At(s.db.seats[i], s.db.seats[j].flight, s.db.seats[j].place);
    }
    LiveHoldsGrowBy(s.db.seats, t.db.seats, |s.db.seats|, user, s.now, t.now, extra);
  }

  lemma SameLength(s: System, step: Step)
    requires Safe(s)
    ensures |Next(s, step).db.seats| == |s.db.seats|
  {
    StepEffect(s, step);
    EffectKeepsSeats(s, Next(s, step), step);
  }

  lemma GainsByWinning(s: System, step: Step, i: nat, after: Seat, user: nat, later: int)
    requires i < |s.db.seats| && RowWrite(s, step, i, after) && s.now <= later && LiveFor(after, user, later)
    ensures LiveFor(s.db.seats[i], user, s.now) || (Wins(s, step, i) && step.user == user)
  {}

  /** How a step moves the number of the user's acquires between count and UPDATE. */
  ghost predicate CountMoved(s: System, step: Step, user: nat, after: nat) {
    if step.CountHolds? && step.user == user && CountPasses(s, user) then after == CountedFor(s, user) + 1
    else if step.TakeSeat? && step.user == user && CountedFor(s, user) > 0 then after == CountedFor(s, user) - 1
    else after == CountedFor(s, user)
  }

  lemma CountMoves(s: System, step: Step, user: nat)
    requires Safe(s)
    ensures CountMoved(s, step, user, CountedFor(Next(s, step), user))
  {
    if Owner(step).Some? { SagaKeepsClock(s, step); } else { HoldStepCounts(s, step, user); }
  }

  lemma HoldStepCounts(s: System, step: Step, user: nat)
    requires Owner(step).None?
    ensures CountMoved(s, step, user, CountedFor(Next(s, step), user))
  {}

  /** At most k acquires of the user are ever between their count and their UPDATE. */
  ghost predicate AtMostInFlight(s: System, steps: seq<Step>, user: nat, k: nat) {
    forall n :: 0 <= n <= |steps| ==> CountedFor(Exec(s, steps[..n]), user) <= k
  }

  ghost predicate WithinBound(s: System, user: nat, k: nat) {
    Held(s, user) + CountedFor(s, user) <= s.cfg.maxHolds + k - 1
  }

  lemma StepStaysWithin(s: System, step: Step, user: nat, k: nat)
    requires Safe(s) && k >= 1 && WithinBound(s, user, k) && CountedFor(Next(s, step), user) <= k
    ensures WithinBound(Next(s, step), user, k)
  {
    HoldIdsGrow(s, step);
    OnlyWinnersGain(s, step, user);
    CountMoves(s, step, user);
  }

  lemma InFlightBefore(s: System, steps: seq<Step>, user: nat, k: nat)
    requires steps != [] && AtMostInFlight(s, steps, user, k)
    ensures AtMostInFlight(s, steps[..|steps| - 1], user, k) && CountedFor(Exec(s, steps), user) <= k
  {
    var front := steps[..|steps| - 1];
    forall m | 0 <= m <= |front| ensures CountedFor(Exec(s, front[..m]), user) <= k {
      assert front[..m] == steps[..m];
    }
    assert steps[..|steps|] == steps;
  }

  /** The cap with its true bound under concurrency; with serial calls (k = 1) it is the cap itself. */
  lemma {:induction false} HoldCap(s: System, steps: seq<Step>, user: nat, k: nat)
    requires Safe(s) && k >= 1 && AtMostInFlight(s, steps, user, k)
    requires Held(s, user) + CountedFor(s, user) <= s.cfg.maxHolds + k - 1
    ensures Exec(s, steps).cfg == s.cfg
    ensures Held(Exec(s, steps), user) + CountedFor(Exec(s, steps), user) <= s.cfg.maxHolds + k - 1
  {
    if steps != [] {
      var front, last := steps[..|steps| - 1], steps[|steps| - 1];
      InFlightBefore(s, steps, user, k);
      HoldCap(s, front, user, k);
      RunIsSafe(s, front);
      HoldIdsGrow(Exec(s, front), last);
      StepStaysWithin(Exec(s, front), last, user, k);
    }
  }

  lemma HoldCapFromStart(cfg: Config, now: int, seats: seq<Seat>, steps: seq<Step>, user: nat, k: nat)
    requires Seeded(seats) && k >= 1 && AtMostInFlight(Start(cfg, now, seats), steps, user, k)
    ensures Held(Exec(Start(cfg, now, seats), steps), user) <= cfg.maxHolds + k - 1
  {
    var s := Start(cfg, now, seats);
    StartIsSafe(cfg, now, seats);
    NobodyHolds(seats, |seats|, user, now);
    HoldCap(s, steps, user, k);
  }

  lemma {:induction false} NobodyHolds(seats: seq<Seat>, n: nat, user: nat, now: int)
    requires Seeded(seats) && n <= |seats|
    ensures LiveHolds(seats, n, user, now) == 0
  {
    if n > 0 {
      NobodyHolds(seats, n - 1, user, now);
    }
  }
}
