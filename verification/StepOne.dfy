/** What step 1 of the saga decides, and why comparing two lengths is enough to decide it. */
module StepOne {
  import opened Domain
  import opened Inventory
  import opened Store
  import opened Machine
  import opened Safety
  import opened Steps
  import opened Runs

  ghost predicate OwnHold(seats: seq<Seat>, hold: nat, user: nat) {
    exists i :: 0 <= i < |seats| && seats[i].holdId == Some(hold) && seats[i].holder == Some(user)
  }

  ghost function MineSet(seats: seq<Seat>, holds: seq<nat>, user: nat): set<nat> {
    set i: nat | i < |seats| && Mine(seats[i], holds, user)
  }

  ghost function HoldsOf(seats: seq<Seat>, ids: set<nat>): set<nat>
    requires forall i :: i in ids ==> i < |seats| && seats[i].holdId.Some?
  {
    set i | i in ids :: seats[i].holdId.value
  }

  lemma {:induction false} HoldsOfSize(seats: seq<Seat>, ids: set<nat>)
    requires forall i :: i in ids ==> i < |seats| && seats[i].holdId.Some?
    requires forall i, j :: i in ids && j in ids && i != j ==> seats[i].holdId != seats[j].holdId
    ensures |HoldsOf(seats, ids)| == |ids|
  {
    if ids != {} {
      var i :| i in ids;
      HoldsOfSize(seats, ids - {i});
      assert HoldsOf(seats, ids) == HoldsOf(seats, ids - {i}) + {seats[i].holdId.value};
    }
  }

  ghost function Elements(s: seq<nat>): set<nat> {
    set x | x in s
  }

  lemma {:induction false} DistinctSize(s: seq<nat>)
    requires NoDuplicates(s)
    ensures |Elements(s)| == |s|
  {
    if s == [] {
      assert Elements(s) == {};
    } else {
      var front := s[..|s| - 1];
      DistinctSize(front);
      assert Elements(s) == Elements(front) + {s[|s| - 1]};
    }
  }

  lemma {:induction false} EqualIfSameSize(a: set<nat>, b: set<nat>)
    requires a <= b && |a| == |b|
    ensures a == b
  {
    assert b == a + (b - a);
    assert |b - a| == 0;
  }

  lemma MineSetSize(seats: seq<Seat>, nextHold: nat, holds: seq<nat>, user: nat)
    requires HoldsOk(seats, nextHold)
    ensures |MineSet(seats, holds, user)| == |Matched(seats, |seats|, holds, user)|
    ensures forall i :: i in MineSet(seats, holds, user) ==> i < |seats| && seats[i].holdId.Some?
    ensures |HoldsOf(seats, MineSet(seats, holds, user))| == |MineSet(seats, holds, user)|
    ensures HoldsOf(seats, MineSet(seats, holds, user)) <= Elements(holds)
  {
    var ids := Matched(seats, |seats|, holds, user);
    MatchedIsExact(seats, |seats|, holds, user);
    DistinctSize(ids);
    assert MineSet(seats, holds, user) == Elements(ids);
    HoldsOfSize(seats, MineSet(seats, holds, user));
  }

  lemma HoldsOfMine(seats: seq<Seat>, holds: seq<nat>, user: nat, h: nat)
    requires forall i :: i in MineSet(seats, holds, user) ==> i < |seats| && seats[i].holdId.Some?
    requires h in holds
    ensures h in HoldsOf(seats, MineSet(seats, holds, user)) <==> OwnHold(seats, h, user)
  {
    if OwnHold(seats, h, user) {
      var i: nat :| i < |seats| && seats[i].holdId == Some(h) && seats[i].holder == Some(user);
      assert i in MineSet(seats, holds, user);
    }
  }

  /** Hold ids are unique across seats, so the number of rows found tells whether every hold is mine. */
  lemma LengthDecidesOwnership(seats: seq<Seat>, nextHold: nat, holds: seq<nat>, user: nat)
    requires HoldsOk(seats, nextHold) && NoDuplicates(holds)
    ensures |Matched(seats, |seats|, holds, user)| == |holds| <==> forall h :: h in holds ==> OwnHold(seats, h, user)
  {
    MineSetSize(seats, nextHold, holds, user);
    DistinctSize(holds);
    var wanted := Elements(holds);
    var found := HoldsOf(seats, MineSet(seats, holds, user));
    forall h | h in holds ensures h in found <==> OwnHold(seats, h, user) {
      HoldsOfMine(seats, holds, user, h);
    }
    if |found| == |wanted| {
      EqualIfSameSize(found, wanted);
      forall h | h in holds ensures OwnHold(seats, h, user) {
        assert h in wanted;
      }
    } else {
      assert wanted <= found ==> found == wanted;
      var h :| h in wanted && h !in found;
      assert h in holds;
    }
  }

  /** A booking is opened exactly when every hold is the caller's own, live, and on one flight. The first
    * failing test picks the answer: 404 for a hold that is not the caller's, 409 for one that ran out. */
  lemma StepOneDecides(s: System, user: nat, key: string, holds: seq<nat>)
    requires Reachable(s) && NoDuplicates(holds) && |holds| > 0
    ensures
      var answer := Store.CreateBooking(s.db, user, key, holds, s.now);
      var mine := MineSet(s.db.seats, holds, user);
      && (answer.HoldsNotFound? <==> exists h :: h in holds && !OwnHold(s.db.seats, h, user))
      && (answer.HoldExpired? <==> (forall h :: h in holds ==> OwnHold(s.db.seats, h, user))
                                   && exists i :: i in mine && !HoldIsLive(s.db.seats[i], s.now))
      && (answer.Created? <==> (forall h :: h in holds ==> OwnHold(s.db.seats, h, user))
                               && (forall i :: i in mine ==> HoldIsLive(s.db.seats[i], s.now))
                               && (forall i, j :: i in mine && j in mine ==> s.db.seats[i].flight == s.db.seats[j].flight))
  {
    ReachableIsSafe(s);
    SafeStepOneDecides(s, user, key, holds);
  }

  lemma SafeStepOneDecides(s: System, user: nat, key: string, holds: seq<nat>)
    requires Safe(s) && NoDuplicates(holds) && |holds| > 0
    ensures
      var answer := Store.CreateBooking(s.db, user, key, holds, s.now);
      var mine := MineSet(s.db.seats, holds, user);
      && (answer.HoldsNotFound? <==> exists h :: h in holds && !OwnHold(s.db.seats, h, user))
      && (answer.HoldExpired? <==> (forall h :: h in holds ==> OwnHold(s.db.seats, h, user))
                                   && exists i :: i in mine && !HoldIsLive(s.db.seats[i], s.now))
      && (answer.Created? <==> (forall h :: h in holds ==> OwnHold(s.db.seats, h, user))
                               && (forall i :: i in mine ==> HoldIsLive(s.db.seats[i], s.now))
                               && (forall i, j :: i in mine && j in mine ==> s.db.seats[i].flight == s.db.seats[j].flight))
  {
    LengthDecidesOwnership(s.db.seats, s.db.nextHold, holds, user);
    MatchedIsExact(s.db.seats, |s.db.seats|, holds, user);
    var ids := Matched(s.db.seats, |s.db.seats|, holds, user);
    var mine := MineSet(s.db.seats, holds, user);
    assert forall i: nat :: i in mine <==> i in ids;
    assert forall k :: 0 <= k < |ids| ==> ids[k] in mine;
    forall i | i in mine ensures SeatOk(s.db.seats[i]) && s.db.seats[i].status.Held? {
    }
    ExpiredMeansNotLive(s.db.seats, ids, s.now);
    if |ids| == |holds| {
      forall i | i in mine ensures OneFlight(s.db.seats, ids) ==> s.db.seats[i].flight == s.db.seats[ids[0]].flight {
        var k :| 0 <= k < |ids| && ids[k] == i;
      }
    }
  }

  lemma ExpiredMeansNotLive(seats: seq<Seat>, ids: seq<nat>, now: int)
    requires InTable(seats, ids)
    requires forall k :: 0 <= k < |ids| ==> seats[ids[k]].status.Held? && SeatOk(seats[ids[k]])
    ensures AnyExpired(seats, ids, now) <==> exists i :: i in ids && !HoldIsLive(seats[i], now)
  {
    if i :| i in ids && !HoldIsLive(seats[i], now) {
      var k :| 0 <= k < |ids| && ids[k] == i;
    }
    if AnyExpired(seats, ids, now) {
      var k :| 0 <= k < |ids| && (Lapsed(seats[ids[k]], now) || !seats[ids[k]].status.Held?);
      assert ids[k] in ids;
    }
  }

  // ----- a failed payment costs nobody a seat -----

  ghost predicate SameHold(before: Seat, after: Seat) {
    && after.status == before.status && after.holder == before.holder && after.holdId == before.holdId
    && after.expires == before.expires && after.flight == before.flight
  }

  predicate FailsPayment(s: System, step: Step) {
    || (step.FraudBlock? && SagaAt(s, step.b, Opened))
    || (step.RecordAnswer? && step.b < |s.sagas| && s.sagas[step.b].pc.Answered? && !s.sagas[step.b].pc.result.approved)
  }

  lemma FailureUnpins(s: System, step: Step)
    requires Safe(s) && FailsPayment(s, step)
    ensures Next(s, step).db.seats == Unpin(s.db.seats, step.b)
  {
    SafeIsLocal(s, step.b);
  }

  lemma UnpinKeepsHolds(seats: seq<Seat>, b: nat)
    ensures forall i :: 0 <= i < |seats| ==> SameHold(seats[i], Unpin(seats, b)[i]) && Unpin(seats, b)[i].booking != Some(b)
  {}

  /** A blocked or declined payment leaves every hold as it was and unpins the booking's seats: whatever step 1
    * would have answered to a request before, it answers to a retry with another card. */
  lemma FailedPaymentKeepsTheHolds(s: System, step: Step, user: nat, key: string, holds: seq<nat>)
    requires Safe(s) && FailsPayment(s, step)
    ensures var t := Next(s, step);
      && |t.db.seats| == |s.db.seats|
      && (forall i :: 0 <= i < |s.db.seats| ==> SameHold(s.db.seats[i], t.db.seats[i]) && t.db.seats[i].booking != Some(step.b))
      && (Store.CreateBooking(t.db, user, key, holds, t.now).Created? <==> Store.CreateBooking(s.db, user, key, holds, s.now).Created?)
  {
    FailureUnpins(s, step);
    UnpinKeepsHolds(s.db.seats, step.b);
    var before, after := s.db.seats, Unpin(s.db.seats, step.b);
    SameRowsFound(before, after, |before|, holds, user);
    SameAnswer(before, after, Matched(before, |before|, holds, user), s.now);
    ClockStands(s, step);
  }

  lemma ClockStands(s: System, step: Step)
    requires step.FraudBlock? || step.RecordAnswer?
    ensures Next(s, step).now == s.now
  {}

  lemma SameAnswer(before: seq<Seat>, after: seq<Seat>, ids: seq<nat>, now: int)
    requires |before| == |after| && InTable(before, ids)
    requires forall i :: 0 <= i < |before| ==> SameHold(before[i], after[i])
    ensures AnyExpired(before, ids, now) <==> AnyExpired(after, ids, now)
    ensures OneFlight(before, ids) <==> OneFlight(after, ids)
  {
    forall k | 0 <= k < |ids| ensures SameHold(before[ids[k]], after[ids[k]]) {
    }
  }
}
