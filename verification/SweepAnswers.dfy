/** The failing answers that a sweep changes, exactly. */
module SweepAnswers {
  import opened Domain
  import opened Inventory
  import opened Store
  import opened Machine
  import opened Safety
  import opened Runs
  import opened StepOne

  datatype Answer = NotFound | Expired | Unavailable | Opened

  function AnswerOf(creation: Creation): Answer {
    match creation
    case HoldsNotFound => NotFound
    case HoldExpired => Expired
    case NotOneFlight => Unavailable
    case Created(_) => Answer.Opened
  }

  /** Step 1's answer looks at the seats alone. */
  function Decide(seats: seq<Seat>, user: nat, holds: seq<nat>, now: int): Answer {
    var ids := Matched(seats, |seats|, holds, user);
    if |ids| != |holds| then NotFound
    else if AnyExpired(seats, ids, now) then Expired
    else if !OneFlight(seats, ids) then Unavailable
    else Answer.Opened
  }

  lemma DecideIsStepOne(db: Tables, user: nat, key: string, holds: seq<nat>, now: int)
    ensures AnswerOf(Store.CreateBooking(db, user, key, holds, now)) == Decide(db.seats, user, holds, now)
  {}

  ghost predicate AllOwn(seats: seq<Seat>, user: nat, holds: seq<nat>) {
    forall h :: h in holds ==> OwnHold(seats, h, user)
  }

  ghost predicate SomeSwept(seats: seq<Seat>, user: nat, holds: seq<nat>, now: int) {
    exists i :: 0 <= i < |seats| && Mine(seats[i], holds, user) && Sweepable(seats[i], now)
  }

  lemma SweptSeat(seats: seq<Seat>, now: int, i: nat)
    requires i < |seats|
    ensures |Inventory.Sweep(seats, now)| == |seats|
    ensures Inventory.Sweep(seats, now)[i] == if Sweepable(seats[i], now) then LetGo(seats[i]) else seats[i]
  {}

  lemma OwnedAfterIsOwnedBefore(seats: seq<Seat>, now: int, h: nat, user: nat)
    ensures OwnHold(Inventory.Sweep(seats, now), h, user) ==> OwnHold(seats, h, user)
  {
    if OwnHold(Inventory.Sweep(seats, now), h, user) {
      var i: nat :| i < |seats| && Inventory.Sweep(seats, now)[i].holdId == Some(h) && Inventory.Sweep(seats, now)[i].holder == Some(user);
      SweptSeat(seats, now, i);
      assert seats[i].holdId == Some(h);
    }
  }

  /** A request that was not all the caller's stays so. */
  lemma NotFoundStays(seats: seq<Seat>, nextHold: nat, user: nat, holds: seq<nat>, now: int)
    requires HoldsOk(seats, nextHold) && HoldsOk(Inventory.Sweep(seats, now), nextHold) && NoDuplicates(holds) && !AllOwn(seats, user, holds)
    ensures Decide(seats, user, holds, now).NotFound? && Decide(Inventory.Sweep(seats, now), user, holds, now).NotFound?
  {
    LengthDecidesOwnership(seats, nextHold, holds, user);
    LengthDecidesOwnership(Inventory.Sweep(seats, now), nextHold, holds, user);
    var h :| h in holds && !OwnHold(seats, h, user);
    OwnedAfterIsOwnedBefore(seats, now, h, user);
  }

  lemma LapsedIsFound(seats: seq<Seat>, holds: seq<nat>, user: nat, now: int, i: nat)
    requires i < |seats| && Mine(seats[i], holds, user) && Lapsed(seats[i], now)
    ensures AnyExpired(seats, Matched(seats, |seats|, holds, user), now)
  {
    MatchedIsExact(seats, |seats|, holds, user);
    var ids := Matched(seats, |seats|, holds, user);
    assert i in ids;
    var k :| 0 <= k < |ids| && ids[k] == i;
  }

  lemma SweptHoldIsGone(seats: seq<Seat>, nextHold: nat, now: int, i: nat, h: nat)
    requires HoldsOk(seats, nextHold) && i < |seats| && seats[i].holdId == Some(h) && Sweepable(seats[i], now)
    ensures forall j :: 0 <= j < |seats| ==> Inventory.Sweep(seats, now)[j].holdId != Some(h)
  {
    forall j: nat | j < |seats| ensures Inventory.Sweep(seats, now)[j].holdId != Some(h) {
      SweptSeat(seats, now, j);
    }
  }

  /** If the sweep took one of the caller's own holds, 409 has become 404. */
  lemma ExpiredBecomesNotFound(seats: seq<Seat>, nextHold: nat, user: nat, holds: seq<nat>, now: int)
    requires HoldsOk(seats, nextHold) && HoldsOk(Inventory.Sweep(seats, now), nextHold) && NoDuplicates(holds)
    requires AllOwn(seats, user, holds) && SomeSwept(seats, user, holds, now)
    ensures Decide(seats, user, holds, now).Expired? && Decide(Inventory.Sweep(seats, now), user, holds, now).NotFound?
  {
    var i: nat :| i < |seats| && Mine(seats[i], holds, user) && Sweepable(seats[i], now);
    LengthDecidesOwnership(seats, nextHold, holds, user);
    LapsedIsFound(seats, holds, user, now, i);
    LengthDecidesOwnership(Inventory.Sweep(seats, now), nextHold, holds, user);
    var h := seats[i].holdId.value;
    SweptHoldIsGone(seats, nextHold, now, i, h);
    assert !OwnHold(Inventory.Sweep(seats, now), h, user);
  }

  /** If the sweep took none of the holds in the request, step 1 answers as before. */
  lemma UnsweptAnswersAlike(seats: seq<Seat>, user: nat, holds: seq<nat>, now: int)
    requires !SomeSwept(seats, user, holds, now)
    ensures Decide(Inventory.Sweep(seats, now), user, holds, now) == Decide(seats, user, holds, now)
  {
    var after := Inventory.Sweep(seats, now);
    forall i: nat | i < |seats| ensures Mine(seats[i], holds, user) <==> Mine(after[i], holds, user) {
      SweptSeat(seats, now, i);
    }
    SameRowsFound(seats, after, |seats|, holds, user);
    var ids := Matched(seats, |seats|, holds, user);
    MatchedIsExact(seats, |seats|, holds, user);
    forall k | 0 <= k < |ids| ensures after[ids[k]] == seats[ids[k]] {
      assert ids[k] in ids;
      SweptSeat(seats, now, ids[k]);
    }
    SameRowsSameAnswer(seats, after, ids, now);
  }

  lemma SameRowsSameAnswer(before: seq<Seat>, after: seq<Seat>, ids: seq<nat>, now: int)
    requires |before| == |after| && InTable(before, ids) && forall k :: 0 <= k < |ids| ==> after[ids[k]] == before[ids[k]]
    ensures AnyExpired(before, ids, now) == AnyExpired(after, ids, now) && OneFlight(before, ids) == OneFlight(after, ids)
  {}

  /** Step 1 answers differently after a sweep if and only if every hold is the caller's own and the sweep took one
    * of them; then 409 has become 404. */
  lemma SweepTurnsExpiredIntoNotFound(s: System, user: nat, key: string, holds: seq<nat>)
    requires Safe(s) && NoDuplicates(holds)
    ensures
      var before := AnswerOf(Store.CreateBooking(s.db, user, key, holds, s.now));
      var after := AnswerOf(Store.CreateBooking(Next(s, Step.Sweep).db, user, key, holds, s.now));
      && (before != after <==> AllOwn(s.db.seats, user, holds) && SomeSwept(s.db.seats, user, holds, s.now))
      && (before != after ==> before.Expired? && after.NotFound?)
  {
    var seats, nextHold := s.db.seats, s.db.nextHold;
    SweptTable(s);
    DecideIsStepOne(s.db, user, key, holds, s.now);
    DecideIsStepOne(Next(s, Step.Sweep).db, user, key, holds, s.now);
    if !AllOwn(seats, user, holds) {
      NotFoundStays(seats, nextHold, user, holds, s.now);
    } else if SomeSwept(seats, user, holds, s.now) {
      ExpiredBecomesNotFound(seats, nextHold, user, holds, s.now);
    } else {
      UnsweptAnswersAlike(seats, user, holds, s.now);
    }
  }

  lemma SweptTable(s: System)
    requires Safe(s)
    ensures Next(s, Step.Sweep).db == s.db.(seats := Inventory.Sweep(s.db.seats, s.now)) && HoldsOk(Inventory.Sweep(s.db.seats, s.now), s.db.nextHold)
  {
    StepIsSafe(s, Step.Sweep);
  }

  /** release_hold's answer: was there such a hold to release? */
  ghost predicate Releases(seats: seq<Seat>, hold: nat, owner: Option<nat>) {
    exists i :: 0 <= i < |seats| && HasHold(seats[i], hold, owner)
  }

  /** Releasing a hold answers differently after a sweep if and only if the sweep took that very hold; then it is
    * found before and not after. */
  lemma SweepTurnsReleasedIntoNotFound(s: System, hold: nat, owner: Option<nat>)
    requires Safe(s)
    ensures var before, after := Releases(s.db.seats, hold, owner), Releases(Next(s, Step.Sweep).db.seats, hold, owner);
      && (after ==> before)
      && (before && !after <==> exists i :: 0 <= i < |s.db.seats| && HasHold(s.db.seats[i], hold, owner) && Sweepable(s.db.seats[i], s.now))
  {
    SweptTable(s);
    var seats, swept := s.db.seats, Inventory.Sweep(s.db.seats, s.now);
    forall i: nat | i < |seats| && HasHold(seats[i], hold, owner)
      ensures if Sweepable(seats[i], s.now) then !Releases(swept, hold, owner) else Releases(swept, hold, owner)
    {
      SweptSeat(seats, s.now, i);
      if Sweepable(seats[i], s.now) {
        SweptHoldIsGone(seats, s.db.nextHold, s.now, i, hold);
      } else {
        assert HasHold(swept[i], hold, owner);
      }
    }
    if Releases(swept, hold, owner) {
      var i: nat :| i < |swept| && HasHold(swept[i], hold, owner);
      SweptSeat(seats, s.now, i);
      assert HasHold(seats[i], hold, owner);
    }
  }
}
