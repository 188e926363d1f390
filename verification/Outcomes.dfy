/** record_outcome: the run of declines just before an approval, read back from the outcome window. */
module Outcomes {
  import opened Windows

  /** The member "<ms>:approve" or "<ms>:decline". The code reads the clock again for the score; here one reading
    * serves both. */
  datatype Outcome = Outcome(at: int, approved: bool)

  /** ZRANGE order: by score, and "approve" before "decline" where the moments are equal. */
  predicate Before(x: Outcome, y: Outcome) {
    x.at < y.at || (x.at == y.at && x.approved && !y.approved)
  }

  function Touches(outcomes: seq<Outcome>): seq<Touch<Outcome>> {
    seq(|outcomes|, i requires 0 <= i < |outcomes| => Touch(outcomes[i], outcomes[i].at))
  }

  ghost predicate Increasing(outcomes: seq<Outcome>) {
    forall i, j :: 0 <= i < j < |outcomes| ==> outcomes[i].at < outcomes[j].at
  }

  /** What a clock that never runs backwards yields; two outcomes may share a millisecond. */
  ghost predicate NeverBack(outcomes: seq<Outcome>) {
    forall i, j :: 0 <= i < j < |outcomes| ==> outcomes[i].at <= outcomes[j].at
  }

  ghost predicate InOrder(list: seq<Outcome>) {
    forall i, j :: 0 <= i < j < |list| ==> Before(list[i], list[j])
  }

  // ----- what is to be found: the declines that end the history, back to the window's edge -----

  function TrailingDeclines(outcomes: seq<Outcome>, cutoff: int): nat {
    if outcomes == [] then 0
    else
      var last := outcomes[|outcomes| - 1];
      if last.approved || last.at <= cutoff then 0 else TrailingDeclines(outcomes[..|outcomes| - 1], cutoff) + 1
  }

  ghost predicate EndsInDeclines(outcomes: seq<Outcome>, cutoff: int, n: nat) {
    n <= |outcomes| && forall i :: |outcomes| - n <= i < |outcomes| ==> !outcomes[i].approved && outcomes[i].at > cutoff
  }

  /** It is the longest such run: n or more, exactly if the last n outcomes are declines within the window. */
  lemma {:induction false} TrailingIsLongest(outcomes: seq<Outcome>, cutoff: int, n: nat)
    ensures n <= TrailingDeclines(outcomes, cutoff) <==> EndsInDeclines(outcomes, cutoff, n)
  {
    if n > 0 && outcomes != [] {
      var front, last := outcomes[..|outcomes| - 1], outcomes[|outcomes| - 1];
      TrailingIsLongest(front, cutoff, n - 1);
      assert EndsInDeclines(outcomes, cutoff, n) <==> EndsInDeclines(front, cutoff, n - 1) && !last.approved && last.at > cutoff;
    }
  }

  /** The code's own count over the list it reads. */
  function CountBack(list: seq<Outcome>): nat {
    if list == [] || list[|list| - 1].approved then 0 else CountBack(list[..|list| - 1]) + 1
  }

  // ----- what the loop counts in the list it reads -----

  ghost predicate NoLaterApproval(list: seq<Outcome>, at: int) {
    forall y :: y in list && y.approved ==> y.at <= at
  }

  /** The moments of the declines that no approval follows in a later millisecond. */
  ghost function OpenMoments(list: seq<Outcome>, cutoff: int): set<int> {
    set i | 0 <= i < |list| && !list[i].approved && list[i].at > cutoff && NoLaterApproval(list, list[i].at) :: list[i].at
  }

  lemma OpenMomentsHas(list: seq<Outcome>, cutoff: int, m: int)
    ensures m in OpenMoments(list, cutoff) <==> Outcome(m, false) in list && m > cutoff && NoLaterApproval(list, m)
  {
    if Outcome(m, false) in list {
      var i :| 0 <= i < |list| && list[i] == Outcome(m, false);
    }
  }

  lemma OpenAfterDecline(front: seq<Outcome>, last: Outcome, cutoff: int)
    requires !last.approved && last.at > cutoff && forall x :: x in front ==> x.at <= last.at
    ensures OpenMoments(front + [last], cutoff) == OpenMoments(front, cutoff) + {last.at}
  {
    forall m ensures m in OpenMoments(front + [last], cutoff) <==> m in OpenMoments(front, cutoff) || m == last.at {
      OpenMomentsHas(front + [last], cutoff, m);
      OpenMomentsHas(front, cutoff, m);
      assert NoLaterApproval(front + [last], m) <==> NoLaterApproval(front, m);
    }
  }

  /** After an approval only a decline of its own millisecond stays open. */
  lemma OpenAfterApproval(front: seq<Outcome>, last: Outcome, cutoff: int)
    requires last.approved && last.at > cutoff && forall x :: x in front ==> x.at <= last.at
    ensures OpenMoments(front + [last], cutoff) == if Outcome(last.at, false) in front then {last.at} else {}
  {
    forall m ensures m in OpenMoments(front + [last], cutoff) <==> m == last.at && Outcome(last.at, false) in front {
      OpenMomentsHas(front + [last], cutoff, m);
      assert last in front + [last];
    }
  }

  lemma NothingOpen(list: seq<Outcome>, cutoff: int)
    requires forall x :: x in list ==> x.at <= cutoff
    ensures OpenMoments(list, cutoff) == {}
  {
    forall m ensures m !in OpenMoments(list, cutoff) {
      OpenMomentsHas(list, cutoff, m);
    }
  }

  lemma {:induction false} CountBackIsOpen(list: seq<Outcome>, cutoff: int)
    requires InOrder(list) && forall x :: x in list ==> x.at > cutoff
    ensures CountBack(list) == |OpenMoments(list, cutoff)|
  {
    if list == [] {
      NothingOpen(list, cutoff);
    } else {
      var n := |list| - 1;
      var front, last := list[..n], list[n];
      assert list == front + [last];
      forall x | x in front ensures Before(x, last) {
        var i :| 0 <= i < n && front[i] == x;
        assert Before(list[i], list[n]);
      }
      if last.approved {
        OpenAfterApproval(front, last, cutoff);
      } else {
        CountBackIsOpen(front, cutoff);
        OpenAfterDecline(front, last, cutoff);
        OpenMomentsHas(front, cutoff, last.at);
      }
    }
  }

  // ----- the same count, in terms of the history -----

  /** The history before the given millisecond. */
  function Earlier(outcomes: seq<Outcome>, now: int): seq<Outcome> {
    if outcomes == [] || outcomes[|outcomes| - 1].at < now then outcomes else Earlier(outcomes[..|outcomes| - 1], now)
  }

  lemma {:induction false} EarlierIsFilter(outcomes: seq<Outcome>, now: int)
    requires NeverBack(outcomes)
    ensures NeverBack(Earlier(outcomes, now))
    ensures forall x :: x in Earlier(outcomes, now) <==> x in outcomes && x.at < now
  {
    if outcomes != [] {
      var n := |outcomes| - 1;
      assert outcomes == outcomes[..n] + [outcomes[n]];
      if outcomes[n].at < now {
        assert forall i :: 0 <= i < |outcomes| ==> outcomes[i].at <= outcomes[n].at;
      } else {
        EarlierIsFilter(outcomes[..n], now);
      }
    }
  }

  /** What the code counts after an approval at `now`: nothing if a decline shares its millisecond, otherwise the
    * open moments before it. */
  ghost function CodeCount(outcomes: seq<Outcome>, now: int, cutoff: int): nat {
    if Outcome(now, false) in outcomes then 0 else |OpenMoments(Earlier(outcomes, now), cutoff)|
  }

  /** The list holds exactly the distinct outcomes of the window, the approval among them. */
  ghost predicate IsWindowList(list: seq<Outcome>, outcomes: seq<Outcome>, now: int, cutoff: int) {
    && InOrder(list)
    && forall x :: x in list <==> x.at > cutoff && (x in outcomes || x == Outcome(now, true))
  }

  lemma LastOfList(list: seq<Outcome>, x: Outcome)
    requires InOrder(list) && x in list && forall y :: y in list && y != x ==> Before(y, x)
    ensures list[|list| - 1] == x
  {
    var i :| 0 <= i < |list| && list[i] == x;
    var n := |list| - 1;
    var last := list[n];
    assert last in list;
    assert last == x || Before(last, x);
  }

  lemma FrontOfList(list: seq<Outcome>)
    requires InOrder(list) && list != []
    ensures InOrder(list[..|list| - 1])
    ensures forall x :: x in list[..|list| - 1] <==> x in list && x != list[|list| - 1]
  {
    var n := |list| - 1;
    assert list == list[..n] + [list[n]];
    forall x | x in list[..n] ensures x != list[n] {
      var i :| 0 <= i < n && list[i] == x;
      assert Before(list[i], list[n]);
    }
  }

  lemma ListCountsCode(list: seq<Outcome>, outcomes: seq<Outcome>, now: int, cutoff: int)
    requires NeverBack(outcomes) && cutoff < now && (forall x :: x in outcomes ==> x.at <= now)
    requires IsWindowList(list, outcomes, now, cutoff)
    ensures list != [] && CountBack(list[..|list| - 1]) == CodeCount(outcomes, now, cutoff)
  {
    var approval, decline := Outcome(now, true), Outcome(now, false);
    assert approval in list;
    var front := list[..|list| - 1];
    FrontOfList(list);
    if decline in outcomes {
      LastOfList(list, decline);
      LastOfList(front, approval);
    } else {
      LastOfList(list, approval);
      var earlier := Earlier(outcomes, now);
      EarlierIsFilter(outcomes, now);
      CountBackIsOpen(front, cutoff);
      SameOpenMoments(front, earlier, cutoff);
    }
  }

  lemma SameOpenMoments(list: seq<Outcome>, outcomes: seq<Outcome>, cutoff: int)
    requires forall x :: x in list <==> x in outcomes && x.at > cutoff
    ensures OpenMoments(list, cutoff) == OpenMoments(outcomes, cutoff)
  {
    forall m ensures m in OpenMoments(list, cutoff) <==> m in OpenMoments(outcomes, cutoff) {
      OpenMomentsHas(list, cutoff, m);
      OpenMomentsHas(outcomes, cutoff, m);
      assert m > cutoff ==> (NoLaterApproval(list, m) <==> NoLaterApproval(outcomes, m));
    }
  }

  // ----- exactly when that is the run of declines -----

  /** Declines of the run that share a millisecond with the one before: they collapse into one member. */
  function Repeated(outcomes: seq<Outcome>, cutoff: int): nat {
    if outcomes == [] || outcomes[|outcomes| - 1].approved || outcomes[|outcomes| - 1].at <= cutoff then 0
    else
      var front, last := outcomes[..|outcomes| - 1], outcomes[|outcomes| - 1];
      Repeated(front, cutoff) + if front != [] && front[|front| - 1] == last then 1 else 0
  }

  /** One, if a decline before the run shares the millisecond of the approval that ended it, and so sorts after
    * that approval, while no decline of the run does. */
  function Regained(outcomes: seq<Outcome>, cutoff: int): nat {
    if outcomes == [] || outcomes[|outcomes| - 1].at <= cutoff then 0
    else
      var front, last := outcomes[..|outcomes| - 1], outcomes[|outcomes| - 1];
      if last.approved then if Outcome(last.at, false) in front then 1 else 0
      else if front != [] && front[|front| - 1] == Outcome(last.at, true) then 0
      else Regained(front, cutoff)
  }

  lemma {:induction false} OpenIsRunCorrected(outcomes: seq<Outcome>, cutoff: int)
    requires NeverBack(outcomes)
    ensures Corrected(outcomes, cutoff)
  {
    if outcomes == [] {
      NothingOpen(outcomes, cutoff);
    } else {
      var n := |outcomes| - 1;
      var front, last := outcomes[..n], outcomes[n];
      assert outcomes == front + [last];
      forall x | x in front ensures x.at <= last.at {
        var i :| 0 <= i < n && front[i] == x;
        assert outcomes[i].at <= outcomes[n].at;
      }
      if last.at <= cutoff {
        NothingOpen(outcomes, cutoff);
      } else if last.approved {
        OpenAfterApproval(front, last, cutoff);
      } else {
        OpenIsRunCorrected(front, cutoff);
        DeclineCorrected(front, last, cutoff);
      }
    }
  }

  ghost predicate Corrected(outcomes: seq<Outcome>, cutoff: int) {
    var run, repeated := TrailingDeclines(outcomes, cutoff), Repeated(outcomes, cutoff);
    && |OpenMoments(outcomes, cutoff)| == run - repeated + Regained(outcomes, cutoff)
    && (run > 0 ==> repeated < run) && (run == 0 ==> repeated == 0)
  }

  lemma DeclineCorrected(front: seq<Outcome>, last: Outcome, cutoff: int)
    requires NeverBack(front) && !last.approved && last.at > cutoff && (forall x :: x in front ==> x.at <= last.at)
    requires Corrected(front, cutoff)
    ensures Corrected(front + [last], cutoff)
  {
    assert (front + [last])[..|front|] == front;
    OpenAfterDecline(front, last, cutoff);
    OneMoreDecline(front, last, cutoff);
    if front == [] {
      NothingOpen(front, cutoff);
    } else {
      assert front[|front| - 1] in front;
    }
  }

  lemma NotAfterLast(front: seq<Outcome>)
    requires NeverBack(front) && front != []
    ensures forall x :: x in front ==> x.at <= front[|front| - 1].at
  {
    forall x | x in front ensures x.at <= front[|front| - 1].at {
      var i :| 0 <= i < |front| && front[i] == x;
    }
  }

  /** The ways a decline can follow what came before. */
  lemma OneMoreDecline(front: seq<Outcome>, last: Outcome, cutoff: int)
    requires NeverBack(front) && !last.approved && last.at > cutoff && forall x :: x in front ==> x.at <= last.at
    ensures last.at in OpenMoments(front, cutoff) <==> last in front
    ensures front != [] && front[|front| - 1].at < last.at ==> last !in front
    ensures front != [] && front[|front| - 1] == Outcome(last.at, true) ==>
      OpenMoments(front, cutoff) == (if last in front then {last.at} else {}) && TrailingDeclines(front, cutoff) == Repeated(front, cutoff) == 0
  {
    OpenMomentsHas(front, cutoff, last.at);
    if front != [] {
      NotAfterLast(front);
      if front[|front| - 1] == Outcome(last.at, true) {
        DeclineAfterTiedApproval(front, last, cutoff);
      }
    }
  }

  lemma DeclineAfterTiedApproval(front: seq<Outcome>, last: Outcome, cutoff: int)
    requires NeverBack(front) && front != [] && front[|front| - 1] == Outcome(last.at, true) && !last.approved && last.at > cutoff
    ensures OpenMoments(front, cutoff) == if last in front then {last.at} else {}
  {
    var before, approval := front[..|front| - 1], front[|front| - 1];
    assert front == before + [approval];
    NotAfterLast(front);
    OpenAfterApproval(before, approval, cutoff);
  }

  /** The exact condition. Between outcomes of earlier milliseconds, as many declines of the run must have collapsed
    * as were regained; in the approval's own millisecond, an approval must have come last, and a decline there hides
    * whatever the approval before it had ended, or there is nothing to count again. */
  ghost predicate CountsTruly(outcomes: seq<Outcome>, now: int, cutoff: int) {
    if outcomes == [] || outcomes[|outcomes| - 1].at < now then Repeated(outcomes, cutoff) == Regained(outcomes, cutoff)
    else
      && outcomes[|outcomes| - 1].approved
      && (Outcome(now, false) in outcomes
          || (TrailingDeclines(Earlier(outcomes, now), cutoff) == 0 && Regained(Earlier(outcomes, now), cutoff) == 0))
  }

  /** For every history of a clock that never runs backwards: the code counts the run of declines before an approval,
    * if and only if the ties in the history satisfy the condition. */
  lemma TrueIffTiesCancel(outcomes: seq<Outcome>, now: int, cutoff: int)
    requires NeverBack(outcomes) && cutoff < now && (outcomes != [] ==> outcomes[|outcomes| - 1].at <= now)
    ensures CodeCount(outcomes, now, cutoff) == TrailingDeclines(outcomes, cutoff) <==> CountsTruly(outcomes, now, cutoff)
  {
    var earlier := Earlier(outcomes, now);
    EarlierIsFilter(outcomes, now);
    OpenIsRunCorrected(earlier, cutoff);
    assert outcomes != [] ==> outcomes[|outcomes| - 1] in outcomes;
  }

  predicate Reaches(count: nat, threshold: nat) {
    count >= threshold
  }

  ghost predicate FlagsAlike(a: nat, b: nat) {
    forall threshold: nat :: Reaches(a, threshold) <==> Reaches(b, threshold)
  }

  /** And so the flag is right at every threshold, if and only if they do. */
  lemma FlagIsRightIffTiesCancel(outcomes: seq<Outcome>, now: int, cutoff: int)
    requires NeverBack(outcomes) && cutoff < now && (outcomes != [] ==> outcomes[|outcomes| - 1].at <= now)
    ensures FlagsAlike(CodeCount(outcomes, now, cutoff), TrailingDeclines(outcomes, cutoff)) <==> CountsTruly(outcomes, now, cutoff)
  {
    TrueIffTiesCancel(outcomes, now, cutoff);
    SameAtEveryThreshold(CodeCount(outcomes, now, cutoff), TrailingDeclines(outcomes, cutoff));
  }

  lemma SameAtEveryThreshold(a: nat, b: nat)
    ensures FlagsAlike(a, b) <==> a == b
  {
    assert Reaches(a, a) && Reaches(b, b);
  }

  /** The code's count, from the run of declines and the ties alone. */
  function CorrectedRun(outcomes: seq<Outcome>, now: int, cutoff: int): int {
    var earlier := Earlier(outcomes, now);
    if Outcome(now, false) in outcomes then 0
    else TrailingDeclines(earlier, cutoff) - Repeated(earlier, cutoff) + Regained(earlier, cutoff)
  }

  lemma CodeCountsCorrectedRun(outcomes: seq<Outcome>, now: int, cutoff: int)
    requires NeverBack(outcomes)
    ensures CodeCount(outcomes, now, cutoff) == CorrectedRun(outcomes, now, cutoff)
    ensures outcomes != [] && outcomes[|outcomes| - 1].at < now ==> Earlier(outcomes, now) == outcomes
  {
    EarlierIsFilter(outcomes, now);
    OpenIsRunCorrected(Earlier(outcomes, now), cutoff);
  }

  /** At the one threshold the service uses: the flag is right, if and only if the threshold does not lie above one of
    * the run and its correction and not above the other. */
  lemma FlagIsRightAtThresholdIff(outcomes: seq<Outcome>, now: int, cutoff: int, threshold: nat)
    requires NeverBack(outcomes)
    ensures var run, corrected := TrailingDeclines(outcomes, cutoff), CorrectedRun(outcomes, now, cutoff);
      (Reaches(CodeCount(outcomes, now, cutoff), threshold) <==> Reaches(run, threshold))
      <==> !(corrected < threshold <= run) && !(run < threshold <= corrected)
  {
    CodeCountsCorrectedRun(outcomes, now, cutoff);
  }

  /** Without ties the condition holds. */
  lemma {:induction false} IncreasingHasNoTies(outcomes: seq<Outcome>, cutoff: int)
    requires Increasing(outcomes)
    ensures Repeated(outcomes, cutoff) == Regained(outcomes, cutoff) == 0
  {
    if outcomes != [] {
      IncreasingHasNoTies(outcomes[..|outcomes| - 1], cutoff);
    }
  }

  // ----- the window as stored -----

  lemma {:induction false} EachTouchedOnce(outcomes: seq<Outcome>, x: Outcome)
    ensures x in Touched(Touches(outcomes)) <==> x in outcomes
    ensures x in outcomes ==> LastAt(Touches(outcomes), x) == x.at
  {
    assert forall i :: 0 <= i < |outcomes| ==> Touches(outcomes)[i].member == outcomes[i];
    if x in outcomes {
      var n := |outcomes| - 1;
      if outcomes[n] != x {
        assert Touches(outcomes)[..n] == Touches(outcomes[..n]);
        EachTouchedOnce(outcomes[..n], x);
      }
    }
  }

  lemma WindowHolds(outcomes: seq<Outcome>, now: int, seconds: nat, x: Outcome)
    ensures x in Recent(Touches(outcomes), now, seconds) <==> x in outcomes && x.at > now - seconds * 1000
  {
    EachTouchedOnce(outcomes, x);
  }

  // ----- the order exists -----

  lemma {:induction false} FirstOf(s: set<Outcome>) returns (first: Outcome)
    requires s != {}
    ensures first in s && forall x :: x in s && x != first ==> Before(first, x)
  {
    var y :| y in s;
    if s == {y} {
      first := y;
    } else {
      var rest := FirstOf(s - {y});
      first := if Before(y, rest) then y else rest;
      forall x | x in s && x != first ensures Before(first, x) {
        assert x == y || x == rest || Before(rest, x);
      }
    }
  }

  /** ZRANGE key 0 -1. */
  method Range(members: map<Outcome, int>) returns (list: seq<Outcome>)
    ensures InOrder(list) && forall x :: x in list <==> x in members
  {
    list := [];
    var rest := members.Keys;
    while rest != {}
      invariant InOrder(list) && forall x :: x in members <==> x in list || x in rest
      invariant forall x, y :: x in list && y in rest ==> Before(x, y)
      decreases |rest|
    {
      ghost var least := FirstOf(rest);
      var first :| first in rest && forall x :: x in rest && x != first ==> Before(first, x);
      list := list + [first];
      rest := rest - {first};
    }
  }

  /** The loop of record_outcome, over everything but the approval just added. */
  method CountTrailing(list: seq<Outcome>) returns (trailing: nat)
    requires list != []
    ensures trailing == CountBack(list[..|list| - 1])
  {
    trailing := 0;
    var i := |list| - 1;
    while i > 0
      invariant 0 <= i < |list|
      invariant CountBack(list[..|list| - 1]) == trailing + CountBack(list[..i])
      decreases i
    {
      assert list[..i][..i - 1] == list[..i - 1];
      if list[i - 1].approved {
        break;
      }
      trailing := trailing + 1;
      i := i - 1;
    }
  }

  /** ZRANGE and the loop, once the approval has been added. */
  method DeclinesBefore(members: map<Outcome, int>, ghost outcomes: seq<Outcome>, now: int, ghost seconds: nat) returns (trailing: nat)
    requires seconds > 0 && NeverBack(outcomes) && (outcomes != [] ==> outcomes[|outcomes| - 1].at <= now)
    requires members == Recent(Touches(outcomes + [Outcome(now, true)]), now, seconds)
    ensures trailing == CodeCount(outcomes, now, now - seconds * 1000)
  {
    var list := Range(members);
    ListIsWindow(list, outcomes, now, seconds);
    ListCountsCode(list, outcomes, now, now - seconds * 1000);
    trailing := CountTrailing(list);
  }

  class OutcomeLog {
    const window: Window<Outcome>
    const threshold: nat
    ghost var log: seq<Outcome>

    ghost predicate Valid()
      reads this, window
    {
      && window.seconds > 0 && NeverBack(log)
      && window.State() == After(Touches(log), window.seconds)
    }

    constructor (seconds: nat, threshold: nat)
      requires seconds > 0
      ensures Valid() && fresh(window) && log == [] && window.seconds == seconds && this.threshold == threshold
    {
      this.threshold, log := threshold, [];
      window := new Window<Outcome>(seconds);
    }

    /** The account is flagged exactly if the code's count reaches the threshold. Without ties that is: exactly if the
      * approval was preceded by at least `threshold` declines in a row within the window of the whole history. */
    method RecordOutcome(approved: bool, now: int) returns (flagged: bool)
      requires Valid() && (log != [] ==> log[|log| - 1].at <= now)
      modifies this, window
      ensures Valid() && log == old(log) + [Outcome(now, approved)]
      ensures flagged <==> approved && CodeCount(old(log), now, now - window.seconds * 1000) >= threshold
      ensures Increasing(log) ==> (flagged <==> approved && TrailingDeclines(old(log), now - window.seconds * 1000) >= threshold)
    {
      TouchOutcome(Outcome(now, approved));
      if !approved {
        return false;
      }
      var trailing := DeclinesBefore(window.members, old(log), now, window.seconds);
      NoTiesCountTruly(old(log), Outcome(now, true), now - window.seconds * 1000);
      return trailing >= threshold;
    }

    method TouchOutcome(outcome: Outcome)
      requires Valid() && (log != [] ==> log[|log| - 1].at <= outcome.at)
      modifies this, window
      ensures Valid() && log == old(log) + [outcome]
      ensures window.members == Recent(Touches(log), outcome.at, window.seconds)
    {
      var count := window.Touch(outcome, outcome.at);
      log := log + [outcome];
      WindowAfter(old(log), outcome, window.seconds);
    }
  }

  lemma NoTiesCountTruly(outcomes: seq<Outcome>, outcome: Outcome, cutoff: int)
    requires cutoff < outcome.at
    ensures Increasing(outcomes + [outcome]) ==> CodeCount(outcomes, outcome.at, cutoff) == TrailingDeclines(outcomes, cutoff)
  {
    if Increasing(outcomes + [outcome]) {
      var all := outcomes + [outcome];
      forall i, j | 0 <= i < j < |outcomes| ensures outcomes[i].at < outcomes[j].at {
        assert all[i].at < all[j].at;
      }
      IncreasingHasNoTies(outcomes, cutoff);
      assert outcomes != [] ==> all[|outcomes| - 1].at < all[|outcomes|].at;
      TrueIffTiesCancel(outcomes, outcome.at, cutoff);
    }
  }

  lemma WindowAfter(outcomes: seq<Outcome>, outcome: Outcome, seconds: nat)
    requires NeverBack(outcomes) && (outcomes != [] ==> outcomes[|outcomes| - 1].at <= outcome.at) && seconds > 0
    ensures NeverBack(outcomes + [outcome])
    ensures After(Touches(outcomes + [outcome]), seconds) == TouchOn(After(Touches(outcomes), seconds), outcome, outcome.at, seconds)
    ensures After(Touches(outcomes + [outcome]), seconds).members == Recent(Touches(outcomes + [outcome]), outcome.at, seconds)
  {
    OutcomeAdded(outcomes, outcome);
    StoredIsRecent(Touches(outcomes + [outcome]), seconds);
  }

  lemma OutcomeAdded(outcomes: seq<Outcome>, outcome: Outcome)
    requires NeverBack(outcomes) && (outcomes != [] ==> outcomes[|outcomes| - 1].at <= outcome.at)
    ensures NeverBack(outcomes + [outcome]) && Ordered(Touches(outcomes + [outcome]))
    ensures Touches(outcomes + [outcome])[..|outcomes|] == Touches(outcomes)
    ensures Touches(outcomes + [outcome])[|outcomes|] == Touch(outcome, outcome.at)
  {}

  lemma ListIsWindow(list: seq<Outcome>, outcomes: seq<Outcome>, now: int, seconds: nat)
    requires seconds > 0 && InOrder(list)
    requires forall x :: x in list <==> x in Recent(Touches(outcomes + [Outcome(now, true)]), now, seconds)
    ensures IsWindowList(list, outcomes, now, now - seconds * 1000)
  {
    forall x ensures x in list <==> x.at > now - seconds * 1000 && (x in outcomes || x == Outcome(now, true)) {
      WindowHolds(outcomes + [Outcome(now, true)], now, seconds, x);
    }
  }

  // ----- the two families of failure, for every length -----

  /** A decline in the approval's own millisecond hides the whole run, so no burst ending there is ever flagged. */
  lemma TieHidesTheRun(outcomes: seq<Outcome>, now: int, cutoff: int)
    requires outcomes != [] && outcomes[|outcomes| - 1] == Outcome(now, false) && cutoff < now
    ensures CodeCount(outcomes, now, cutoff) == 0 < TrailingDeclines(outcomes, cutoff)
  {
    assert outcomes[|outcomes| - 1] in outcomes;
  }

  /** A second approval in the same millisecond is no new member: the declines that the first one ended are counted
    * again, although no decline comes just before it. */
  lemma SecondApprovalCountsAgain(outcomes: seq<Outcome>, now: int, cutoff: int)
    requires Increasing(outcomes) && cutoff < now && (outcomes != [] ==> outcomes[|outcomes| - 1].at < now)
    ensures CodeCount(outcomes + [Outcome(now, true)], now, cutoff) == TrailingDeclines(outcomes, cutoff)
    ensures TrailingDeclines(outcomes + [Outcome(now, true)], cutoff) == 0
  {
    var all := outcomes + [Outcome(now, true)];
    assert all[..|outcomes|] == outcomes;
    assert Earlier(all, now) == outcomes;
    assert forall i :: 0 <= i < |outcomes| ==> outcomes[i].at < now;
    OpenIsRunCorrected(outcomes, cutoff);
    IncreasingHasNoTies(outcomes, cutoff);
  }
}
