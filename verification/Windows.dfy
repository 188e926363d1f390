/** Trimmed sliding windows (a sorted set with an expiring key) against the full history, and the rate limiter. */
module Windows {
  import opened Domain

  /** One call of _touch; times are in milliseconds, windows in seconds. */
  datatype Touch<T> = Touch(member: T, at: int)

  /** The key as Redis holds it: a score per member, and the moment after which the key is gone. */
  datatype Stored<T> = Stored(members: map<T, int>, expiresAt: int)

  function Live<T>(z: Stored<T>, now: int): map<T, int> {
    if now > z.expiresAt then map[] else z.members
  }

  function Trim<T>(members: map<T, int>, cutoff: int): map<T, int> {
    map m | m in members && members[m] > cutoff :: members[m]
  }

  /** ZREMRANGEBYSCORE, ZADD, EXPIRE. */
  function TouchOn<T>(z: Stored<T>, member: T, now: int, seconds: nat): Stored<T> {
    Stored(Trim(Live(z, now), now - seconds * 1000)[member := now], now + (seconds + 1) * 1000)
  }

  function After<T>(history: seq<Touch<T>>, seconds: nat): Stored<T> {
    if history == [] then Stored(map[], 0)
    else
      var last := history[|history| - 1];
      TouchOn(After(history[..|history| - 1], seconds), last.member, last.at, seconds)
  }

  // ----- the whole history, nothing ever forgotten -----

  function Touched<T>(history: seq<Touch<T>>): set<T> {
    set i | 0 <= i < |history| :: history[i].member
  }

  function LastAt<T(==)>(history: seq<Touch<T>>, member: T): int
    requires member in Touched(history)
  {
    var n := |history| - 1;
    if history[n].member == member then history[n].at else LastAt(history[..n], member)
  }

  /** The distinct members whose latest touch lies in the window that ends now. */
  function Recent<T(==)>(history: seq<Touch<T>>, now: int, seconds: nat): map<T, int> {
    map m | m in Touched(history) && LastAt(history, m) > now - seconds * 1000 :: LastAt(history, m)
  }

  ghost predicate Ordered<T>(history: seq<Touch<T>>) {
    forall i, j :: 0 <= i < j < |history| ==> history[i].at <= history[j].at
  }

  lemma {:induction false} LastAtIsPast<T>(history: seq<Touch<T>>, member: T)
    requires Ordered(history) && member in Touched(history)
    ensures LastAt(history, member) <= history[|history| - 1].at
  {
    var n := |history| - 1;
    if history[n].member != member {
      LastAtIsPast(history[..n], member);
    }
  }

  lemma LastAtAfter<T>(front: seq<Touch<T>>, last: Touch<T>, m: T)
    ensures m in Touched(front + [last]) <==> m in Touched(front) || m == last.member
    ensures m in Touched(front + [last]) ==> LastAt(front + [last], m) == if m == last.member then last.at else LastAt(front, m)
  {
    var history := front + [last];
    assert history[..|front|] == front;
    assert history[|front|].member == last.member;
    assert forall i :: 0 <= i < |front| ==> history[i].member == front[i].member;
  }

  lemma RecentAfter<T>(front: seq<Touch<T>>, last: Touch<T>, seconds: nat)
    requires seconds > 0
    ensures Recent(front + [last], last.at, seconds) == Recent(front, last.at, seconds)[last.member := last.at]
  {
    forall m ensures m in Recent(front + [last], last.at, seconds) <==> m == last.member || m in Recent(front, last.at, seconds) {
      LastAtAfter(front, last, m);
    }
    forall m | m in Recent(front + [last], last.at, seconds)
      ensures Recent(front + [last], last.at, seconds)[m] == if m == last.member then last.at else Recent(front, last.at, seconds)[m]
    {
      LastAtAfter(front, last, m);
    }
  }

  /** Nothing in a later window was trimmed by an earlier one. */
  lemma TrimmedLater<T>(history: seq<Touch<T>>, earlier: int, now: int, seconds: nat)
    requires earlier <= now
    ensures Trim(Recent(history, earlier, seconds), now - seconds * 1000) == Recent(history, now, seconds)
  {}

  lemma NothingLeft<T>(history: seq<Touch<T>>, now: int, seconds: nat)
    requires Ordered(history) && history != [] && history[|history| - 1].at + seconds * 1000 <= now
    ensures Recent(history, now, seconds) == map[]
  {
    forall m | m in Touched(history) ensures LastAt(history, m) <= now - seconds * 1000 {
      LastAtIsPast(history, m);
    }
  }

  lemma Split<T>(history: seq<Touch<T>>) returns (front: seq<Touch<T>>, last: Touch<T>)
    requires Ordered(history) && history != []
    ensures history == front + [last] && Ordered(front) && last == history[|history| - 1]
    ensures front != [] ==> front[|front| - 1].at <= last.at
  {
    front, last := history[..|history| - 1], history[|history| - 1];
  }

  lemma {:induction false} StoredIsRecent<T>(history: seq<Touch<T>>, seconds: nat)
    requires Ordered(history) && seconds > 0 && history != []
    ensures var now := history[|history| - 1].at;
      After(history, seconds) == Stored(Recent(history, now, seconds), now + (seconds + 1) * 1000)
    decreases |history|, 0
  {
    var front, last := Split(history);
    WindowRefinesHistory(front, last.at, seconds);
    AfterTouch(front, last, seconds);
  }

  lemma AfterTouch<T>(front: seq<Touch<T>>, last: Touch<T>, seconds: nat)
    requires seconds > 0
    requires Trim(Live(After(front, seconds), last.at), last.at - seconds * 1000) == Recent(front, last.at, seconds)
    ensures After(front + [last], seconds) == Stored(Recent(front + [last], last.at, seconds), last.at + (seconds + 1) * 1000)
  {
    assert (front + [last])[..|front|] == front;
    RecentAfter(front, last, seconds);
  }

  /** What is stored, read at any later moment, is exactly the window of the whole history: trimming and key
    * expiry never drop a member still in it and never keep one that has left. */
  lemma {:induction false} WindowRefinesHistory<T>(history: seq<Touch<T>>, now: int, seconds: nat)
    requires Ordered(history) && seconds > 0 && (history != [] ==> history[|history| - 1].at <= now)
    ensures Trim(Live(After(history, seconds), now), now - seconds * 1000) == Recent(history, now, seconds)
    decreases |history|, 1
  {
    if history != [] {
      var last := history[|history| - 1];
      StoredIsRecent(history, seconds);
      if now > After(history, seconds).expiresAt {
        NothingLeft(history, now, seconds);
      } else {
        TrimmedLater(history, last.at, now, seconds);
      }
    }
  }

  /** The key is gone, and its storage with it, one second after the window of its last touch has passed, and not before. */
  lemma KeyGoesWhenQuiet<T>(history: seq<Touch<T>>, now: int, seconds: nat)
    requires Ordered(history) && seconds > 0 && history != []
    ensures Live(After(history, seconds), now) == map[] <==> now > history[|history| - 1].at + (seconds + 1) * 1000
  {
    StoredIsRecent(history, seconds);
    var last := history[|history| - 1];
    assert last.member in Touched(history) && LastAt(history, last.member) == last.at;
    assert last.member in Recent(history, last.at, seconds);
  }

  /** The sorted set as the object that _touch, _count and _members work on. */
  class Window<T(==)> {
    var members: map<T, int>
    var expiresAt: int
    const seconds: nat

    function State(): Stored<T>
      reads this
    {
      Stored(members, expiresAt)
    }

    constructor (seconds: nat)
      ensures State() == Stored(map[], 0) && this.seconds == seconds
    {
      this.seconds, members, expiresAt := seconds, map[], 0;
    }

    method Expire(now: int)
      modifies this
      ensures State() == Stored(Live(old(State()), now), old(expiresAt))
    {
      if now > expiresAt {
        members := map[];
      }
    }

    method Touch(member: T, now: int) returns (count: nat)
      modifies this
      ensures State() == TouchOn(old(State()), member, now, seconds) && count == |members|
    {
      Expire(now);
      members := Trim(members, now - seconds * 1000);
      members := members[member := now];
      count := |members|;
      expiresAt := now + (seconds + 1) * 1000;
    }

    method Count(now: int) returns (count: nat)
      modifies this
      ensures members == Trim(Live(old(State()), now), now - seconds * 1000) && expiresAt == old(expiresAt)
      ensures count == |members|
    {
      Expire(now);
      members := Trim(members, now - seconds * 1000);
      count := |members|;
    }
  }

  // ----- check_limit -----

  /** Every request is a member of its own, admitted or not. */
  function Requests(times: seq<int>): (history: seq<Touch<nat>>) {
    seq(|times|, i requires 0 <= i < |times| => Touch(i, times[i]))
  }

  /** The i-th request was let through: the window it joined holds at most max. */
  predicate Admitted(times: seq<int>, i: nat, seconds: nat, max: nat)
    requires i < |times|
  {
    |Recent(Requests(times[..i + 1]), times[i], seconds)| <= max
  }

  ghost predicate Nondecreasing(times: seq<int>) {
    forall i, j :: 0 <= i < j < |times| ==> times[i] <= times[j]
  }

  ghost function Since(times: seq<int>, cutoff: int): set<nat> {
    set i: nat | i < |times| && times[i] > cutoff
  }

  lemma {:induction false} LastRequest(times: seq<int>, i: nat)
    requires i < |times|
    ensures i in Touched(Requests(times)) && LastAt(Requests(times), i) == times[i]
  {
    assert Requests(times)[i].member == i;
    var n := |times| - 1;
    if i < n {
      assert Requests(times)[..n] == Requests(times[..n]);
      LastRequest(times[..n], i);
    }
  }

  lemma WindowCountsRequests(times: seq<int>, now: int, seconds: nat)
    ensures |Recent(Requests(times), now, seconds)| == |Since(times, now - seconds * 1000)|
  {
    forall i: nat | i < |times| ensures i in Touched(Requests(times)) && LastAt(Requests(times), i) == times[i] {
      LastRequest(times, i);
    }
    assert Recent(Requests(times), now, seconds).Keys == Since(times, now - seconds * 1000);
  }

  /** The admitted requests with a < time <= a + window. */
  ghost function AdmittedIn(times: seq<int>, a: int, seconds: nat, max: nat): set<nat> {
    set i: nat | i < |times| && a < times[i] <= a + seconds * 1000 && Admitted(times, i, seconds, max)
  }

  lemma {:induction false} Greatest(s: set<nat>) returns (g: nat)
    requires s != {}
    ensures g in s && forall x :: x in s ==> x <= g
  {
    var x :| x in s;
    if s == {x} {
      g := x;
    } else {
      var h := Greatest(s - {x});
      g := if h < x then x else h;
      assert forall y :: y in s ==> y == x || y in s - {x};
    }
  }

  /** However the requests fall, no half-open interval of the window's length, wherever it starts, has more than max
    * admitted ones. Indeed all requests of the interval up to its last admitted one number at most max. */
  lemma NeverMoreThanTheLimit(times: seq<int>, a: int, seconds: nat, max: nat)
    requires Nondecreasing(times)
    ensures |AdmittedIn(times, a, seconds, max)| <= max
  {
    var admitted := AdmittedIn(times, a, seconds, max);
    if admitted != {} {
      var last := Greatest(admitted);
      var window := Since(times[..last + 1], times[last] - seconds * 1000);
      AllInItsWindow(times, a, seconds, max, last);
      SubsetIsSmaller(admitted, window);
      RefusedOnlyOverTheLimit(times, last, seconds, max);
    }
  }

  /** The window that ends with the interval's last admitted request holds all of them. */
  lemma AllInItsWindow(times: seq<int>, a: int, seconds: nat, max: nat, last: nat)
    requires Nondecreasing(times) && last in AdmittedIn(times, a, seconds, max)
    requires forall i :: i in AdmittedIn(times, a, seconds, max) ==> i <= last
    ensures AdmittedIn(times, a, seconds, max) <= Since(times[..last + 1], times[last] - seconds * 1000)
  {
    forall i: nat | i in AdmittedIn(times, a, seconds, max) ensures i in Since(times[..last + 1], times[last] - seconds * 1000) {
      assert i <= last && times[..last + 1][i] == times[i];
    }
  }

  function Burst(a: int, seconds: nat, max: nat): (times: seq<int>) {
    seq(max, i requires 0 <= i < max => a) + [a + seconds * 1000]
  }

  function Indices(n: nat): set<nat> {
    if n == 0 then {} else Indices(n - 1) + {n - 1}
  }

  lemma {:induction false} IndicesCount(n: nat)
    ensures |Indices(n)| == n && forall k: nat :: k in Indices(n) <==> k < n
  {
    if n > 0 {
      IndicesCount(n - 1);
    }
  }

  lemma SinceOfBurst(a: int, seconds: nat, max: nat, i: nat)
    requires i <= max && seconds > 0 && max > 0
    ensures var times := Burst(a, seconds, max);
      |Since(times[..i + 1], times[i] - seconds * 1000)| <= max
  {
    var times := Burst(a, seconds, max);
    var since := Since(times[..i + 1], times[i] - seconds * 1000);
    if i < max {
      IndicesCount(max);
      SubsetIsSmaller(since, Indices(max));
    } else {
      assert since == {max};
    }
  }

  /** The bound is reached, and holds for half-open intervals only: a burst of max and one request a window later are
    * all admitted, so a closed interval of the window's length can hold one more than the limit. */
  lemma TheLimitIsReached(a: int, seconds: nat, max: nat)
    requires seconds > 0 && max > 0
    ensures var times := Burst(a, seconds, max);
      && Nondecreasing(times) && |times| == max + 1
      && forall i: nat :: i < |times| ==> Admitted(times, i, seconds, max) && a <= times[i] <= a + seconds * 1000
  {
    var times := Burst(a, seconds, max);
    forall i: nat | i < |times| ensures Admitted(times, i, seconds, max) {
      SinceOfBurst(a, seconds, max, i);
      RefusedOnlyOverTheLimit(times, i, seconds, max);
    }
  }

  /** A request is refused only if max others came in the window that ends with it. */
  lemma RefusedOnlyOverTheLimit(times: seq<int>, i: nat, seconds: nat, max: nat)
    requires i < |times|
    ensures Admitted(times, i, seconds, max) <==> |Since(times[..i + 1], times[i] - seconds * 1000)| <= max
  {
    WindowCountsRequests(times[..i + 1], times[i], seconds);
  }

  lemma RequestAdded(times: seq<int>, now: int)
    requires Nondecreasing(times) && (times != [] ==> times[|times| - 1] <= now)
    ensures Requests(times + [now]) == Requests(times) + [Touch(|times|, now)]
    ensures Requests(times + [now])[..|times|] == Requests(times)
    ensures Ordered(Requests(times + [now])) && Nondecreasing(times + [now])
  {}

  lemma RequestWindow(times: seq<int>, now: int, seconds: nat)
    requires Nondecreasing(times) && (times != [] ==> times[|times| - 1] <= now) && seconds > 0
    ensures var later := times + [now];
      && Nondecreasing(later)
      && After(Requests(later), seconds) == TouchOn(After(Requests(times), seconds), |times|, now, seconds)
      && forall max: nat :: Admitted(later, |times|, seconds, max) <==> |After(Requests(later), seconds).members| <= max
  {
    RequestAdded(times, now);
    StoredIsRecent(Requests(times + [now]), seconds);
    assert (times + [now])[..|times| + 1] == times + [now];
  }

  class RateLimiter {
    const window: Window<nat>
    const max: nat
    var issued: nat
    ghost var log: seq<int>

    ghost predicate Valid()
      reads this, window
    {
      && Nondecreasing(log) && issued == |log| && window.seconds > 0
      && window.State() == After(Requests(log), window.seconds)
    }

    constructor (max: nat, seconds: nat)
      requires seconds > 0
      ensures Valid() && fresh(window) && log == [] && this.max == max && window.seconds == seconds
    {
      this.max, issued, log := max, 0, [];
      window := new Window<nat>(seconds);
    }

    /** False stands for RateLimited. */
    method CheckLimit(now: int) returns (admitted: bool)
      requires Valid() && (log != [] ==> log[|log| - 1] <= now)
      modifies this, window
      ensures Valid() && log == old(log) + [now]
      ensures admitted == Admitted(log, |log| - 1, window.seconds, max)
    {
      var count := window.Touch(issued, now);
      issued := issued + 1;
      log := log + [now];
      RequestWindow(old(log), now, window.seconds);
      return count <= max;
    }
  }
}
