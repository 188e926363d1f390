/** The login lockout of one account: a failure counter and a deadline, against the whole history of attempts. */
module Lockout {
  import opened Domain

  datatype Policy = Policy(maxFailures: nat, lockout: nat)

  datatype Account = Account(failures: nat, lockedUntil: Option<int>)

  datatype Attempt = Attempt(at: int, correct: bool)

  datatype Verdict = AccountLocked | InvalidCredentials | LoggedIn

  predicate IsLocked(account: Account, now: int) {
    account.lockedUntil.Some? && account.lockedUntil.value > now
  }

  /** The password is looked at only while the account is not locked. */
  function Judge(account: Account, attempt: Attempt): Verdict {
    if IsLocked(account, attempt.at) then AccountLocked
    else if !attempt.correct then InvalidCredentials
    else LoggedIn
  }

  function AfterAttempt(policy: Policy, account: Account, attempt: Attempt): Account {
    match Judge(account, attempt)
    case AccountLocked => account
    case InvalidCredentials =>
      if account.failures + 1 >= policy.maxFailures then Account(0, Some(attempt.at + policy.lockout))
      else account.(failures := account.failures + 1)
    case LoggedIn => Account(0, None)
  }

  function After(policy: Policy, history: seq<Attempt>): Account {
    if history == [] then Account(0, None)
    else AfterAttempt(policy, After(policy, history[..|history| - 1]), history[|history| - 1])
  }

  function VerdictAt(policy: Policy, history: seq<Attempt>, i: nat): Verdict
    requires i < |history|
  {
    Judge(After(policy, history[..i]), history[i])
  }

  /** How many wrong passwords were evaluated at moments a <= t < b. */
  function WrongIn(policy: Policy, history: seq<Attempt>, a: int, b: int): nat {
    if history == [] then 0
    else
      var n := |history| - 1;
      WrongIn(policy, history[..n], a, b)
      + if a <= history[n].at < b && VerdictAt(policy, history, n).InvalidCredentials? then 1 else 0
  }

  ghost predicate NoSuccessIn(policy: Policy, history: seq<Attempt>, a: int, b: int) {
    forall i :: 0 <= i < |history| && a <= history[i].at < b ==> !VerdictAt(policy, history, i).LoggedIn?
  }

  ghost predicate Nondecreasing(history: seq<Attempt>) {
    forall i, j :: 0 <= i < j < |history| ==> history[i].at <= history[j].at
  }

  /** A policy of no failures at all still lets the first one happen. */
  function Limit(policy: Policy): nat {
    if policy.maxFailures == 0 then 1 else policy.maxFailures
  }

  lemma {:induction false} CounterStaysBelow(policy: Policy, history: seq<Attempt>)
    ensures After(policy, history).failures < Limit(policy)
  {
    if history != [] {
      CounterStaysBelow(policy, history[..|history| - 1]);
    }
  }

  lemma PrefixHasNoSuccess(policy: Policy, history: seq<Attempt>, a: int, b: int)
    requires history != [] && NoSuccessIn(policy, history, a, b)
    ensures NoSuccessIn(policy, history[..|history| - 1], a, b)
  {
    var front := history[..|history| - 1];
    forall i | 0 <= i < |front| && a <= front[i].at < b ensures !VerdictAt(policy, front, i).LoggedIn? {
      assert front[..i] == history[..i];
      assert !VerdictAt(policy, history, i).LoggedIn?;
    }
  }

  /** Within one lockout, the evaluated failures are still on the counter, or the account is locked to the end. */
  lemma {:induction false} OneWindow(policy: Policy, history: seq<Attempt>, a: int, b: int)
    requires Nondecreasing(history) && NoSuccessIn(policy, history, a, b) && b <= a + policy.lockout
    ensures WrongIn(policy, history, a, b) <= Limit(policy)
    ensures WrongIn(policy, history, a, b) > 0 && history[|history| - 1].at < b ==>
      || WrongIn(policy, history, a, b) <= After(policy, history).failures
      || (After(policy, history).lockedUntil.Some? && After(policy, history).lockedUntil.value >= b)
    ensures WrongIn(policy, history, a, b) > 0 ==> a <= history[|history| - 1].at
  {
    if history != [] {
      var n := |history| - 1;
      PrefixHasNoSuccess(policy, history, a, b);
      OneWindow(policy, history[..n], a, b);
      CounterStaysBelow(policy, history[..n]);
    }
  }

  lemma {:induction false} WrongAdds(policy: Policy, history: seq<Attempt>, a: int, m: int, b: int)
    requires a <= m <= b
    ensures WrongIn(policy, history, a, b) == WrongIn(policy, history, a, m) + WrongIn(policy, history, m, b)
  {
    if history != [] {
      WrongAdds(policy, history[..|history| - 1], a, m, b);
    }
  }

  lemma SplitWindow(policy: Policy, history: seq<Attempt>, a: int, m: int, b: int)
    requires Nondecreasing(history) && NoSuccessIn(policy, history, a, b) && a <= m <= b <= m + policy.lockout
    ensures NoSuccessIn(policy, history, a, m)
    ensures WrongIn(policy, history, a, b) <= WrongIn(policy, history, a, m) + Limit(policy)
  {
    assert forall i :: 0 <= i < |history| && a <= history[i].at < m ==> a <= history[i].at < b;
    assert forall i :: 0 <= i < |history| && m <= history[i].at < b ==> a <= history[i].at < b;
    OneWindow(policy, history, m, b);
    WrongAdds(policy, history, a, m, b);
  }

  function Times(k: nat, x: nat): nat {
    if k == 0 then 0 else Times(k - 1, x) + x
  }

  lemma {:induction false} TimesIsProduct(k: nat, x: nat)
    ensures Times(k, x) == k * x
  {
    if k > 0 {
      TimesIsProduct(k - 1, x);
    }
  }

  lemma {:induction false} WindowByWindow(policy: Policy, history: seq<Attempt>, a: int, b: int, k: nat)
    requires Nondecreasing(history) && NoSuccessIn(policy, history, a, b) && b <= a + Times(k, policy.lockout)
    ensures WrongIn(policy, history, a, b) <= Times(k, Limit(policy))
    decreases k
  {
    if b <= a {
      NoneIn(policy, history, a, b);
    } else {
      var edge := a + Times(k - 1, policy.lockout);
      var m := if edge < b then edge else b;
      SplitWindow(policy, history, a, m, b);
      WindowByWindow(policy, history, a, m, k - 1);
    }
  }

  /** Over any span of at most k lockouts without a successful login, wherever it starts, at most k times the
    * maximum wrong passwords are evaluated. */
  lemma GuessesAreBounded(policy: Policy, history: seq<Attempt>, a: int, b: int, k: nat)
    requires Nondecreasing(history) && NoSuccessIn(policy, history, a, b) && b <= a + k * policy.lockout
    ensures WrongIn(policy, history, a, b) <= k * Limit(policy)
  {
    TimesIsProduct(k, policy.lockout);
    TimesIsProduct(k, Limit(policy));
    WindowByWindow(policy, history, a, b, k);
  }

  lemma {:induction false} NoneIn(policy: Policy, history: seq<Attempt>, a: int, b: int)
    requires b <= a
    ensures WrongIn(policy, history, a, b) == 0
  {
    if history != [] {
      NoneIn(policy, history[..|history| - 1], a, b);
    }
  }

  function Guesses(n: nat, at: int): seq<Attempt> {
    seq(n, i requires 0 <= i < n => Attempt(at, false))
  }

  /** Wrong passwords in one moment are all evaluated until the last one the policy allows locks the account. */
  lemma {:induction false} GuessesCount(policy: Policy, n: nat, a: int, b: int)
    requires n <= Limit(policy) && a < b
    ensures WrongIn(policy, Guesses(n, a), a, b) == n
    ensures After(policy, Guesses(n, a)) == if n < Limit(policy) then Account(n, None) else Account(0, Some(a + policy.lockout))
  {
    if n > 0 {
      GuessesCount(policy, n - 1, a, b);
      assert Guesses(n, a)[..n - 1] == Guesses(n - 1, a);
    }
  }

  /** For every policy the bound is reached, and only half-open: one lockout and its closing moment hold one guess
    * more. */
  lemma TheBoundIsReached(policy: Policy, a: int)
    requires policy.lockout > 0
    ensures var history := Guesses(Limit(policy), a) + [Attempt(a + policy.lockout, false)];
      && Nondecreasing(history) && NoSuccessIn(policy, history, a, a + policy.lockout + 1)
      && WrongIn(policy, history, a, a + policy.lockout) == Limit(policy)
      && WrongIn(policy, history, a, a + policy.lockout + 1) == Limit(policy) + 1
  {
    var n := Limit(policy);
    var history := Guesses(n, a) + [Attempt(a + policy.lockout, false)];
    assert history[..n] == Guesses(n, a);
    GuessesCount(policy, n, a, a + policy.lockout);
    GuessesCount(policy, n, a, a + policy.lockout + 1);
    forall i | 0 <= i < |history| ensures !VerdictAt(policy, history, i).LoggedIn? {
      assert !history[i].correct;
    }
  }

  // ----- the answers, told from the attempts and the answers before them -----

  /** What was answered to each attempt. */
  ghost predicate Transcript(policy: Policy, history: seq<Attempt>, verdicts: seq<Verdict>) {
    |verdicts| == |history| && forall i: nat :: i < |history| ==> verdicts[i] == VerdictAt(policy, history, i)
  }

  /** How many of the first n answers were wrong passwords since the last successful login. */
  function WrongSinceSuccess(verdicts: seq<Verdict>, n: nat): nat
    requires n <= |verdicts|
  {
    if n == 0 then 0
    else
      match verdicts[n - 1]
      case LoggedIn => 0
      case InvalidCredentials => WrongSinceSuccess(verdicts, n - 1) + 1
      case AccountLocked => WrongSinceSuccess(verdicts, n - 1)
  }

  /** What is left of count after taking the limit away as often as it goes. */
  function Rest(count: nat, limit: nat): nat
    requires limit > 0
  {
    if count < limit then count else Rest(count - limit, limit)
  }

  /** Answer i was a wrong password, and every Limit-th of them since the last success locks the account. */
  predicate Locks(policy: Policy, verdicts: seq<Verdict>, i: nat)
    requires i < |verdicts|
  {
    verdicts[i].InvalidCredentials? && Rest(WrongSinceSuccess(verdicts, i + 1), Limit(policy)) == 0
  }

  /** Of the first n answers, the one whose lock no successful login has cleared since. */
  function StandingLock(policy: Policy, verdicts: seq<Verdict>, n: nat): (lock: Option<nat>)
    requires n <= |verdicts|
    ensures lock.Some? ==> lock.value < n && Locks(policy, verdicts, lock.value)
  {
    if n == 0 || verdicts[n - 1].LoggedIn? then None
    else if Locks(policy, verdicts, n - 1) then Some(n - 1)
    else StandingLock(policy, verdicts, n - 1)
  }

  function Deadline(policy: Policy, history: seq<Attempt>, lock: Option<nat>): Option<int>
    requires lock.Some? ==> lock.value < |history|
  {
    if lock.None? then None else Some(history[lock.value].at + policy.lockout)
  }

  lemma {:induction false} NextCount(count: nat, limit: nat)
    requires limit > 0
    ensures Rest(count + 1, limit) == if Rest(count, limit) + 1 == limit then 0 else Rest(count, limit) + 1
  {
    if count >= limit {
      NextCount(count - limit, limit);
    }
  }

  lemma AfterOneMore(policy: Policy, history: seq<Attempt>, n: nat)
    requires 0 < n <= |history|
    ensures After(policy, history[..n]) == AfterAttempt(policy, After(policy, history[..n - 1]), history[n - 1])
  {
    assert history[..n][..n - 1] == history[..n - 1];
  }

  /** The counter holds the wrong passwords since the last success or the last lock, and the deadline is one lockout
    * after the lock that stands. */
  lemma {:induction false} CounterTellsHistory(policy: Policy, history: seq<Attempt>, verdicts: seq<Verdict>, n: nat)
    requires Transcript(policy, history, verdicts) && n <= |history|
    ensures After(policy, history[..n]).failures == Rest(WrongSinceSuccess(verdicts, n), Limit(policy))
    ensures After(policy, history[..n]).lockedUntil == Deadline(policy, history, StandingLock(policy, verdicts, n))
  {
    if n > 0 {
      CounterTellsHistory(policy, history, verdicts, n - 1);
      AfterOneMore(policy, history, n);
      assert verdicts[n - 1] == VerdictAt(policy, history, n - 1);
      CounterStaysBelow(policy, history[..n - 1]);
      NextCount(WrongSinceSuccess(verdicts, n - 1), Limit(policy));
    }
  }

  /** An attempt is refused unseen exactly while the standing lock lasts, and judged by its password otherwise. */
  lemma AnswersFollowTheLocks(policy: Policy, history: seq<Attempt>, verdicts: seq<Verdict>, n: nat)
    requires Transcript(policy, history, verdicts) && n < |history|
    ensures var lock := StandingLock(policy, verdicts, n);
      verdicts[n] == if lock.Some? && history[n].at < history[lock.value].at + policy.lockout then AccountLocked
                     else if history[n].correct then LoggedIn else InvalidCredentials
  {
    CounterTellsHistory(policy, history, verdicts, n);
    assert verdicts[n] == VerdictAt(policy, history, n);
  }

  /** Some wrong password before attempt n locked the account less than one lockout before it. */
  ghost predicate LockedOut(policy: Policy, history: seq<Attempt>, verdicts: seq<Verdict>, n: nat)
    requires n < |history| == |verdicts|
  {
    exists i: nat :: i < n && Locks(policy, verdicts, i) && history[n].at < history[i].at + policy.lockout
  }

  /** In the order of time every lock counts, not only the last: an attempt is refused unseen iff some lock began
    * less than one lockout before it; otherwise it succeeds iff its password is right. */
  lemma LockedIffWithinALockout(policy: Policy, history: seq<Attempt>, verdicts: seq<Verdict>, n: nat)
    requires Nondecreasing(history) && Transcript(policy, history, verdicts) && n < |history|
    ensures verdicts[n] == if LockedOut(policy, history, verdicts, n) then AccountLocked
                           else if history[n].correct then LoggedIn else InvalidCredentials
  {
    AnswersFollowTheLocks(policy, history, verdicts, n);
    if LockedOut(policy, history, verdicts, n) {
      var i: nat :| i < n && Locks(policy, verdicts, i) && history[n].at < history[i].at + policy.lockout;
      LockStands(policy, history, verdicts, i, n);
    }
  }

  /** Until its lockout is over no attempt is evaluated, so that nothing clears or replaces a lock. */
  lemma {:induction false} LockStands(policy: Policy, history: seq<Attempt>, verdicts: seq<Verdict>, i: nat, n: nat)
    requires Nondecreasing(history) && Transcript(policy, history, verdicts) && i < n < |history|
    requires Locks(policy, verdicts, i) && history[n].at < history[i].at + policy.lockout
    ensures StandingLock(policy, verdicts, n) == Some(i)
  {
    if i < n - 1 {
      LockStands(policy, history, verdicts, i, n - 1);
      AnswersFollowTheLocks(policy, history, verdicts, n - 1);
    }
  }

  /** The row of users that login updates. */
  class User {
    var failedLoginCount: nat
    var lockedUntil: Option<int>
    const policy: Policy
    ghost var history: seq<Attempt>
    ghost var verdicts: seq<Verdict>

    ghost predicate Valid()
      reads this
    {
      && Account(failedLoginCount, lockedUntil) == After(policy, history)
      && Transcript(policy, history, verdicts)
    }

    constructor (policy: Policy)
      ensures Valid() && history == [] && verdicts == [] && this.policy == policy
    {
      this.policy, failedLoginCount, lockedUntil, history, verdicts := policy, 0, None, [], [];
    }

    method Login(correct: bool, now: int) returns (verdict: Verdict)
      requires Valid()
      modifies this
      ensures Valid() && history == old(history) + [Attempt(now, correct)] && verdicts == old(verdicts) + [verdict]
      ensures var lock := StandingLock(policy, verdicts, |old(verdicts)|);
        verdict == if lock.Some? && now < old(history)[lock.value].at + policy.lockout then AccountLocked
                   else if correct then LoggedIn else InvalidCredentials
      ensures failedLoginCount == Rest(WrongSinceSuccess(verdicts, |verdicts|), Limit(policy))
    {
      verdict := Decide(correct, now);
      history := history + [Attempt(now, correct)];
      verdicts := verdicts + [verdict];
      assert history[..|history| - 1] == old(history);
      forall i: nat | i < |history| ensures verdicts[i] == VerdictAt(policy, history, i) {
        if i < |old(history)| {
          assert history[..i] == old(history)[..i];
        }
      }
      AnswersFollowTheLocks(policy, history, verdicts, |old(history)|);
      CounterTellsHistory(policy, history, verdicts, |history|);
      assert history[..|history|] == history;
    }

    method Decide(correct: bool, now: int) returns (verdict: Verdict)
      modifies this`failedLoginCount, this`lockedUntil
      ensures var before := Account(old(failedLoginCount), old(lockedUntil));
        && verdict == Judge(before, Attempt(now, correct))
        && Account(failedLoginCount, lockedUntil) == AfterAttempt(policy, before, Attempt(now, correct))
    {
      if lockedUntil.Some? && lockedUntil.value > now {
        return AccountLocked;
      }
      if !correct {
        failedLoginCount := failedLoginCount + 1;
        if failedLoginCount >= policy.maxFailures {
          lockedUntil := Some(now + policy.lockout);
          failedLoginCount := 0;
        }
        return InvalidCredentials;
      }
      failedLoginCount := 0;
      lockedUntil := None;
      return LoggedIn;
    }
  }
}
