/** The bound on a user's holds is the exact one: for every cap and every number of acquires in flight, a run reaches it. */
module Racers {
  import opened Domain
  import opened Inventory
  import opened Machine
  import opened Holds
  import Coroutine

  // ----- a row of seats, the first n of them taken -----

  function Row(total: nat): seq<Seat> {
    seq(total, i requires 0 <= i < total => Seat(1, Place(i, 'A'), 100, Available, None, None, None, None, 0))
  }

  function RowTaken(total: nat, user: nat, expires: int, n: nat): seq<Seat> {
    seq(total, i requires 0 <= i < total => if i < n then Taken(Row(total)[i], user, i, expires) else Row(total)[i])
  }

  lemma {:induction false} TakenAreLive(total: nat, user: nat, now: int, expires: int, n: nat, m: nat)
    requires m <= total && now < expires
    ensures LiveHolds(RowTaken(total, user, expires, n), m, user, now) == if m < n then m else n
  {
    if m > 0 {
      TakenAreLive(total, user, now, expires, n, m - 1);
    }
  }

  /** The first n seats are the user's, and `counted` more acquires have passed the count. */
  ghost predicate At(s: System, cfg: Config, now: int, total: nat, user: nat, n: nat, counted: nat) {
    && s.cfg == cfg && s.now == now && n <= total
    && s.db.seats == RowTaken(total, user, now + cfg.holdTtl, n) && s.db.nextHold == n
    && CountedFor(s, user) == counted
  }

  lemma AtHolds(s: System, cfg: Config, now: int, total: nat, user: nat, n: nat, counted: nat)
    requires At(s, cfg, now, total, user, n, counted) && cfg.holdTtl > 0
    ensures Holds.Held(s, user) == n
  {
    TakenAreLive(total, user, now, now + cfg.holdTtl, n, total);
  }

  lemma CountOne(s: System, cfg: Config, now: int, total: nat, user: nat, n: nat, counted: nat)
    requires At(s, cfg, now, total, user, n, counted) && cfg.holdTtl > 0 && n < cfg.maxHolds
    ensures At(Next(s, Step.CountHolds(user)), cfg, now, total, user, n, counted + 1)
  {
    AtHolds(s, cfg, now, total, user, n, counted);
  }

  lemma TakeOne(s: System, cfg: Config, now: int, total: nat, user: nat, n: nat, counted: nat)
    requires At(s, cfg, now, total, user, n, counted) && n < total && counted > 0
    ensures At(Next(s, Step.TakeSeat(user, 1, Place(n, 'A'))), cfg, now, total, user, n + 1, counted - 1)
  {}

  // ----- the run -----

  lemma NoneInFlight(s: System, user: nat, k: nat)
    requires CountedFor(s, user) <= k
    ensures AtMostInFlight(s, [], user, k) && Exec(s, []) == s
  {}

  lemma OneMoreStep(s: System, steps: seq<Step>, step: Step, user: nat, k: nat)
    requires AtMostInFlight(s, steps, user, k) && CountedFor(Next(Exec(s, steps), step), user) <= k
    ensures AtMostInFlight(s, steps + [step], user, k) && Exec(s, steps + [step]) == Next(Exec(s, steps), step)
  {
    Coroutine.ExecMore(s, steps, step);
    var more := steps + [step];
    forall n | 0 <= n <= |more| ensures CountedFor(Exec(s, more[..n]), user) <= k {
      if n <= |steps| {
        assert more[..n] == steps[..n];
      } else {
        assert more[..n] == more;
      }
    }
  }

  /** n acquires one after another, each counting and taking before the next one counts. */
  lemma {:induction false} OneByOne(s: System, cfg: Config, now: int, total: nat, user: nat, k: nat, n: nat) returns (steps: seq<Step>)
    requires At(s, cfg, now, total, user, 0, 0) && cfg.holdTtl > 0 && n <= total && n <= cfg.maxHolds && k >= 1
    ensures AtMostInFlight(s, steps, user, k) && At(Exec(s, steps), cfg, now, total, user, n, 0)
  {
    if n == 0 {
      NoneInFlight(s, user, k);
      steps := [];
    } else {
      steps := OneByOne(s, cfg, now, total, user, k, n - 1);
      CountOne(Exec(s, steps), cfg, now, total, user, n - 1, 0);
      OneMoreStep(s, steps, Step.CountHolds(user), user, k);
      steps := steps + [Step.CountHolds(user)];
      TakeOne(Exec(s, steps), cfg, now, total, user, n - 1, 1);
      OneMoreStep(s, steps, Step.TakeSeat(user, 1, Place(n - 1, 'A')), user, k);
      steps := steps + [Step.TakeSeat(user, 1, Place(n - 1, 'A'))];
    }
  }

  /** Then c acquires that all count, one hold below the cap, before any of them takes. */
  lemma {:induction false} AllCount(s: System, cfg: Config, now: int, total: nat, user: nat, k: nat, c: nat) returns (steps: seq<Step>)
    requires At(s, cfg, now, total, user, 0, 0) && cfg.holdTtl > 0 && cfg.maxHolds >= 1 && cfg.maxHolds - 1 <= total && c <= k && k >= 1
    ensures AtMostInFlight(s, steps, user, k) && At(Exec(s, steps), cfg, now, total, user, cfg.maxHolds - 1, c)
  {
    if c == 0 {
      steps := OneByOne(s, cfg, now, total, user, k, cfg.maxHolds - 1);
    } else {
      steps := AllCount(s, cfg, now, total, user, k, c - 1);
      CountOne(Exec(s, steps), cfg, now, total, user, cfg.maxHolds - 1, c - 1);
      OneMoreStep(s, steps, Step.CountHolds(user), user, k);
      steps := steps + [Step.CountHolds(user)];
    }
  }

  /** And then take, t of them. */
  lemma {:induction false} AllTake(s: System, cfg: Config, now: int, total: nat, user: nat, k: nat, t: nat) returns (steps: seq<Step>)
    requires At(s, cfg, now, total, user, 0, 0) && cfg.holdTtl > 0 && cfg.maxHolds >= 1 && total == cfg.maxHolds - 1 + k && t <= k && k >= 1
    ensures AtMostInFlight(s, steps, user, k) && At(Exec(s, steps), cfg, now, total, user, cfg.maxHolds - 1 + t, k - t)
  {
    if t == 0 {
      steps := AllCount(s, cfg, now, total, user, k, k);
    } else {
      steps := AllTake(s, cfg, now, total, user, k, t - 1);
      var n := cfg.maxHolds - 1 + t - 1;
      TakeOne(Exec(s, steps), cfg, now, total, user, n, k - t + 1);
      OneMoreStep(s, steps, Step.TakeSeat(user, 1, Place(n, 'A')), user, k);
      steps := steps + [Step.TakeSeat(user, 1, Place(n, 'A'))];
    }
  }

  /** For every cap and every k: a run with at most k acquires in flight ends with exactly cap + k - 1 live holds. */
  lemma RacersReachTheBound(cfg: Config, now: int, user: nat, k: nat) returns (seats: seq<Seat>, steps: seq<Step>)
    requires cfg.maxHolds >= 1 && cfg.holdTtl > 0 && k >= 1
    ensures Seeded(seats) && AtMostInFlight(Start(cfg, now, seats), steps, user, k)
    ensures Holds.Held(Exec(Start(cfg, now, seats), steps), user) == cfg.maxHolds + k - 1
  {
    var total := cfg.maxHolds - 1 + k;
    seats := Row(total);
    assert seats == RowTaken(total, user, now + cfg.holdTtl, 0);
    var s := Start(cfg, now, seats);
    steps := AllTake(s, cfg, now, total, user, k, k);
    AtHolds(Exec(s, steps), cfg, now, total, user, cfg.maxHolds - 1 + k, 0);
  }

  /** No user ever holds more than the cap, in any run with at most k of a user's acquires in flight. */
  ghost predicate CapHolds(cfg: Config, k: nat) {
    forall now: int, seats: seq<Seat>, steps: seq<Step>, user: nat ::
      Seeded(seats) && AtMostInFlight(Start(cfg, now, seats), steps, user, k) ==> WithinCap(cfg, now, seats, steps, user)
  }

  ghost predicate WithinCap(cfg: Config, now: int, seats: seq<Seat>, steps: seq<Step>, user: nat) {
    Holds.Held(Exec(Start(cfg, now, seats), steps), user) <= cfg.maxHolds
  }

  /** The cap is kept if and only if a user's acquires are serial. */
  lemma CapHoldsIffSerial(cfg: Config, k: nat)
    requires cfg.maxHolds >= 1 && cfg.holdTtl > 0
    ensures CapHolds(cfg, k) <==> k <= 1
  {
    if k <= 1 {
      forall now: int, seats: seq<Seat>, steps: seq<Step>, user: nat | Seeded(seats) && AtMostInFlight(Start(cfg, now, seats), steps, user, k)
        ensures WithinCap(cfg, now, seats, steps, user)
      {
        HoldCapFromStart(cfg, now, seats, steps, user, 1);
      }
    } else {
      var seats, steps := RacersReachTheBound(cfg, 0, 0, k);
      assert !WithinCap(cfg, 0, seats, steps, 0);
    }
  }
}
