/** Every step, and so every run, keeps the joint invariant. */
module Runs {
  import opened Inventory
  import opened Machine
  import opened Safety
  import opened Shapes
  import opened Steps

  /** Every step of every kind keeps the invariant. */
  lemma StepIsSafe(s: System, step: Step)
    requires Safe(s)
    ensures Safe(Next(s, step))
  {
    var t := Next(s, step);
    StepEffect(s, step);
    match Owner(step)
    case Some(b) =>
      if Moves(s, t, b) {
        MoveIsSafe(s, t, b);
      } else if Closes(s, t, b) {
        CloseIsSafe(s, t, b);
      } else if Sells(s, t, b) {
        SellIsSafe(s, t, b);
      }
    case None =>
      if Idles(s, t) {
        IdleIsSafe(s, t);
      } else if Shuffles(s, t) {
        ShuffleIsSafe(s, t);
      } else {
        OpenIsSafe(s, t);
      }
  }

  lemma {:induction false} RunIsSafe(s: System, steps: seq<Step>)
    requires Safe(s)
    ensures Safe(Exec(s, steps))
  {
    if steps != [] {
      RunIsSafe(s, steps[..|steps| - 1]);
      StepIsSafe(Exec(s, steps[..|steps| - 1]), steps[|steps| - 1]);
    }
  }

  // ----- reachable states -----

  ghost predicate Reachable(s: System) {
    exists cfg: Config, now: int, seats: seq<Seat>, steps: seq<Step> :: Seeded(seats) && s == Exec(Start(cfg, now, seats), steps)
  }

  lemma ReachableIsSafe(s: System)
    requires Reachable(s)
    ensures Safe(s)
  {
    var cfg: Config, now: int, seats: seq<Seat>, steps: seq<Step> :| Seeded(seats) && s == Exec(Start(cfg, now, seats), steps);
    StartIsSafe(cfg, now, seats);
    RunIsSafe(Start(cfg, now, seats), steps);
  }
}
