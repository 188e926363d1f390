/** One concrete run, and the reachable states in which the rules break. */
module Witnesses {
  import opened Domain
  import opened Inventory
  import opened Store
  import opened Gateway
  import opened Machine
  import opened Safety
  import opened Settlement
  import opened Journal
  import opened Stranded
  import Coroutine
  import Failures

  function TheSeat(): Seat {
    Seat(0, Place(14, 'C'), 25000, Available, None, None, None, None, 0)
  }

  ghost predicate IsHeld(s: System) {
    && s.gw.authorizations == map[] && s.db.seats == [Taken(TheSeat(), 7, 0, 600)] && s.db.bookings == [] && s.sagas == [] && s.now == 0
  }

  /** The one saga stands at pc with its one seat pinned. */
  ghost predicate IsAt(s: System, pc: Pc, state: BookingState) {
    && s.db.seats == [Inventory.Pinned(Taken(TheSeat(), 7, 0, 600), 0)]
    && |s.db.bookings| == |s.sagas| == 1 && s.db.bookings[0].seats == [0] && s.db.bookings[0].user == 7
    && s.now == 0 && s.db.bookings[0].key == "k" && s.sagas[0].pc == pc && s.sagas[0].state == state
  }

  /** Reached by a careful run along which every log kept to the arrows. */
  ghost predicate Reached(s: System) {
    CarefullyReachable(s) && AllJournalled(s) && AllOnPath(s)
  }

  lemma CarefulExtends(s: System, step: Step)
    requires CarefullyReachable(s) && IsCareful(s, step)
    ensures CarefullyReachable(Next(s, step))
  {
    var cfg: Config, now: int, seats: seq<Seat>, steps: seq<Step> :|
      Seeded(seats) && CarefulRun(Start(cfg, now, seats), steps) && s == Exec(Start(cfg, now, seats), steps);
    CarefulRunExtends(Start(cfg, now, seats), steps, step);
    assert CarefulRun(Start(cfg, now, seats), steps + [step]);
  }

  lemma CarefulRunExtends(start: System, steps: seq<Step>, step: Step)
    requires CarefulRun(start, steps) && IsCareful(Exec(start, steps), step)
    ensures CarefulRun(start, steps + [step]) && Exec(start, steps + [step]) == Next(Exec(start, steps), step)
  {
    assert (steps + [step])[..|steps|] == steps;
  }

  lemma Extends(s: System, step: Step)
    requires Reached(s) && !step.CreateBooking? && !step.CancelCommit? && (step.CancelRefund? ==> !step.ok)
    ensures Reached(Next(s, step))
  {
    CarefullyReachableIsSettled(s);
    CarefulExtends(s, step);
    StepKeepsJournal(s, step);
  }

  function TheStart(): System {
    Start(Config(600, 6), 0, [TheSeat()])
  }

  lemma ReachStart()
    ensures Reached(TheStart())
  {
    var start := TheStart();
    assert CarefulRun(start, []) && start == Exec(start, []);
    assert Seeded([TheSeat()]);
    assert CarefullyReachable(start);
    StartIsJournalled(Config(600, 6), 0, [TheSeat()]);
  }

  lemma StartCounts()
    ensures Next(TheStart(), CountHolds(7)) == TheStart().(counted := map[7 := 1])
  {
    assert LiveHolds([TheSeat()], 0, 7, 0) == 0;
    assert LiveHolds([TheSeat()], 1, 7, 0) == 0;
    assert CountPasses(TheStart(), 7);
  }

  lemma CountedTakes()
    ensures IsHeld(Next(TheStart().(counted := map[7 := 1]), TakeSeat(7, 0, Place(14, 'C'))))
  {}

  lemma ReachHeld() returns (s: System)
    ensures Reached(s) && IsHeld(s)
  {
    ReachStart();
    StartCounts();
    CountedTakes();
    Extends(TheStart(), CountHolds(7));
    var counted := TheStart().(counted := map[7 := 1]);
    Extends(counted, TakeSeat(7, 0, Place(14, 'C')));
    s := Next(counted, TakeSeat(7, 0, Place(14, 'C')));
  }

  lemma HeldOpens(s: System)
    requires IsHeld(s)
    ensures IsAt(Next(s, CreateBooking(7, "k", [0], 1)), Opened, Pending)
    ensures Next(s, CreateBooking(7, "k", [0], 1)).gw == s.gw
  {
    var seats := s.db.seats;
    assert Matched(seats, 0, [0], 7) == [];
    assert Matched(seats, 1, [0], 7) == [0];
    assert SortByPlace(seats, [0][..0]) == [];
    assert SortByPlace(seats, [0]) == [0];
  }

  lemma ReachOpened() returns (s: System)
    ensures Reached(s) && IsAt(s, Opened, Pending) && s.gw.authorizations == map[]
  {
    var held := ReachHeld();
    HeldOpens(held);
    CarefullyReachableIsSettled(held);
    CarefulExtends(held, CreateBooking(7, "k", [0], 1));
    StepKeepsJournal(held, CreateBooking(7, "k", [0], 1));
    s := Next(held, CreateBooking(7, "k", [0], 1));
  }

  lemma LateOpened(s: System)
    requires IsAt(s, Opened, Pending)
    ensures Next(s, Tick(601)) == s.(now := 601)
  {}

  /** Whose saga stops here leaves the seat pinned. Its hold runs out, the sweep passes it by, anybody may take it. */
  lemma ReachStranded() returns (s: System)
    ensures Reached(s) && PinnedTo(s, 0, 0) && |s.sagas| == 1 && s.sagas[0].pc.Opened?
    ensures s.db.seats[0].expires == Some(600) && s.now == 601 && Takeable(s.db.seats[0], s.now)
    ensures Inventory.Sweep(s.db.seats, s.now) == s.db.seats
  {
    var pinned := ReachOpened();
    LateOpened(pinned);
    Extends(pinned, Tick(601));
    s := Next(pinned, Tick(601));
  }

  lemma OpensAgain(s: System)
    requires IsAt(s, Opened, Pending)
    ensures Next(s, CreateBooking(7, "k", [0], 1)) != s
  {
    var seats := s.db.seats;
    assert Matched(seats, 0, [0], 7) == [];
    assert Matched(seats, 1, [0], 7) == [0];
    assert Store.CreateBooking(s.db, 7, "k", [0], 0).Created?;
    Coroutine.CreatingStep(s, 7, "k", [0], 1);
    assert |DoCreateBooking(s, 7, "k", [0], 1).sagas| == 2;
  }

  lemma OpenedIsNotHarmless(s: System)
    requires IsAt(s, Opened, Pending) && s.gw.authorizations == map[]
    ensures !Harmless(s, "k")
  {
    assert s.db.bookings[0].key == "k" && !Inert(s.sagas[0].pc);
  }

  /** A careful run reaches a state in which a key that is not harmless can be used again, and after which the money
    * rule can be broken: the customer simply books the held seat once more under the same key. */
  lemma ReachReuse() returns (s: System)
    ensures Reached(s) && Safe(s) && Settled(s)
    ensures Next(s, CreateBooking(7, "k", [0], 1)) != s && !Harmless(s, "k")
    ensures Failures.Breakable(Next(s, CreateBooking(7, "k", [0], 1)))
  {
    s := ReachOpened();
    OpensAgain(s);
    OpenedIsNotHarmless(s);
    CarefullyReachableIsSettled(s);
    Failures.ReuseBreaks(s, CreateBooking(7, "k", [0], 1));
  }

  lemma ReachCharging() returns (s: System)
    ensures Reached(s) && IsAt(s, Charging, Pending) && s.gw.authorizations == map[]
  {
    var pinned := ReachOpened();
    Extends(pinned, InsertPayment(0));
    s := Next(pinned, InsertPayment(0));
  }

  ghost predicate IsApproved(s: System) {
    |s.sagas| == 1 && s.sagas[0].pc.Answered? && s.sagas[0].pc.result.approved && IsAt(s, s.sagas[0].pc, Pending)
  }

  lemma ChargingIsApproved(s: System)
    requires IsAt(s, Charging, Pending) && AuthKey("k") !in s.gw.authorizations
    ensures IsApproved(Next(s, Authorize(0, Approve)))
  {}

  lemma ReachAnswered() returns (s: System)
    ensures Reached(s) && IsApproved(s)
  {
    var charging := ReachCharging();
    ChargingIsApproved(charging);
    Extends(charging, Authorize(0, Approve));
    s := Next(charging, Authorize(0, Approve));
  }

  /** A ticketed booking that is not confirmed yet is reached by a careful run: one seat, one hold, one saga. */
  lemma ReachTicketed() returns (s: System)
    ensures Reached(s) && Safe(s) && Settled(s) && SagaAt(s, 0, Issuing)
  {
    var answered := ReachAnswered();
    Extends(answered, RecordAnswer(0));
    var authorized := Next(answered, RecordAnswer(0));
    assert IsAt(authorized, Authorized, PaymentAuthorized);
    Extends(authorized, IssueTickets(0, false));
    s := Next(authorized, IssueTickets(0, false));
    CarefullyReachableIsSettled(s);
    PinnedSells(authorized);
  }

  lemma PinnedSells(s: System)
    requires IsAt(s, Authorized, PaymentAuthorized)
    ensures SagaAt(Next(s, IssueTickets(0, false)), 0, Issuing)
  {
    assert !Lost(s.db.seats[0], 0, 7);
    assert !AnyLost(s.db.seats, [0], 0, 7);
  }

  lemma RefusedEarlyCancel(s: System)
    requires SagaAt(s, 0, Issuing) && s.db.bookings[0].state == Ticketed && Refundable(s.db, 0) && RefOf(s, 0).Some?
    ensures var t := Next(s, CancelRefund(0, false)); t == s.(cancels := t.cancels) && LeavesPath(t, CancelCommit(0))
  {}

  /** A log does leave the table's arrows: a careful run reaches a state, every log legal so far, in which flagging a
    * cancel that began in TICKETED writes a row no arrow allows. */
  lemma ReachLeavingPath() returns (s: System)
    ensures Reached(s) && LeavesPath(s, CancelCommit(0))
    ensures LegalPath(Rows(s.db.audit, 0)) && !LegalPath(Rows(Next(s, CancelCommit(0)).db.audit, 0))
  {
    var ticketed := ReachTicketed();
    TicketedCanBeRefunded(ticketed);
    RefusedEarlyCancel(ticketed);
    Extends(ticketed, CancelRefund(0, false));
    s := Next(ticketed, CancelRefund(0, false));
    assert OnPath(s, 0);
    CarefullyReachableIsSettled(s);
    LeavingIsIllegal(s, CancelCommit(0));
  }

  lemma TicketedCanBeRefunded(s: System)
    requires Safe(s) && Settled(s) && SagaAt(s, 0, Issuing) && AllOnPath(s)
    ensures s.db.bookings[0].state == Ticketed && Refundable(s.db, 0) && RefOf(s, 0).Some?
  {
    assert OnPath(s, 0);
    assert InBalance(AccountOf(s, 0));
  }
}
