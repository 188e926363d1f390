/** Row locks taken in ascending seat id: any number of transactions, any seat sets, any schedule. */
module LockOrder {
  import opened Domain
  import opened Inventory

  /** SELECT ... ORDER BY id FOR UPDATE: the rows in the order they are locked, and how many are locked so far.
    * Locks are given back all at once, when the transaction ends. */
  datatype Txn = Txn(wants: seq<nat>, got: nat, ended: bool)

  ghost predicate Ascending(ids: seq<nat>) {
    forall i, j :: 0 <= i < j < |ids| ==> ids[i] < ids[j]
  }

  ghost predicate WellFormed(txns: seq<Txn>) {
    forall i :: 0 <= i < |txns| ==> txns[i].got <= |txns[i].wants| && Ascending(txns[i].wants)
  }

  ghost predicate Holds(txn: Txn, seat: nat) {
    !txn.ended && exists k :: 0 <= k < txn.got && k < |txn.wants| && txn.wants[k] == seat
  }

  predicate Pending(txn: Txn) {
    !txn.ended && txn.got < |txn.wants|
  }

  ghost predicate WaitsFor(txns: seq<Txn>, i: nat, j: nat) {
    i < |txns| && j < |txns| && i != j && Pending(txns[i]) && Holds(txns[j], txns[i].wants[txns[i].got])
  }

  ghost predicate CanStep(txns: seq<Txn>, i: nat) {
    && i < |txns| && !txns[i].ended
    && forall j: nat :: j < |txns| ==> !WaitsFor(txns, i, j)
  }

  /** Lock the next row, or commit once every row is locked. */
  function Step(txns: seq<Txn>, i: nat): seq<Txn>
    requires i < |txns|
  {
    if Pending(txns[i]) then txns[i := txns[i].(got := txns[i].got + 1)]
    else txns[i := txns[i].(ended := true)]
  }

  ghost predicate Exclusive(txns: seq<Txn>) {
    forall i, j, seat :: 0 <= i < |txns| && 0 <= j < |txns| && Holds(txns[i], seat) && Holds(txns[j], seat) ==> i == j
  }

  ghost predicate AllEnded(txns: seq<Txn>) {
    forall i :: 0 <= i < |txns| ==> txns[i].ended
  }

  // ----- whole schedules -----

  ghost predicate Schedule(txns: seq<Txn>, order: seq<nat>)
    decreases |order|
  {
    order == [] || (CanStep(txns, order[0]) && Schedule(Step(txns, order[0]), order[1..]))
  }

  ghost function After(txns: seq<Txn>, order: seq<nat>): seq<Txn>
    requires Schedule(txns, order)
    decreases |order|
  {
    if order == [] then txns else After(Step(txns, order[0]), order[1..])
  }

  /** Locks still to be taken, and commits still to come. */
  function Work(txns: seq<Txn>): nat {
    if txns == [] then 0
    else Work(txns[..|txns| - 1]) + Remaining(txns[|txns| - 1])
  }

  function Remaining(txn: Txn): nat {
    if txn.ended then 0 else 1 + if txn.got < |txn.wants| then |txn.wants| - txn.got else 0
  }

  // ----- no cycle -----

  /** Along a chain of waiting transactions, the awaited seat ids increase. */
  lemma WaitingAscends(txns: seq<Txn>, i: nat, j: nat, k: nat)
    requires WellFormed(txns) && WaitsFor(txns, i, j) && WaitsFor(txns, j, k)
    ensures txns[i].wants[txns[i].got] < txns[j].wants[txns[j].got]
  {}

  ghost predicate WaitChain(txns: seq<Txn>, path: seq<nat>) {
    && |path| >= 2
    && forall k :: 0 <= k < |path| - 1 ==> WaitsFor(txns, path[k], path[k + 1])
  }

  lemma {:induction false} ChainAscends(txns: seq<Txn>, path: seq<nat>, n: nat)
    requires WellFormed(txns) && WaitChain(txns, path) && 0 < n < |path| - 1
    ensures WaitsFor(txns, path[0], path[1]) && WaitsFor(txns, path[n], path[n + 1])
    ensures txns[path[0]].wants[txns[path[0]].got] < txns[path[n]].wants[txns[path[n]].got]
  {
    assert WaitsFor(txns, path[n - 1], path[n]) && WaitsFor(txns, path[n], path[n + 1]);
    WaitingAscends(txns, path[n - 1], path[n], path[n + 1]);
    if n > 1 {
      ChainAscends(txns, path, n - 1);
    }
  }

  /** The wait-for relation has no cycle of any length. */
  lemma NeverDeadlocked(txns: seq<Txn>, path: seq<nat>)
    requires WellFormed(txns) && WaitChain(txns, path)
    ensures path[0] != path[|path| - 1]
  {
    var n := |path| - 2;
    var first, last, final := path[0], path[n], path[n + 1];
    assert WaitsFor(txns, first, path[1]) && WaitsFor(txns, last, final);
    if n > 0 {
      ChainAscends(txns, path, n);
      assert final == first ==> WaitsFor(txns, last, first);
    }
  }

  // ----- somebody can always go on -----

  /** The unfinished transaction that waits for the greatest seat id, if all of them wait. */
  lemma {:induction false} GreatestWaiter(txns: seq<Txn>, n: nat) returns (i: nat)
    requires n <= |txns| && exists k :: 0 <= k < n && Pending(txns[k])
    ensures i < n && Pending(txns[i])
    ensures forall k :: 0 <= k < n && Pending(txns[k]) ==> txns[k].wants[txns[k].got] <= txns[i].wants[txns[i].got]
  {
    if exists k :: 0 <= k < n - 1 && Pending(txns[k]) {
      i := GreatestWaiter(txns, n - 1);
      if Pending(txns[n - 1]) && txns[n - 1].wants[txns[n - 1].got] > txns[i].wants[txns[i].got] {
        i := n - 1;
      }
    } else {
      i := n - 1;
    }
  }

  lemma SomebodyCanStep(txns: seq<Txn>) returns (i: nat)
    requires WellFormed(txns) && !AllEnded(txns)
    ensures CanStep(txns, i)
  {
    if k: nat :| k < |txns| && !txns[k].ended && !Pending(txns[k]) {
      i := k;
    } else {
      i := GreatestWaiter(txns, |txns|);
      forall j: nat | j < |txns| ensures !WaitsFor(txns, i, j) {
        assert WaitsFor(txns, i, j) ==> Pending(txns[j]);
      }
    }
  }

  // ----- what every step keeps, and the measure it lowers -----

  lemma StepKeepsOrder(txns: seq<Txn>, i: nat)
    requires WellFormed(txns) && Exclusive(txns) && CanStep(txns, i)
    ensures WellFormed(Step(txns, i)) && Exclusive(Step(txns, i))
  {
    var after := Step(txns, i);
    forall a: nat, b: nat, seat | a < |after| && b < |after| && Holds(after[a], seat) && Holds(after[b], seat) ensures a == b {
      assert a != i ==> Holds(txns[a], seat);
      assert b != i ==> Holds(txns[b], seat);
      assert !WaitsFor(txns, i, a) && !WaitsFor(txns, i, b);
    }
  }

  lemma {:induction false} WorkChanges(txns: seq<Txn>, i: nat, txn: Txn)
    requires i < |txns|
    ensures Work(txns[i := txn]) == Work(txns) - Remaining(txns[i]) + Remaining(txn)
  {
    var n := |txns| - 1;
    if i < n {
      WorkChanges(txns[..n], i, txn);
      assert txns[i := txn][..n] == txns[..n][i := txn];
    } else {
      assert txns[i := txn][..n] == txns[..n];
    }
  }

  lemma StepLowersWork(txns: seq<Txn>, i: nat)
    requires CanStep(txns, i)
    ensures Work(Step(txns, i)) < Work(txns)
  {
    WorkChanges(txns, i, Step(txns, i)[i]);
  }

  /** Every schedule is finite, keeps the locks exclusive, and one that nobody can extend has finished
    * every transaction. */
  lemma {:induction false} EveryScheduleTerminates(txns: seq<Txn>, order: seq<nat>)
    requires WellFormed(txns) && Exclusive(txns) && Schedule(txns, order)
    ensures |order| + Work(After(txns, order)) <= Work(txns)
    ensures |After(txns, order)| == |txns| && WellFormed(After(txns, order)) && Exclusive(After(txns, order))
    ensures (forall i :: !CanStep(After(txns, order), i)) ==> AllEnded(After(txns, order))
    decreases |order|
  {
    if order == [] {
      if !AllEnded(txns) {
        var i := SomebodyCanStep(txns);
      }
    } else {
      StepKeepsOrder(txns, order[0]);
      StepLowersWork(txns, order[0]);
      EveryScheduleTerminates(Step(txns, order[0]), order[1..]);
    }
  }

  lemma StepFirst(txns: seq<Txn>, i: nat, rest: seq<nat>)
    requires CanStep(txns, i) && Schedule(Step(txns, i), rest)
    ensures Schedule(txns, [i] + rest) && After(txns, [i] + rest) == After(Step(txns, i), rest)
  {
    assert ([i] + rest)[1..] == rest;
  }

  /** From anywhere, some schedule finishes every transaction. */
  lemma {:induction false} SomeScheduleFinishes(txns: seq<Txn>) returns (order: seq<nat>)
    requires WellFormed(txns) && Exclusive(txns)
    ensures Schedule(txns, order)
    ensures |After(txns, order)| == |txns| && AllEnded(After(txns, order))
    decreases Work(txns)
  {
    if AllEnded(txns) {
      order := [];
    } else {
      var i := SomebodyCanStep(txns);
      StepKeepsOrder(txns, i);
      StepLowersWork(txns, i);
      var rest := SomeScheduleFinishes(Step(txns, i));
      StepFirst(txns, i, rest);
      order := [i] + rest;
    }
  }

  // ----- the statements of the saga lock in this order -----

  /** The rows of a query over a set of ids, ORDER BY id: the re-lock of step 4 and of cancel. */
  function Relocked(n: nat, ids: set<nat>): seq<nat> {
    if n == 0 then [] else Relocked(n - 1, ids) + if n - 1 in ids then [n - 1] else []
  }

  lemma {:induction false} RelockedAscends(n: nat, ids: set<nat>)
    ensures Ascending(Relocked(n, ids))
    ensures forall i: nat :: i in Relocked(n, ids) <==> i < n && i in ids
  {
    if n > 0 {
      RelockedAscends(n - 1, ids);
      var front := Relocked(n - 1, ids);
      assert forall k :: 0 <= k < |front| ==> front[k] in front;
    }
  }

  /** Any mixture of sagas in step 1, sagas in step 4 and cancels is a well-formed set of transactions. */
  datatype Locking = ForHolds(holds: seq<nat>, user: nat) | ForSeats(ids: set<nat>)

  function LockList(seats: seq<Seat>, locking: Locking): seq<nat> {
    match locking
    case ForHolds(holds, user) => Matched(seats, |seats|, holds, user)
    case ForSeats(ids) => Relocked(|seats|, ids)
  }

  function Begin(seats: seq<Seat>, work: seq<Locking>): seq<Txn> {
    seq(|work|, i requires 0 <= i < |work| => Txn(LockList(seats, work[i]), 0, false))
  }

  /** The rows a statement is about: those that carry one of the holds and the user, or those with the ids. */
  ghost predicate Covers(seats: seq<Seat>, locking: Locking, i: nat)
    requires i < |seats|
  {
    match locking
    case ForHolds(holds, user) => seats[i].holder == Some(user) && exists h :: h in holds && seats[i].holdId == Some(h)
    case ForSeats(ids) => i in ids
  }

  /** A statement locks exactly the rows it is about, each once, from the lowest id up. */
  lemma LocksWhatItCovers(seats: seq<Seat>, locking: Locking)
    ensures Ascending(LockList(seats, locking))
    ensures forall i: nat :: i in LockList(seats, locking) <==> i < |seats| && Covers(seats, locking, i)
  {
    match locking
    case ForHolds(holds, user) => MatchedIsExact(seats, |seats|, holds, user);
    case ForSeats(ids) => RelockedAscends(|seats|, ids);
  }

  lemma SagasNeverDeadlock(seats: seq<Seat>, work: seq<Locking>, order: seq<nat>)
    requires Schedule(Begin(seats, work), order)
    ensures |order| <= Work(Begin(seats, work))
    ensures |After(Begin(seats, work), order)| == |work|
    ensures (forall i :: !CanStep(After(Begin(seats, work), order), i)) ==> AllEnded(After(Begin(seats, work), order))
    ensures forall path :: WaitChain(After(Begin(seats, work), order), path) ==> path[0] != path[|path| - 1]
  {
    var txns := Begin(seats, work);
    forall i | 0 <= i < |txns| ensures Ascending(txns[i].wants) {
      LocksWhatItCovers(seats, work[i]);
    }
    EveryScheduleTerminates(txns, order);
    forall path | WaitChain(After(txns, order), path) ensures path[0] != path[|path| - 1] {
      NeverDeadlocked(After(txns, order), path);
    }
  }

  /** Without the order, two transactions over two seats can wait for each other for ever. */
  lemma UnorderedLocksDeadlock()
    ensures var txns := [Txn([0, 1], 0, false), Txn([1, 0], 0, false)];
      && Schedule(txns, [0, 1])
      && WaitsFor(After(txns, [0, 1]), 0, 1) && WaitsFor(After(txns, [0, 1]), 1, 0)
      && forall i :: !CanStep(After(txns, [0, 1]), i)
  {
    var txns := [Txn([0, 1], 0, false), Txn([1, 0], 0, false)];
    var one := Step(txns, 0);
    var two := Step(one, 1);
    assert [0, 1][1..] == [1] && [1][1..] == [];
    assert one == [Txn([0, 1], 1, false), Txn([1, 0], 0, false)];
    assert two == [Txn([0, 1], 1, false), Txn([1, 0], 1, false)];
    assert CanStep(txns, 0) && CanStep(one, 1);
    assert Schedule(two, []) && Schedule(one, [1]);
    assert After(one, [1]) == two && After(txns, [0, 1]) == two;
    assert two[0].wants[0] == 0 && two[1].wants[0] == 1;
    assert Holds(two[0], 0) && Holds(two[1], 1);
    assert WaitsFor(two, 0, 1) && WaitsFor(two, 1, 0);
  }
}
