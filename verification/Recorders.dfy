/** audit.record under concurrency: any number of transactions append to one booking's log, some abort.
  * The unique index on (booking_id, seq) makes a number wait for, or die of, another transaction's. */
module Recorders {
  import opened Domain

  datatype Status = Active | Committed | Aborted

  /** `next` is max(seq) + 1 as last read and not used yet; `mine` are the rows flushed but not committed. */
  datatype Txn = Txn(status: Status, next: Option<nat>, mine: seq<nat>)

  /** The committed rows' numbers in the order they were committed. */
  datatype Log = Log(committed: seq<nat>, txns: seq<Txn>)

  datatype Step =
    | Open
    | ReadMax(t: nat)
    | Flush(t: nat)
    | Commit(t: nat)
    | Rollback(t: nat)

  function Max(numbers: seq<nat>): nat {
    if numbers == [] then 0
    else
      var rest := Max(numbers[..|numbers| - 1]);
      if numbers[|numbers| - 1] > rest then numbers[|numbers| - 1] else rest
  }

  predicate IsActive(log: Log, t: nat) {
    t < |log.txns| && log.txns[t].status.Active?
  }

  /** Another transaction has the number but has not ended: the INSERT waits. */
  predicate Blocked(log: Log, t: nat) {
    && IsActive(log, t) && log.txns[t].next.Some?
    && exists u | 0 <= u < |log.txns| :: u != t && log.txns[u].status.Active? && log.txns[t].next.value in log.txns[u].mine
  }

  function With(log: Log, t: nat, txn: Txn): Log
    requires t < |log.txns|
  {
    log.(txns := log.txns[t := txn])
  }

  function Next(log: Log, step: Step): Log {
    match step
    case Open => log.(txns := log.txns + [Txn(Active, None, [])])
    case ReadMax(t) =>
      if !IsActive(log, t) then log
      else With(log, t, log.txns[t].(next := Some(Max(log.committed + log.txns[t].mine) + 1)))
    case Flush(t) =>
      if !IsActive(log, t) || log.txns[t].next.None? || Blocked(log, t) then log
      else if log.txns[t].next.value in log.committed then With(log, t, Txn(Aborted, None, []))
      else With(log, t, Txn(Active, None, log.txns[t].mine + [log.txns[t].next.value]))
    case Commit(t) =>
      if !IsActive(log, t) then log
      else With(log, t, Txn(Committed, None, [])).(committed := log.committed + log.txns[t].mine)
    case Rollback(t) =>
      if !IsActive(log, t) then log else With(log, t, Txn(Aborted, None, []))
  }

  function Exec(log: Log, steps: seq<Step>): Log {
    if steps == [] then log else Next(Exec(log, steps[..|steps| - 1]), steps[|steps| - 1])
  }

  /** Numbers n + 1, n + 2, and so on. */
  ghost predicate Follows(numbers: seq<nat>, n: nat) {
    forall i :: 0 <= i < |numbers| ==> numbers[i] == n + i + 1
  }

  lemma {:induction false} MaxOfRun(numbers: seq<nat>)
    requires Follows(numbers, 0)
    ensures Max(numbers) == |numbers|
  {
    if numbers != [] {
      MaxOfRun(numbers[..|numbers| - 1]);
    }
  }

  lemma HasAll(numbers: seq<nat>, n: nat)
    requires Follows(numbers, n)
    ensures forall k: nat :: n < k <= n + |numbers| <==> k in numbers
  {
    forall k: nat | n < k <= n + |numbers| ensures k in numbers {
      assert numbers[k - n - 1] == k;
    }
  }

  ghost predicate TxnOk(log: Log, t: nat)
    requires t < |log.txns|
  {
    var txn := log.txns[t];
    && (!txn.status.Active? ==> txn.mine == [] && txn.next.None?)
    && Follows(txn.mine, |log.committed|)
    && (txn.next.Some? ==> txn.next.value <= |log.committed| + |txn.mine| + 1)
    && (txn.next.Some? ==> txn.next.value >= 1)
    && (txn.next.Some? && txn.mine != [] ==> txn.next.value == |log.committed| + |txn.mine| + 1)
  }

  ghost predicate Gapless(log: Log) {
    && Follows(log.committed, 0)
    && (forall t: nat :: t < |log.txns| ==> TxnOk(log, t))
    && (forall t, u :: 0 <= t < |log.txns| && 0 <= u < |log.txns| && log.txns[t].mine != [] && log.txns[u].mine != [] ==> t == u)
  }

  lemma ReadKeeps(log: Log, t: nat)
    requires Gapless(log)
    ensures Gapless(Next(log, ReadMax(t)))
  {
    if IsActive(log, t) {
      assert TxnOk(log, t);
      MaxOfRun(log.committed + log.txns[t].mine);
      var after := Next(log, ReadMax(t));
      forall u: nat | u < |after.txns| ensures TxnOk(after, u) {
        assert TxnOk(log, u);
      }
    }
  }

  /** A number that is neither taken nor awaited is the next one, and nobody else has rows in flight. */
  lemma FlushKeeps(log: Log, t: nat)
    requires Gapless(log)
    ensures Gapless(Next(log, Flush(t)))
  {
    if IsActive(log, t) && log.txns[t].next.Some? && !Blocked(log, t) && log.txns[t].next.value !in log.committed {
      var n := log.txns[t].next.value;
      assert TxnOk(log, t);
      HasAll(log.committed, 0);
      forall u: nat | u < |log.txns| && u != t ensures log.txns[u].mine == [] {
        assert TxnOk(log, u);
        HasAll(log.txns[u].mine, |log.committed|);
      }
    }
    var after := Next(log, Flush(t));
    forall u: nat | u < |after.txns| ensures TxnOk(after, u) {
      assert TxnOk(log, u);
    }
  }

  lemma EndKeeps(log: Log, t: nat)
    requires Gapless(log)
    ensures Gapless(Next(log, Commit(t))) && Gapless(Next(log, Rollback(t)))
  {
    var kept, dropped := Next(log, Commit(t)), Next(log, Rollback(t));
    assert IsActive(log, t) ==> TxnOk(log, t);
    forall u: nat | u < |log.txns| ensures TxnOk(kept, u) && TxnOk(dropped, u) {
      assert TxnOk(log, u);
    }
  }

  lemma StepKeeps(log: Log, step: Step)
    requires Gapless(log)
    ensures Gapless(Next(log, step))
  {
    match step
    case Open =>
      var after := Next(log, step);
      forall u: nat | u < |after.txns| ensures TxnOk(after, u) {
        assert u < |log.txns| ==> TxnOk(log, u);
      }
    case ReadMax(t) => ReadKeeps(log, t);
    case Flush(t) => FlushKeeps(log, t);
    case Commit(t) => EndKeeps(log, t);
    case Rollback(t) => EndKeeps(log, t);
  }

  lemma {:induction false} RunKeeps(log: Log, steps: seq<Step>)
    requires Gapless(log)
    ensures Gapless(Exec(log, steps))
  {
    if steps != [] {
      RunKeeps(log, steps[..|steps| - 1]);
      StepKeeps(Exec(log, steps[..|steps| - 1]), steps[|steps| - 1]);
    }
  }

  /** Whoever records, and whoever aborts, the committed numbers are 1, 2, and so on without gap or repeat. */
  lemma CommittedNumbersAreGapless(steps: seq<Step>)
    ensures Follows(Exec(Log([], []), steps).committed, 0)
  {
    RunKeeps(Log([], []), steps);
  }

  /** A recorder waits only for one transaction, which itself never waits: recorders cannot deadlock. */
  lemma BlockerIsFree(log: Log, t: nat, u: nat)
    requires Gapless(log) && Blocked(log, t)
    requires u < |log.txns| && u != t && log.txns[u].status.Active? && log.txns[t].next.value in log.txns[u].mine
    ensures !Blocked(log, u)
    ensures forall v :: 0 <= v < |log.txns| && log.txns[v].mine != [] ==> v == u
  {
    assert TxnOk(log, u);
  }

  /** A recorder whose number was committed by somebody else meanwhile aborts; it neither waits nor leaves a gap. */
  lemma StaleNumbersAbort(log: Log, t: nat)
    requires Gapless(log) && IsActive(log, t) && log.txns[t].next.Some? && log.txns[t].next.value <= |log.committed|
    ensures Next(log, Flush(t)).txns[t].status.Aborted?
    ensures Next(log, Flush(t)).committed == log.committed
  {
    var n := log.txns[t].next.value;
    assert TxnOk(log, t);
    HasAll(log.committed, 0);
    forall u: nat | u < |log.txns| ensures n !in log.txns[u].mine {
      assert TxnOk(log, u);
      HasAll(log.txns[u].mine, |log.committed|);
    }
  }

  // ----- what is committed is what was recorded -----

  /** Transaction t has read a number that nobody has committed and nobody else has in flight. */
  ghost predicate Lands(log: Log, t: nat) {
    && t < |log.txns| && log.txns[t].status == Active && log.txns[t].next.Some?
    && log.txns[t].next.value !in log.committed
    && forall u :: 0 <= u < |log.txns| && u != t && log.txns[u].status == Active ==> log.txns[t].next.value !in log.txns[u].mine
  }

  /** How many rows transaction t has recorded in a run from an empty log. */
  ghost function Recorded(steps: seq<Step>, t: nat): nat {
    if steps == [] then 0
    else
      var front := steps[..|steps| - 1];
      Recorded(front, t) + if steps[|steps| - 1] == Flush(t) && Lands(Exec(Log([], []), front), t) then 1 else 0
  }

  ghost predicate StillActive(log: Log, t: nat) {
    t < |log.txns| && log.txns[t].status == Active
  }

  /** How many rows the transactions that committed had recorded. */
  ghost function RecordedAndKept(steps: seq<Step>): nat {
    if steps == [] then 0
    else
      var front, last := steps[..|steps| - 1], steps[|steps| - 1];
      RecordedAndKept(front) + if last.Commit? && StillActive(Exec(Log([], []), front), last.t) then Recorded(front, last.t) else 0
  }

  ghost predicate Accounted(log: Log, steps: seq<Step>, t: nat) {
    && (StillActive(log, t) ==> |log.txns[t].mine| == Recorded(steps, t))
    && (t >= |log.txns| ==> Recorded(steps, t) == 0)
  }

  lemma StepAccounts(log: Log, step: Step, t: nat, before: nat)
    requires StillActive(log, t) ==> |log.txns[t].mine| == before
    requires t >= |log.txns| ==> before == 0
    ensures var after := before + if step == Flush(t) && Lands(log, t) then 1 else 0;
      && (StillActive(Next(log, step), t) ==> |Next(log, step).txns[t].mine| == after)
      && (t >= |Next(log, step).txns| ==> after == 0)
  {}

  /** Over any run from an empty log, the committed rows are as many as the transactions that committed had
    * recorded: no commit loses a row, no abort leaves one. */
  lemma {:induction false} NothingRecordedIsLost(steps: seq<Step>, t: nat)
    ensures Accounted(Exec(Log([], []), steps), steps, t)
    ensures |Exec(Log([], []), steps).committed| == RecordedAndKept(steps)
  {
    if steps != [] {
      var front, last := steps[..|steps| - 1], steps[|steps| - 1];
      NothingRecordedIsLost(front, t);
      StepAccounts(Exec(Log([], []), front), last, t, Recorded(front, t));
      if last.Commit? {
        NothingRecordedIsLost(front, last.t);
      }
    }
  }

  /** A recorder whom nobody disturbs reads, writes and commits the next number. */
  lemma UndisturbedRecords(log: Log, t: nat)
    requires Gapless(log) && StillActive(log, t)
    requires forall u :: 0 <= u < |log.txns| && u != t ==> log.txns[u].mine == []
    ensures var read := Next(log, ReadMax(t));
      var flushed := Next(read, Flush(t));
      var mine := log.txns[t].mine;
      && !Blocked(read, t)
      && Next(flushed, Commit(t)).committed == log.committed + mine + [|log.committed| + |mine| + 1]
  {
    assert TxnOk(log, t);
    MaxOfRun(log.committed + log.txns[t].mine);
    HasAll(log.committed, 0);
  }
}
