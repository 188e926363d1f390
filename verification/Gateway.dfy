/** The payment gateway of app/services/payments/fake.py, as a value and as the class that mutates it. */
module Gateway {
  import opened Domain

  datatype Authorization = Authorization(ref: nat, approved: bool)

  /** What the card token makes the gateway do (app/services/demo_triggers.py). */
  datatype Trigger = Approve | Decline | TimeoutThenOk

  datatype Ledger = Ledger(
    authorizations: map<string, Authorization>,
    timedOutOnce: set<string>,
    captured: set<nat>,
    voided: set<nat>,
    refunded: set<nat>,
    nextRef: nat)

  datatype Reply = Answer(result: Authorization) | TimedOut

  function AuthorizeOn(gw: Ledger, key: string, trigger: Trigger): (Ledger, Reply) {
    if key in gw.authorizations then (gw, Answer(gw.authorizations[key]))
    else if trigger.TimeoutThenOk? && key !in gw.timedOutOnce then
      (gw.(timedOutOnce := gw.timedOutOnce + {key}), TimedOut)
    else
      var result := Authorization(gw.nextRef, !trigger.Decline?);
      (gw.(authorizations := gw.authorizations[key := result], nextRef := gw.nextRef + 1), Answer(result))
  }

  function CaptureOn(gw: Ledger, ref: nat): Ledger {
    gw.(captured := gw.captured + {ref})
  }

  function VoidOn(gw: Ledger, ref: nat): Ledger {
    gw.(voided := gw.voided + {ref})
  }

  function RefundOn(gw: Ledger, ref: nat): Ledger {
    gw.(refunded := gw.refunded + {ref})
  }

  /** References are minted once: no two keys share one, and every one is below the counter. */
  ghost predicate RefsAreMintedOnce(gw: Ledger) {
    && (forall k :: k in gw.authorizations ==> gw.authorizations[k].ref < gw.nextRef)
    && (forall j, k :: j in gw.authorizations && k in gw.authorizations && j != k ==>
         gw.authorizations[j].ref != gw.authorizations[k].ref)
  }

  // ----- any history of calls -----

  datatype Call = AuthorizeCall(key: string, trigger: Trigger) | CaptureCall(ref: nat) | VoidCall(ref: nat) | RefundCall(ref: nat)

  function After(gw: Ledger, call: Call): Ledger {
    match call
    case AuthorizeCall(key, trigger) => AuthorizeOn(gw, key, trigger).0
    case CaptureCall(ref) => CaptureOn(gw, ref)
    case VoidCall(ref) => VoidOn(gw, ref)
    case RefundCall(ref) => RefundOn(gw, ref)
  }

  function AfterAll(gw: Ledger, calls: seq<Call>): Ledger {
    if calls == [] then gw else After(AfterAll(gw, calls[..|calls| - 1]), calls[|calls| - 1])
  }

  /** Whatever happens in between, a key that was answered once is answered the same way for ever,
    * without a second charge; and a key that timed out once is answered at the next attempt. */
  lemma {:induction false} AnsweredOnce(gw: Ledger, key: string, calls: seq<Call>, trigger: Trigger)
    ensures key in gw.authorizations ==>
      var later := AfterAll(gw, calls);
      AuthorizeOn(later, key, trigger) == (later, Answer(gw.authorizations[key]))
    ensures key in gw.timedOutOnce ==> AuthorizeOn(AfterAll(gw, calls), key, trigger).1.Answer?
  {
    if calls != [] {
      AnsweredOnce(gw, key, calls[..|calls| - 1], trigger);
    }
  }

  /** Over any history from an empty gateway, at most one reference exists per key and per charge. */
  lemma {:induction false} HistoryMintsOnce(gw: Ledger, calls: seq<Call>)
    requires RefsAreMintedOnce(gw)
    ensures RefsAreMintedOnce(AfterAll(gw, calls))
  {
    if calls != [] {
      HistoryMintsOnce(gw, calls[..|calls| - 1]);
    }
  }

  // ----- the answers, told from the calls alone -----

  predicate Asks(calls: seq<Call>, k: nat, key: string) {
    k < |calls| && calls[k].AuthorizeCall? && calls[k].key == key
  }

  /** One of the first n calls asked under the key with a card that times out. */
  predicate TimedOutIn(calls: seq<Call>, n: nat, key: string) {
    n > 0 && (TimedOutIn(calls, n - 1, key) || (Asks(calls, n - 1, key) && calls[n - 1].trigger.TimeoutThenOk?))
  }

  /** The first call under the key, of the first n, that got an answer: one whose card does not time out, or that
    * comes after a timeout. */
  function DecidedBy(calls: seq<Call>, n: nat, key: string): (k: Option<nat>)
    ensures k.Some? ==> k.value < n && Asks(calls, k.value, key)
  {
    if n == 0 then None
    else if DecidedBy(calls, n - 1, key).Some? then DecidedBy(calls, n - 1, key)
    else if Asks(calls, n - 1, key) && (!calls[n - 1].trigger.TimeoutThenOk? || TimedOutIn(calls, n - 1, key)) then Some(n - 1)
    else None
  }

  predicate Decides(calls: seq<Call>, k: nat) {
    k < |calls| && calls[k].AuthorizeCall? && DecidedBy(calls, k + 1, calls[k].key) == Some(k)
  }

  /** How many keys the first n calls decided. */
  function Decisions(calls: seq<Call>, n: nat): nat {
    if n == 0 then 0 else Decisions(calls, n - 1) + if Decides(calls, n - 1) then 1 else 0
  }

  /** What the gateway holds under the key. */
  function ChargeUnder(calls: seq<Call>, n: nat, key: string): Option<Authorization> {
    var k := DecidedBy(calls, n, key);
    if k.None? then None else Some(Authorization(Decisions(calls, k.value), !calls[k.value].trigger.Decline?))
  }

  ghost predicate KeyTold(gw: Ledger, calls: seq<Call>, n: nat, key: string) {
    && (if key in gw.authorizations then Some(gw.authorizations[key]) else None) == ChargeUnder(calls, n, key)
    && (key in gw.timedOutOnce ==> TimedOutIn(calls, n, key))
    && (TimedOutIn(calls, n, key) && key !in gw.authorizations ==> key in gw.timedOutOnce)
  }

  predicate Called(calls: seq<Call>, n: nat, call: Call) {
    n > 0 && (Called(calls, n - 1, call) || (n <= |calls| && calls[n - 1] == call))
  }

  ghost predicate LedgerTold(gw: Ledger, calls: seq<Call>, n: nat) {
    && gw.nextRef == Decisions(calls, n)
    && (forall key :: KeyTold(gw, calls, n, key))
    && (forall ref :: ref in gw.captured <==> Called(calls, n, CaptureCall(ref)))
    && (forall ref :: ref in gw.voided <==> Called(calls, n, VoidCall(ref)))
    && (forall ref :: ref in gw.refunded <==> Called(calls, n, RefundCall(ref)))
  }

  lemma KeyStaysTold(gw: Ledger, calls: seq<Call>, n: nat, key: string)
    requires n < |calls| && gw.nextRef == Decisions(calls, n) && KeyTold(gw, calls, n, key)
    ensures KeyTold(After(gw, calls[n]), calls, n + 1, key)
  {}

  lemma DecidesIffMints(gw: Ledger, calls: seq<Call>, n: nat)
    requires n < |calls| && LedgerTold(gw, calls, n)
    ensures After(gw, calls[n]).nextRef == Decisions(calls, n + 1)
  {
    if calls[n].AuthorizeCall? {
      assert KeyTold(gw, calls, n, calls[n].key);
    }
  }

  lemma StepTold(gw: Ledger, calls: seq<Call>, n: nat)
    requires n < |calls| && LedgerTold(gw, calls, n)
    ensures LedgerTold(After(gw, calls[n]), calls, n + 1)
  {
    var after, m := After(gw, calls[n]), n + 1;
    DecidesIffMints(gw, calls, n);
    forall key ensures KeyTold(after, calls, m, key) {
      assert KeyTold(gw, calls, n, key);
      KeyStaysTold(gw, calls, n, key);
    }
  }

  /** After any history from an empty gateway: a key is charged iff some call under it was answered, once, as the card
    * of the first such call says; and just the references of the capture, void and refund calls are captured, voided
    * and refunded. */
  lemma {:induction false} HistoryTellsLedger(calls: seq<Call>, n: nat)
    requires n <= |calls|
    ensures LedgerTold(AfterAll(Ledger(map[], {}, {}, {}, {}, 0), calls[..n]), calls, n)
  {
    if n > 0 {
      HistoryTellsLedger(calls, n - 1);
      assert calls[..n][..n - 1] == calls[..n - 1];
      StepTold(AfterAll(Ledger(map[], {}, {}, {}, {}, 0), calls[..n - 1]), calls, n - 1);
    }
  }

  class FakePaymentGateway {
    var authorizations: map<string, Authorization>
    var timedOutOnce: set<string>
    var captured: set<nat>
    var voided: set<nat>
    var refunded: set<nat>
    var refundFailures: set<nat>
    var nextRef: nat

    function State(): Ledger
      reads this
    {
      Ledger(authorizations, timedOutOnce, captured, voided, refunded, nextRef)
    }

    constructor ()
      ensures State() == Ledger(map[], {}, {}, {}, {}, 0) && refundFailures == {}
      ensures RefsAreMintedOnce(State())
    {
      authorizations, timedOutOnce, captured, voided, refunded := map[], {}, {}, {}, {};
      refundFailures, nextRef := {}, 0;
    }

    method Authorize(key: string, trigger: Trigger) returns (reply: Reply)
      modifies this
      ensures (State(), reply) == AuthorizeOn(old(State()), key, trigger)
      ensures refundFailures == old(refundFailures)
    {
      if key in authorizations {
        return Answer(authorizations[key]);
      }
      if trigger.TimeoutThenOk? && key !in timedOutOnce {
        timedOutOnce := timedOutOnce + {key};
        return TimedOut;
      }
      var result: Authorization;
      if trigger.Decline? {
        result := Authorization(nextRef, false);
      } else {
        result := Authorization(nextRef, true);
      }
      nextRef := nextRef + 1;
      authorizations := authorizations[key := result];
      return Answer(result);
    }

    method Capture(ref: nat)
      modifies this
      ensures State() == CaptureOn(old(State()), ref) && refundFailures == old(refundFailures)
    {
      captured := captured + {ref};
    }

    method Void(ref: nat)
      modifies this
      ensures State() == VoidOn(old(State()), ref) && refundFailures == old(refundFailures)
    {
      voided := voided + {ref};
    }

    /** False stands for RefundFailed; a refused refund changes nothing. */
    method Refund(ref: nat) returns (ok: bool)
      modifies this
      ensures ok == (ref !in old(refundFailures))
      ensures State() == if ok then RefundOn(old(State()), ref) else old(State())
      ensures refundFailures == old(refundFailures)
    {
      if ref in refundFailures {
        return false;
      }
      refunded := refunded + {ref};
      return true;
    }

    method ArmRefundFailure(ref: nat)
      modifies this
      ensures refundFailures == old(refundFailures) + {ref} && State() == old(State())
    {
      refundFailures := refundFailures + {ref};
    }
  }
}
