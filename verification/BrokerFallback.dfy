/** What becomes of a transaction no broker takes (supervisor/committee/staticbroker.go): it is relayed,
    debits its sender once in the sender's shard and credits its recipient once in the recipient's. */
module BrokerFallback {
  import opened Types
  import opened Execution
  import opened ExecutionLaws
  import opened Routing
  import opened TxBlockOps
  import opened Brokers
  import opened StaticBrokers
  import opened StaticBrokerCommittees
  import opened BrokerSystem

  /** The second half of a relayed transaction, at its recipient's default shard. */
  function SecondOf(n: nat, tx: Transaction): TxTo
    requires n > 0
  {
    TxTo(DefaultAccountLoc(tx.recipient, n), tx.(relayStage := RELAY2))
  }

  /** The fallback is the first half of a relay transaction with the original hash, sent to the sender's
      default shard and reported as such. */
  lemma FallBackIsRelay(n: nat, tx: Transaction)
    requires n > 0 && tx.bHash == NoHash
    ensures var f := FallBack(tx);
      && TxType(f) == RelayTx && f.relayStage == RELAY1 && f.rHash == HashOf(tx) && KindOf(f) == Relay1
      && f.sender == tx.sender && f.recipient == tx.recipient && f.value == tx.value
      && TxLoc(n, f) == DefaultAccountLoc(tx.sender, n)
      && TxType(SecondOf(n, f).tx) == RelayTx && TxLoc(n, SecondOf(n, f).tx) == DefaultAccountLoc(tx.recipient, n)
  {
  }

  /** Every relay and broker transaction is sent to the one shard that does not skip it, an ordinary one
      to its sender's. */
  lemma SentWhereItActs(n: nat, tx: Transaction, shard: int)
    requires n > 0
    ensures TxType(tx) == NormalTx ==> TxLoc(n, tx) == DefaultAccountLoc(tx.sender, n)
    ensures TxType(tx) == RelayTx && (tx.relayStage == RELAY1 || tx.relayStage == RELAY2) ==>
      (shard == TxLoc(n, tx) <==> ActsHere(map[], n, shard, tx))
    ensures TxType(tx) == BrokerTx && (tx.brokerStage == SIGMA1 || tx.brokerStage == SIGMA2) ==>
      (shard == TxLoc(n, tx) <==> ActsHere(map[], n, shard, tx))
  {
  }

  /** A batch is classified transaction by transaction: it crosses exactly when its ends have different
      default shards and neither is a broker. */
  lemma {:induction false} CrossingExactly(book: Book, n: nat, txs: seq<Transaction>, tx: Transaction)
    requires n > 0
    ensures var crosses := DefaultAccountLoc(tx.sender, n) != DefaultAccountLoc(tx.recipient, n)
        && tx.sender !in book.nonces && tx.recipient !in book.nonces;
      && multiset(Crossing(book, n, txs, true))[tx] == (if crosses then multiset(txs)[tx] else 0)
      && multiset(Crossing(book, n, txs, false))[tx] == (if crosses then 0 else multiset(txs)[tx])
  {
    if txs != [] {
      CrossingExactly(book, n, txs[..|txs| - 1], tx);
      SnocMultiset(txs);
    }
  }

  // ---------------------------------------------------------------------------------------------
  // Which transactions fall back
  // ---------------------------------------------------------------------------------------------

  /** A broker takes the transaction exactly when it is not under way and one that is tried has, in the
      recipient's shard, the value left beyond what it has promised. */
  lemma {:induction false} TakenExactlyWhen(l: Ledger, n: nat, tx: Transaction, order: seq<Address>)
    requires Shaped(l, n) && OfBrokers(l, order)
    ensures var k := DefaultAccountLoc(tx.recipient, n);
      Tried(l, n, tx, order).1 <==>
        && HashOf(tx) !in l.book.unconfirmed
        && exists b :: b in order && l.balances[b][k] - l.pending[b][k] >= tx.value
    decreases |order|
  {
    if order != [] {
      assert order[0] in order && forall x :: x in order[1..] ==> x in order;
      TriedOneShaped(l, n, tx, order[0]);
      var (after, taken) := TriedOne(l, n, tx, order[0]);
      if !taken {
        TakenExactlyWhen(after, n, tx, order[1..]);
        assert forall b :: b in order ==> b == order[0] || b in order[1..];
      }
    }
  }

  /** What is taken is recorded for the first broker in the order that can afford it, and reserved there
      and nowhere else. */
  lemma {:induction false} TakenByFirst(l: Ledger, n: nat, tx: Transaction, order: seq<Address>) returns (i: nat)
    requires Shaped(l, n) && OfBrokers(l, order) && Tried(l, n, tx, order).1
    ensures var k, after := DefaultAccountLoc(tx.recipient, n), Tried(l, n, tx, order).0;
      && i < |order| && order[i] in l.balances && l.balances[order[i]][k] - l.pending[order[i]][k] >= tx.value
      && (forall j :: 0 <= j < i ==> l.balances[order[j]][k] - l.pending[order[j]][k] < tx.value)
      && HashOf(tx) in after.book.unconfirmed && after.book.unconfirmed[HashOf(tx)].raw.broker == order[i]
      && after.pending == l.pending[order[i] := l.pending[order[i]][k := l.pending[order[i]][k] + tx.value]]
    decreases |order|
  {
    assert order != [] && order[0] in order && forall x :: x in order[1..] ==> x in order;
    TriedOneShaped(l, n, tx, order[0]);
    var (after, taken) := TriedOne(l, n, tx, order[0]);
    if taken {
      i := 0;
    } else {
      TakenExactlyWhen(l, n, tx, order);
      assert after == l;
      i := TakenByFirst(l, n, tx, order[1..]);
      forall j | 0 <= j < i + 1
        ensures l.balances[order[j]][DefaultAccountLoc(tx.recipient,
          n)] - l.pending[order[j]][DefaultAccountLoc(tx.recipient, n)] < tx.value
      {
        assert j > 0 ==> order[j] == order[1..][j - 1];
      }
      i := i + 1;
    }
  }

  /** A batch loses nothing: every transaction is under way through a broker afterwards or has fallen back,
      and there are as many of the two together as transactions. */
  lemma {:induction false} BatchConserves(l: Ledger, n: nat, txs: seq<Transaction>, orders: seq<seq<Address>>)
    requires Shaped(l, n) && |txs| == |orders| && forall i :: 0 <= i < |orders| ==> OfBrokers(l, orders[i])
    ensures var (after, relayed) := InjectedAll(l, n, txs, orders);
      && |after.book.unconfirmed| + |relayed| == |l.book.unconfirmed| + |txs|
      && (forall h :: h in l.book.unconfirmed ==> h in after.book.unconfirmed)
      && (forall tx :: tx in txs ==> HashOf(tx) in after.book.unconfirmed || FallBack(tx) in relayed)
      && (forall f :: f in relayed ==> exists tx :: tx in txs && f == FallBack(tx))
  {
    if txs != [] {
      var front, fronts, last, order := txs[..|txs| - 1], orders[..|orders| - 1], txs[|txs| - 1], orders[|orders| - 1];
      BatchConserves(l, n, front, fronts);
      assert OfBrokers(l, order);
      var (before, relayed) := InjectedAll(l, n, front, fronts);
      TriedGrows(before, n, last, order);
      assert txs == front + [last];
    }
  }

  lemma TriedGrows(l: Ledger, n: nat, tx: Transaction, order: seq<Address>)
    requires Shaped(l, n) && OfBrokers(l, order)
    ensures var (after, taken) := Tried(l, n, tx, order);
      && (forall h :: h in l.book.unconfirmed ==> h in after.book.unconfirmed)
      && |after.book.unconfirmed| == |l.book.unconfirmed| + (if taken then 1 else 0)
      && (taken ==> HashOf(tx) in after.book.unconfirmed)
  {
    TriedBook(l, n, tx, order);
    if Tried(l, n, tx, order).1 {
      var b :| b in l.book.nonces && Creatable(l.book, tx, b)
        && Tried(l, n, tx, order).0.book == Created(l.book, tx, b);
      assert Created(l.book, tx, b).unconfirmed.Keys == l.book.unconfirmed.Keys + {HashOf(tx)};
    }
  }

  // ---------------------------------------------------------------------------------------------
  // Executing the two halves
  // ---------------------------------------------------------------------------------------------

  ghost predicate AllWords(s: System)
  {
    forall k :: 0 <= k < |s.chains| ==> Words(s.chains[k])
  }

  /** The first half takes the value from the sender in its default shard, changes nothing else, and puts
      exactly the second half on its way. */
  lemma FallBackDebits(n: nat, s: System, tx: Transaction, a: Address, k: nat)
    requires Shaped(s.ledger, n) && |s.chains| == n && AllWords(s) && tx.bHash == NoHash && k < n
    requires var t := TxTo(TxLoc(n, FallBack(tx)), FallBack(tx)); Enabled(n, s, Execute(t))
    ensures var t := TxTo(TxLoc(n, FallBack(tx)), FallBack(tx));
      var s' := ApplyExecute(n, s, t);
      && |s'.chains| == n
      && BalanceOf(s'.chains[k], a)
        == BalanceOf(s.chains[k], a) - (if a == tx.sender && k == DefaultAccountLoc(tx.sender, n) then tx.value else 0)
      && s'.flight == s.flight - multiset{t} + multiset{SecondOf(n, FallBack(tx))}
      && s'.reports == s.reports
  {
    var f := FallBack(tx);
    FallBackIsRelay(n, tx);
    FirstRelayBalances(s.chains[TxLoc(n, f)], map[], n, TxLoc(n, f), f, a);
  }

  /** The second half gives it to the recipient in its default shard, and changes nothing else. */
  lemma SecondCredits(n: nat, s: System, tx: Transaction, a: Address, k: nat)
    requires Shaped(s.ledger, n) && |s.chains| == n && AllWords(s) && tx.bHash == NoHash && k < n
    requires Enabled(n, s, Execute(SecondOf(n, FallBack(tx))))
    ensures var t := SecondOf(n, FallBack(tx));
      var s' := ApplyExecute(n, s, t);
      && |s'.chains| == n
      && BalanceOf(s'.chains[k], a)
        == (BalanceOf(s.chains[k], a)
            + (if a == tx.recipient && k == DefaultAccountLoc(tx.recipient, n) then tx.value else 0)) % UINT256
      && s'.flight == s.flight - multiset{t} && s'.reports == s.reports
  {
    var t := SecondOf(n, FallBack(tx));
    FallBackIsRelay(n, tx);
    SecondRelayBalances(s.chains[t.dest], map[], n, t.dest, t.tx, a);
  }

  // ---------------------------------------------------------------------------------------------
  // Over whole runs
  // ---------------------------------------------------------------------------------------------

  function ExecutedTimes(steps: seq<Step>, t: TxTo): nat
  {
    if steps == [] then 0 else
    ExecutedTimes(steps[..|steps| - 1], t) + if steps[|steps| - 1] == Execute(t) then 1 else 0
  }

  function LostTimes(steps: seq<Step>, t: TxTo): nat
  {
    if steps == [] then 0 else
    LostTimes(steps[..|steps| - 1], t) + if steps[|steps| - 1] == Lose(t) then 1 else 0
  }

  /** How often a first half was executed whose second half is `t`. */
  function FirstTimes(n: nat, steps: seq<Step>, t: TxTo): nat
    requires n > 0
  {
    if steps == [] then 0 else
    var last := steps[|steps| - 1];
    FirstTimes(n, steps[..|steps| - 1], t)
    + if PassesOn(n, last, t) then 1 else 0
  }

  /** How often `tx` was injected and no broker took it. */
  ghost function FellBackTimes(n: nat, states: seq<System>, steps: seq<Step>, tx: Transaction): nat
    requires |states| > |steps| && n > 0
  {
    if steps == [] then 0 else
    var s, last := states[|steps| - 1], steps[|steps| - 1];
    FellBackTimes(n, states, steps[..|steps| - 1], tx)
    + if last.InjectCross? && last.tx == tx && Shaped(s.ledger, n) && OfBrokers(s.ledger, last.order)
         && !Tried(s.ledger, n, tx, last.order).1
      then 1 else 0
  }

  /** Every second half comes of an executed first half, once for each: it is on its way, executed or
      lost. */
  lemma {:induction false} SecondsConserved(brokers: set<Address>, n: nat, states: seq<System>, steps: seq<Step>,
      k: nat, t: TxTo)
    requires Run(brokers, n, states, steps) && k <= |steps| && TxType(t.tx) == RelayTx && t.tx.relayStage == RELAY2
    ensures n > 0
    ensures states[k].flight[t] + ExecutedTimes(steps[..k], t) + LostTimes(steps[..k], t)
      == FirstTimes(n, steps[..k], t)
  {
    if k > 0 {
      SecondsConserved(brokers, n, states, steps, k - 1, t);
      RunInv(brokers, n, states, steps, k - 1);
      assert StepAt(n, states, steps, k - 1);
      assert steps[..k][..k - 1] == steps[..k - 1];
      SecondsStep(n, states[k - 1], states[k], steps[k - 1], t);
    }
  }

  lemma SecondsStep(n: nat, s: System, s': System, step: Step, t: TxTo)
    requires Inv(n, s) && Next(n, s, s', step) && TxType(t.tx) == RelayTx && t.tx.relayStage == RELAY2
    ensures s'.flight[t] + (if step == Execute(t) then 1 else 0) + (if step == Lose(t) then 1 else 0)
      == s.flight[t] + if PassesOn(n, step, t) then 1 else 0
  {
    FlightChange(n, s, s', step, t);
    if FallsBack(n, s, step, t) {
      FallBackIsRelay(n, step.tx);
    }
  }

  /** The step executes a first half whose second half is `t`. */
  predicate PassesOn(n: nat, step: Step, t: TxTo)
    requires n > 0
  {
    && step.Execute? && TxType(step.to.tx) == RelayTx && step.to.tx.relayStage == RELAY1
    && SecondOf(n, step.to.tx) == t
  }

  /** The step injects a transaction that no broker takes and whose fallback is `t`. */
  ghost predicate FallsBack(n: nat, s: System, step: Step, t: TxTo)
    requires Shaped(s.ledger, n)
  {
    && step.InjectCross? && OfBrokers(s.ledger, step.order) && !Tried(s.ledger, n, step.tx, step.order).1
    && t == TxTo(TxLoc(n, FallBack(step.tx)), FallBack(step.tx))
  }

  /** How a step changes what is on its way of one relay transaction. */
  lemma FlightChange(n: nat, s: System, s': System, step: Step, t: TxTo)
    requires Inv(n, s) && Next(n, s, s', step) && TxType(t.tx) == RelayTx
    ensures s'.flight[t] + (if step == Execute(t) then 1 else 0) + (if step == Lose(t) then 1 else 0)
      == s.flight[t] + (if PassesOn(n, step, t) then 1 else 0) + (if FallsBack(n, s, step, t) then 1 else 0)
  {
    match step {
      case InjectCross(tx, order) => InjectFlight(n, s, tx, order, t);
      case InjectOrdinary(tx) =>
      case Emit => EmitsHalvesOnly(n, s, t);
      case Execute(to) => ExecuteFlight(n, s, to, t);
      case Lose(to) =>
      case ClearAccounts(k) =>
      case Handle(to) =>
    }
  }

  lemma InjectFlight(n: nat, s: System, tx: Transaction, order: seq<Address>, t: TxTo)
    requires Shaped(s.ledger, n) && OfBrokers(s.ledger, order)
    ensures ApplyInject(n, s, tx, order).flight[t]
      == s.flight[t] + if FallsBack(n, s, InjectCross(tx, order), t) then 1 else 0
  {
    hide Tried, TxLoc, FallBack;
  }

  lemma ExecuteFlight(n: nat, s: System, to: TxTo, t: TxTo)
    requires 0 <= to.dest < n == |s.chains| && ExecTx(s.chains[to.dest], map[], n, to.dest, to.tx).Some?
    requires to in s.flight
    ensures ApplyExecute(n, s, to).flight[t] + (if to == t then 1 else 0)
      == s.flight[t] + if PassesOn(n, Execute(to), t) then 1 else 0
  {
    hide ExecTx;
  }

  /** What is emitted are broker transactions. */
  lemma EmitsHalvesOnly(n: nat, s: System, t: TxTo)
    requires Inv(n, s) && TxType(t.tx) == RelayTx
    ensures ApplyEmit(n, s).flight[t] == s.flight[t]
  {
    EmittedCount(n, s, t);
  }

  /** Every fallback is on its way, executed or lost, as often as no broker took the transaction. */
  lemma {:induction false} FirstsConserved(brokers: set<Address>, n: nat, states: seq<System>, steps: seq<Step>, k: nat,
      tx: Transaction)
    requires Run(brokers, n, states, steps) && k <= |steps| && tx.bHash == NoHash
    ensures n > 0
    ensures var t := TxTo(DefaultAccountLoc(tx.sender, n), FallBack(tx));
      states[k].flight[t] + ExecutedTimes(steps[..k], t) + LostTimes(steps[..k], t)
        == FellBackTimes(n, states, steps[..k], tx)
  {
    if k > 0 {
      FirstsConserved(brokers, n, states, steps, k - 1, tx);
      RunInv(brokers, n, states, steps, k - 1);
      assert StepAt(n, states, steps, k - 1);
      assert steps[..k][..k - 1] == steps[..k - 1];
      FirstsStep(n, states[k - 1], states[k], steps[k - 1], tx);
    }
  }

  lemma FirstsStep(n: nat, s: System, s': System, step: Step, tx: Transaction)
    requires Inv(n, s) && Next(n, s, s', step) && tx.bHash == NoHash
    ensures var t := TxTo(DefaultAccountLoc(tx.sender, n), FallBack(tx));
      s'.flight[t] + (if step == Execute(t) then 1 else 0) + (if step == Lose(t) then 1 else 0)
      == s.flight[t] + if step.InjectCross? && step.tx == tx && !Tried(s.ledger, n, tx, step.order).1 then 1 else 0
  {
    var t := TxTo(DefaultAccountLoc(tx.sender, n), FallBack(tx));
    FallBackIsRelay(n, tx);
    FlightChange(n, s, s', step, t);
    if step.InjectCross? {
      FallBackOfOne(n, step.tx, tx);
    }
  }

  /** A fallback carries the hash of the one transaction it was made of. */
  lemma FallBackOfOne(n: nat, tx: Transaction, tx': Transaction)
    requires n > 0 && tx.bHash == tx'.bHash == NoHash
    ensures FallBack(tx) == FallBack(tx') <==> tx == tx'
    ensures TxLoc(n, FallBack(tx)) == DefaultAccountLoc(tx.sender, n)
  {
    assert FallBack(tx).rHash == HashOf(tx) && FallBack(tx').rHash == HashOf(tx');
  }
}
