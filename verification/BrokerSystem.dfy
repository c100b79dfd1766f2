/** The static broker committee over the shards it drives: injected transactions, halves on their way,
    execution on the shards' accounts, and confirmations on their way back, in any interleaving.
    Transactions may be lost but are not executed twice. */
module BrokerSystem {
  import opened Types
  import opened Sums
  import opened Execution
  import opened Routing
  import opened Brokers
  import opened StaticBrokers
  import opened StaticBrokerCommittees

  /** `flight`: transactions sent to shards and not yet executed. `reports`: executed broker
      transactions whose block the supervisor has not handled yet. */
  datatype System = System(ledger: Ledger, chains: seq<Accounts>, flight: multiset<TxTo>, reports: multiset<TxTo>)

  datatype Step =
    | InjectCross(tx: Transaction, order: seq<Address>)
    | InjectOrdinary(tx: Transaction)
    | Emit
    | Execute(to: TxTo)
    | Lose(to: TxTo)
    | ClearAccounts(shard: nat)
    | Handle(to: TxTo)

  predicate IsBroker(s: System, a: Address)
  {
    a in s.ledger.book.nonces
  }

  ghost predicate Init(brokers: set<Address>, n: nat, s: System)
  {
    && n > 0 && s.ledger == Initial(brokers, n) && |s.chains| == n && s.flight == multiset{} && s.reports == multiset{}
    && forall k, b :: 0 <= k < n && b in brokers ==> BalanceOf(s.chains[k], b) >= BROKER_INIT_BALANCE
  }

  /** Ordinary transactions are not sent by brokers, and no credit overflows a 256-bit balance. */
  ghost predicate Enabled(n: nat, s: System, step: Step)
    requires Shaped(s.ledger, n) && |s.chains| == n
  {
    match step
    case InjectCross(tx, order) => tx.bHash == NoHash && Crosses(s.ledger.book, n, tx) && tx.value >= 0
      && OfBrokers(s.ledger, order)
    case InjectOrdinary(tx) => TxType(tx) == NormalTx && !IsBroker(s, tx.sender)
    case Emit => true
    case Execute(t) =>
      && t in s.flight && 0 <= t.dest < n
      && ExecTx(s.chains[t.dest], map[], n, t.dest, t.tx).Some?
      && forall b :: IsBroker(s, b) ==> BalanceOf(s.chains[t.dest], b) + t.tx.value < UINT256
    case Lose(t) => t in s.flight
    case ClearAccounts(k) => k < n
    case Handle(t) => t in s.reports && 0 <= t.dest < n
  }

  function SentTo(n: nat, txs: seq<Transaction>): seq<TxTo>
    requires n > 0
  {
    if txs == [] then [] else SentTo(n, txs[..|txs| - 1]) + [TxTo(TxLoc(n, txs[|txs| - 1]), txs[|txs| - 1])]
  }

  /** A relay-1 transaction, once executed, goes on as a relay-2 transaction. */
  function Passed(n: nat, tx: Transaction): multiset<TxTo>
    requires n > 0
  {
    if TxType(tx) == RelayTx && tx.relayStage == RELAY1 then multiset{RelayedTx(map[], n, tx)} else multiset{}
  }

  ghost function ApplyInject(n: nat, s: System, tx: Transaction, order: seq<Address>): System
    requires Shaped(s.ledger, n) && OfBrokers(s.ledger, order)
  {
    var (l, found) := Tried(s.ledger, n, tx, order);
    s.(ledger := l,
      flight := if found then s.flight else s.flight + multiset{TxTo(TxLoc(n, FallBack(tx)), FallBack(tx))})
  }

  ghost function ApplyEmit(n: nat, s: System): System
    requires n > 0
  {
    var m := s.ledger.book;
    s.(ledger := s.ledger.(book := Flushed(m)),
       flight := s.flight + multiset(SentTo(n, Halves(m, m.ready1, WaitConfirm1, SIGMA1)))
                 + multiset(SentTo(n, Halves(m, m.ready2, WaitConfirm2, SIGMA2))))
  }

  ghost function ApplyExecute(n: nat, s: System, t: TxTo): System
    requires 0 <= t.dest < n == |s.chains| && ExecTx(s.chains[t.dest], map[], n, t.dest, t.tx).Some?
  {
    s.(chains := s.chains[t.dest := ExecTx(s.chains[t.dest], map[], n, t.dest, t.tx).value],
       flight := s.flight - multiset{t} + Passed(n, t.tx),
       reports := if TxType(t.tx) == BrokerTx then s.reports + multiset{t} else s.reports)
  }

  ghost function ApplyHandle(n: nat, s: System, t: TxTo): System
    requires Shaped(s.ledger, n) && 0 <= t.dest < n
  {
    s.(reports := s.reports - multiset{t},
       ledger := if t.tx.brokerStage == SIGMA1 then Received(s.ledger, n, t.tx, t.dest)
         else Paid(s.ledger, n, t.tx, t.dest))
  }

  ghost function Apply(n: nat, s: System, step: Step): System
    requires Shaped(s.ledger, n) && |s.chains| == n && Enabled(n, s, step)
  {
    match step
    case InjectCross(tx, order) => ApplyInject(n, s, tx, order)
    case InjectOrdinary(tx) => s.(flight := s.flight + multiset{TxTo(TxLoc(n, tx), tx)})
    case Emit => ApplyEmit(n, s)
    case Execute(t) => ApplyExecute(n, s, t)
    case Lose(t) => s.(flight := s.flight - multiset{t})
    case ClearAccounts(k) => s.(chains := s.chains[k := ClearEmpty(s.chains[k])])
    case Handle(t) => ApplyHandle(n, s, t)
  }

  ghost predicate Next(n: nat, s: System, s': System, step: Step)
  {
    Shaped(s.ledger, n) && |s.chains| == n && Enabled(n, s, step) && s' == Apply(n, s, step)
  }

  // ---------------------------------------------------------------------------------------------
  // The invariant
  // ---------------------------------------------------------------------------------------------

  /** The half that the record waits for, with the shard it is sent to. */
  function HalfOf(m: Book, n: nat, h: TxHash): TxTo
    requires n > 0 && h in m.unconfirmed
  {
    var half := m.unconfirmed[h].raw.(brokerStage := StageFor(m.unconfirmed[h].wait));
    TxTo(TxLoc(n, half), half)
  }

  /** A broker transaction under way is the half some record waits for, and there is only one of it. */
  ghost predicate HalvesOk(n: nat, s: System)
    requires n > 0
  {
    && (forall t :: t in s.flight && TxType(t.tx) == BrokerTx ==> HalfOk(s.ledger.book, n, t))
    && (forall t :: t in s.reports ==> TxType(t.tx) == BrokerTx && HalfOk(s.ledger.book, n, t))
    && (forall t: TxTo :: TxType(t.tx) == BrokerTx ==> s.flight[t] + s.reports[t] <= 1)
  }

  ghost predicate HalfOk(m: Book, n: nat, t: TxTo)
    requires n > 0
  {
    t.tx.bHash in m.unconfirmed && t == HalfOf(m, n, t.tx.bHash) && Awaited(m, t.tx.bHash)
  }

  /** Brokers are the ends of no recorded transaction and the senders of no other one. */
  ghost predicate BrokersApart(s: System)
  {
    && (forall h :: h in s.ledger.book.unconfirmed ==>
          h != NoHash && !IsBroker(s, s.ledger.book.unconfirmed[h].raw.sender)
            && !IsBroker(s, s.ledger.book.unconfirmed[h].raw.recipient))
    && (forall t :: t in s.flight && TxType(t.tx) != BrokerTx ==> !IsBroker(s, t.tx.sender))
  }

  /** Value a broker has received on chain, or paid, in shard `k`, that the ledger does not know yet. */
  function GotBy(m: Book, n: nat, reports: multiset<TxTo>, b: Address, k: nat, h: TxHash): int
    requires n > 0
  {
    if h in m.unconfirmed && m.unconfirmed[h].wait == WaitConfirm1 && m.unconfirmed[h].raw.broker == b
       && HalfOf(m, n, h) in reports && HalfOf(m, n, h).dest == k then m.unconfirmed[h].raw.value else 0
  }

  function SpentBy(m: Book, n: nat, reports: multiset<TxTo>, b: Address, k: nat, h: TxHash): int
    requires n > 0
  {
    if h in m.unconfirmed && m.unconfirmed[h].wait == WaitConfirm2 && m.unconfirmed[h].raw.broker == b
       && HalfOf(m, n, h) in reports && HalfOf(m, n, h).dest == k then m.unconfirmed[h].raw.value else 0
  }

  function NetBy(m: Book, n: nat, reports: multiset<TxTo>, b: Address, k: nat, h: TxHash): int
    requires n > 0
  {
    GotBy(m, n, reports, b, k, h) - SpentBy(m, n, reports, b, k, h)
  }

  ghost function Net(m: Book, n: nat, reports: multiset<TxTo>, b: Address, k: nat): int
    requires n > 0
  {
    Sum(m.unconfirmed.Keys, (h: TxHash) => NetBy(m, n, reports, b, k, h))
  }

  /** On chain a broker holds at least what the ledger says, corrected by what is not yet reported. */
  ghost predicate ChainCovers(n: nat, s: System, b: Address, k: nat)
    requires Shaped(s.ledger, n) && b in s.ledger.balances && k < n == |s.chains|
  {
    BalanceOf(s.chains[k], b) >= s.ledger.balances[b][k] + Net(s.ledger.book, n, s.reports, b, k)
  }

  ghost predicate ChainsCover(n: nat, s: System)
    requires Shaped(s.ledger, n) && |s.chains| == n
  {
    forall b, k :: b in s.ledger.balances && 0 <= k < n ==> ChainCovers(n, s, b, k)
  }

  ghost predicate Inv(n: nat, s: System)
  {
    && Solvent(s.ledger, n) && |s.chains| == n && Consistent(s.ledger.book)
    && HalvesOk(n, s) && BrokersApart(s) && ChainsCover(n, s)
  }

  // ---------------------------------------------------------------------------------------------
  // The broker's balance covers every second half
  // ---------------------------------------------------------------------------------------------

  lemma {:induction false} SumAtMost<T(!new)>(s: set<T>, f: T -> int, g: T -> int, x: T, v: int)
    requires x in s && f(x) + v <= g(x) && forall y :: y in s ==> f(y) <= g(y)
    ensures Sum(s, f) + v <= Sum(s, g)
  {
    SumRemove(s, f, x);
    SumRemove(s, g, x);
    SumMonotone(s - {x}, f, g);
  }

  lemma {:induction false} SumMonotone<T(!new)>(s: set<T>, f: T -> int, g: T -> int)
    requires forall y :: y in s ==> f(y) <= g(y)
    ensures Sum(s, f) <= Sum(s, g)
    decreases |s|
  {
    if s != {} {
      var x :| x in s;
      SumRemove(s, f, x);
      SumRemove(s, g, x);
      SumMonotone(s - {x}, f, g);
    }
  }

  /** What is paid and unreported, together with one second half still on its way, is outstanding. */
  lemma UnreportedWithinOutstanding(n: nat, s: System, t: TxTo)
    requires Inv(n, s) && t in s.flight && TxType(t.tx) == BrokerTx && t.tx.brokerStage == SIGMA2
    ensures 0 <= t.dest < n && t.tx.broker in s.ledger.balances
    ensures t.tx.value <= Outstanding(s.ledger.book, n, t.tx.broker, t.dest)
      + Net(s.ledger.book, n, s.reports, t.tx.broker, t.dest)
  {
    var m, b, k, h0 := s.ledger.book, t.tx.broker, t.dest, t.tx.bHash;
    assert HalfOk(m, n, t);
    assert t !in s.reports;
    var less := (h: TxHash) => -NetBy(m, n, s.reports, b, k, h);
    var net := (h: TxHash) => NetBy(m, n, s.reports, b, k, h);
    forall h | h in m.unconfirmed
      ensures less(h) <= ReservedBy(m, n, b, k, h)
    {
    }
    SumAtMost(m.unconfirmed.Keys, less, (h: TxHash) => ReservedBy(m, n, b, k, h), h0, t.tx.value);
    SumPlus(m.unconfirmed.Keys, less, net, (h: TxHash) => 0);
    SumScaled(m.unconfirmed.Keys, (h: TxHash) => 0, 0);
  }

  /** Chain-side safety: whenever a second half is about to be executed, the broker's balance on that
      chain covers it, so the unguarded subtraction does not wrap. */
  lemma SecondHalfCovered(n: nat, s: System, t: TxTo)
    requires Inv(n, s) && t in s.flight && TxType(t.tx) == BrokerTx && t.tx.brokerStage == SIGMA2
    ensures 0 <= t.dest < n && t.tx.value <= BalanceOf(s.chains[t.dest], t.tx.broker)
  {
    UnreportedWithinOutstanding(n, s, t);
    assert Covered(s.ledger, n, t.tx.broker, t.dest);
    assert ChainCovers(n, s, t.tx.broker, t.dest);
  }

  // ---------------------------------------------------------------------------------------------
  // What execution does to a broker's balance
  // ---------------------------------------------------------------------------------------------

  /** Anything but a second half of its own only raises it; a first half raises it by the value. */
  lemma ExecutionRaises(m: Accounts, n: nat, shard: int, tx: Transaction, b: Address)
    requires n > 0 && ExecTx(m, map[], n, shard, tx).Some?
    requires tx.sender != b && BalanceOf(m, b) + tx.value < UINT256
    requires TxType(tx) == BrokerTx && tx.brokerStage == SIGMA2 ==> tx.broker != b
    ensures var m' := ExecTx(m, map[], n, shard, tx).value;
      && BalanceOf(m', b) >= BalanceOf(m, b)
      && ((TxType(tx) == BrokerTx && tx.brokerStage == SIGMA1 && tx.broker == b && LocOf(map[], tx.sender, n) == shard)
          ==> BalanceOf(m', b) == BalanceOf(m, b) + tx.value)
  {
  }

  /** The debit of a second half has no guard. In its own shard it takes exactly the value off the
      broker's balance exactly when the balance covers the value; otherwise it wraps. */
  lemma ExecutionPaysExactlyWhen(m: Accounts, n: nat, shard: int, tx: Transaction)
    requires n > 0 && ExecTx(m, map[], n, shard, tx).Some?
    requires TxType(tx) == BrokerTx && tx.brokerStage == SIGMA2 && tx.recipient != tx.broker
    requires LocOf(map[], tx.recipient, n) == shard && BalanceOf(m, tx.broker) < UINT256
    ensures var m' := ExecTx(m, map[], n, shard, tx).value;
      && (BalanceOf(m', tx.broker) == BalanceOf(m, tx.broker) - tx.value <==> tx.value <= BalanceOf(m, tx.broker))
      && (tx.value > BalanceOf(m, tx.broker) ==>
        BalanceOf(m', tx.broker) == BalanceOf(m, tx.broker) - tx.value + UINT256)
  {
  }

  // ---------------------------------------------------------------------------------------------
  // Injecting and emitting
  // ---------------------------------------------------------------------------------------------

  /** Trying brokers leaves the book alone or adds one record. */
  lemma {:induction false} TriedBook(l: Ledger, n: nat, tx: Transaction, order: seq<Address>)
    requires Shaped(l, n) && OfBrokers(l, order)
    ensures var (l', found) := Tried(l, n, tx, order);
      if found then exists b :: b in l.book.nonces && Creatable(l.book, tx, b) && l'.book == Created(l.book, tx, b)
      else l'.book == l.book
    decreases |order|
  {
    if order != [] {
      assert order[0] in order && forall x :: x in order[1..] ==> x in order;
      TriedOneShaped(l, n, tx, order[0]);
      if !TriedOne(l, n, tx, order[0]).1 {
        TriedBook(TriedOne(l, n, tx, order[0]).0, n, tx, order[1..]);
      }
    }
  }

  lemma CreatingSameNet(m: Book, n: nat, reports: multiset<TxTo>, tx: Transaction, c: Address, b: Address, k: nat)
    requires n > 0 && Creatable(m, tx, c)
    requires forall t :: t in reports ==> t.tx.bHash in m.unconfirmed
    ensures Net(Created(m, tx, c), n, reports, b, k) == Net(m, n, reports, b, k)
  {
    var after, h0 := Created(m, tx, c), HashOf(tx);
    assert HalfOf(after, n, h0).tx.bHash == h0;
    SumRemove(after.unconfirmed.Keys, (h: TxHash) => NetBy(after, n, reports, b, k, h), h0);
    assert after.unconfirmed.Keys - {h0} == m.unconfirmed.Keys;
    SumCongruent(m.unconfirmed.Keys, (h: TxHash) => NetBy(m, n, reports, b, k, h),
      (h: TxHash) => NetBy(after, n, reports, b, k, h));
  }

  lemma CreatingHalfOk(m: Book, n: nat, tx: Transaction, c: Address, t: TxTo)
    requires n > 0 && Creatable(m, tx, c) && HalfOk(m, n, t)
    ensures HalfOk(Created(m, tx, c), n, t)
  {
  }

  lemma InjectKeepsInv(n: nat, s: System, tx: Transaction, order: seq<Address>)
    requires Inv(n, s) && Enabled(n, s, InjectCross(tx, order))
    ensures Inv(n, ApplyInject(n, s, tx, order))
  {
    var s' := ApplyInject(n, s, tx, order);
    TriedBook(s.ledger, n, tx, order);
    TriedShaped(s.ledger, n, tx, order);
    TriedSolvent(s.ledger, n, tx, order);
    if Tried(s.ledger, n, tx, order).1 {
      var c :| c in s.ledger.book.nonces && Creatable(s.ledger.book, tx, c)
        && s'.ledger.book == Created(s.ledger.book, tx, c);
      CreatedKeepsInv(n, s, s', tx, c);
    } else {
      QuietKeepsInv(n, s, s');
    }
  }

  lemma CreatedKeepsInv(n: nat, s: System, s': System, tx: Transaction, c: Address)
    requires Inv(n, s) && Crosses(s.ledger.book, n, tx) && Creatable(s.ledger.book, tx, c)
    requires Solvent(s'.ledger, n) && s'.ledger.balances == s.ledger.balances
    requires s'.ledger.book == Created(s.ledger.book, tx, c)
    requires s'.chains == s.chains && s'.flight == s.flight && s'.reports == s.reports
    ensures Inv(n, s')
  {
    CreatingKeeps(s.ledger.book, tx, c);
    assert s'.ledger.book.nonces.Keys == s.ledger.book.nonces.Keys;
    forall t | HalfOk(s.ledger.book, n, t)
      ensures HalfOk(s'.ledger.book, n, t)
    {
      CreatingHalfOk(s.ledger.book, n, tx, c, t);
    }
    forall b, k | b in s'.ledger.balances && 0 <= k < n
      ensures ChainCovers(n, s', b, k)
    {
      assert ChainCovers(n, s, b, k);
      CreatingSameNet(s.ledger.book, n, s.reports, tx, c, b, k);
    }
  }

  /** Steps that leave the book, the balances and the reports alone, add no broker transaction and lower
      no balance of a broker on chain. */
  lemma QuietKeepsInv(n: nat, s: System, s': System)
    requires Inv(n, s)
    requires Solvent(s'.ledger, n) && s'.ledger.balances == s.ledger.balances && s'.ledger.book == s.ledger.book
    requires s'.reports == s.reports && |s'.chains| == n
    requires forall b, k :: b in s.ledger.balances && 0 <= k < n ==>
      BalanceOf(s'.chains[k], b) >= BalanceOf(s.chains[k], b)
    requires forall t: TxTo :: TxType(t.tx) == BrokerTx ==> s'.flight[t] <= s.flight[t]
    requires forall t :: t in s'.flight && TxType(t.tx) != BrokerTx ==> t in s.flight || !IsBroker(s, t.tx.sender)
    ensures Inv(n, s')
  {
    hide Net, BalanceOf, Outstanding, HalfOk;
    QuietHalves(n, s, s');
    QuietCovers(n, s, s');
  }

  lemma QuietCovers(n: nat, s: System, s': System)
    requires Shaped(s.ledger, n) && |s.chains| == |s'.chains| == n && ChainsCover(n, s)
    requires Shaped(s'.ledger, n) && s'.ledger.balances == s.ledger.balances && s'.ledger.book == s.ledger.book
    requires s'.reports == s.reports
    requires forall b, k :: b in s.ledger.balances && 0 <= k < n ==>
      BalanceOf(s'.chains[k], b) >= BalanceOf(s.chains[k], b)
    ensures ChainsCover(n, s')
  {
    forall b, k | b in s'.ledger.balances && 0 <= k < n
      ensures ChainCovers(n, s', b, k)
    {
      assert ChainCovers(n, s, b, k);
    }
  }

  lemma QuietHalves(n: nat, s: System, s': System)
    requires n > 0 && HalvesOk(n, s) && s'.ledger.book == s.ledger.book && s'.reports == s.reports
    requires forall t: TxTo :: TxType(t.tx) == BrokerTx ==> s'.flight[t] <= s.flight[t]
    ensures HalvesOk(n, s')
  {
    forall t | t in s'.flight && TxType(t.tx) == BrokerTx
      ensures HalfOk(s'.ledger.book, n, t)
    {
      assert t in s.flight;
    }
  }

  lemma OrdinaryKeepsInv(n: nat, s: System, tx: Transaction)
    requires Inv(n, s) && Enabled(n, s, InjectOrdinary(tx))
    ensures Inv(n, Apply(n, s, InjectOrdinary(tx)))
  {
    QuietKeepsInv(n, s, Apply(n, s, InjectOrdinary(tx)));
  }

  lemma LoseKeepsInv(n: nat, s: System, t: TxTo)
    requires Inv(n, s) && Enabled(n, s, Lose(t))
    ensures Inv(n, Apply(n, s, Lose(t)))
  {
    QuietKeepsInv(n, s, Apply(n, s, Lose(t)));
  }

  /** Deleting an emptied account makes a broker's balance the initial one again. */
  lemma ClearKeepsInv(n: nat, s: System, k: nat)
    requires Inv(n, s) && Enabled(n, s, ClearAccounts(k))
    ensures Inv(n, Apply(n, s, ClearAccounts(k)))
  {
    QuietKeepsInv(n, s, Apply(n, s, ClearAccounts(k)));
  }

  // Emitting

  lemma {:induction false} SentHalvesCount(m: Book, n: nat, hs: seq<TxHash>, wait: Wait, t: TxTo)
    requires n > 0 && Distinct(hs) && forall h :: h in hs ==> Recorded(m, h, wait) && m.unconfirmed[h].raw.bHash == h
    ensures multiset(SentTo(n, Halves(m, hs, wait, StageFor(wait))))[t]
      == if t.tx.bHash in hs && t.tx.bHash in m.unconfirmed && t == HalfOf(m, n, t.tx.bHash) then 1 else 0
  {
    if hs != [] {
      var front, last := hs[..|hs| - 1], hs[|hs| - 1];
      assert last in hs && hs == front + [last] && forall h :: h in front ==> h in hs;
      SentHalvesCount(m, n, front, wait, t);
      var half := m.unconfirmed[last].raw.(brokerStage := StageFor(wait));
      SentSnoc(n, Halves(m, front, wait, StageFor(wait)), half);
      assert HalfOf(m, n, last) == TxTo(TxLoc(n, half), half);
      assert last !in front;
      hide TxLoc, TxType, SentTo, Distinct;
      assert t == HalfOf(m, n, last) ==> t.tx.bHash == last;
    }
  }

  lemma SentSnoc(n: nat, txs: seq<Transaction>, tx: Transaction)
    requires n > 0
    ensures multiset(SentTo(n, txs + [tx])) == multiset(SentTo(n, txs)) + multiset{TxTo(TxLoc(n, tx), tx)}
  {
    assert (txs + [tx])[..|txs|] == txs;
  }

  lemma FlushedSameNet(m: Book, n: nat, reports: multiset<TxTo>, b: Address, k: nat)
    requires n > 0
    ensures Net(Flushed(m), n, reports, b, k) == Net(m, n, reports, b, k)
  {
    SumCongruent(m.unconfirmed.Keys, (h: TxHash) => NetBy(m, n, reports, b, k, h),
      (h: TxHash) => NetBy(Flushed(m), n, reports, b, k, h));
  }

  /** Emitting adds one half for each hash on the ready lists. */
  lemma EmittedCount(n: nat, s: System, t: TxTo)
    requires n > 0 && Consistent(s.ledger.book)
    ensures var m := s.ledger.book;
      ApplyEmit(n, s).flight[t] == s.flight[t]
        + if !Awaited(m, t.tx.bHash) && t.tx.bHash in m.unconfirmed && t == HalfOf(m, n, t.tx.bHash) then 1 else 0
  {
    var m := s.ledger.book;
    SentHalvesCount(m, n, m.ready1, WaitConfirm1, t);
    SentHalvesCount(m, n, m.ready2, WaitConfirm2, t);
    NotReady(m, t.tx.bHash);
  }

  lemma EmitHalves(n: nat, s: System, s': System)
    requires n > 0 && HalvesOk(n, s) && Consistent(s.ledger.book)
    requires s'.ledger.book == Flushed(s.ledger.book) && s'.flight == ApplyEmit(n, s).flight && s'.reports == s.reports
    ensures HalvesOk(n, s')
  {
    var m := s.ledger.book;
    forall t | t in s'.flight && TxType(t.tx) == BrokerTx
      ensures HalfOk(s'.ledger.book, n, t)
    {
      EmittedCount(n, s, t);
      if t in s.flight {
        assert HalfOk(m, n, t);
      }
    }
    forall t | t in s'.reports
      ensures HalfOk(s'.ledger.book, n, t)
    {
      assert HalfOk(m, n, t);
    }
    forall t: TxTo | TxType(t.tx) == BrokerTx
      ensures s'.flight[t] + s'.reports[t] <= 1
    {
      EmittedCount(n, s, t);
      if !Awaited(m, t.tx.bHash) {
        assert !HalfOk(m, n, t);
      }
    }
  }

  lemma EmitKeepsInv(n: nat, s: System)
    requires Inv(n, s)
    ensures Inv(n, ApplyEmit(n, s))
  {
    var s' := ApplyEmit(n, s);
    EmittingKeeps(s.ledger.book);
    FlushSolvent(s.ledger, n);
    EmitHalves(n, s, s');
    EmitApart(n, s);
    forall b, k | b in s'.ledger.balances && 0 <= k < n
      ensures ChainCovers(n, s', b, k)
    {
      assert ChainCovers(n, s, b, k);
      FlushedSameNet(s.ledger.book, n, s.reports, b, k);
    }
  }

  /** All that is emitted are broker transactions. */
  lemma EmitApart(n: nat, s: System)
    requires n > 0 && Consistent(s.ledger.book) && BrokersApart(s)
    ensures BrokersApart(ApplyEmit(n, s))
  {
    hide Consistent;
    var m := s.ledger.book;
    forall t | t in ApplyEmit(n, s).flight && TxType(t.tx) != BrokerTx
      ensures t in s.flight
    {
      EmittedCount(n, s, t);
    }
  }

  // ---------------------------------------------------------------------------------------------
  // Executing
  // ---------------------------------------------------------------------------------------------

  lemma ExecuteKeepsInv(n: nat, s: System, t: TxTo)
    requires Inv(n, s) && Enabled(n, s, Execute(t))
    ensures Inv(n, ApplyExecute(n, s, t))
  {
    if TxType(t.tx) == BrokerTx {
      ExecuteHalf(n, s, t);
    } else {
      ExecuteOther(n, s, t);
    }
  }

  lemma ExecuteOther(n: nat, s: System, t: TxTo)
    requires Inv(n, s) && Enabled(n, s, Execute(t)) && TxType(t.tx) != BrokerTx
    ensures Inv(n, ApplyExecute(n, s, t))
  {
    hide ExecTx, BalanceOf, Net, Outstanding;
    OtherRaises(n, s, t);
    QuietKeepsInv(n, s, ApplyExecute(n, s, t));
  }

  lemma OtherRaises(n: nat, s: System, t: TxTo)
    requires Shaped(s.ledger, n) && |s.chains| == n && BrokersApart(s) && Enabled(n, s, Execute(t))
    requires TxType(t.tx) != BrokerTx
    ensures forall b, k :: b in s.ledger.balances && 0 <= k < n ==>
      BalanceOf(ApplyExecute(n, s, t).chains[k], b) >= BalanceOf(s.chains[k], b)
  {
    assert !IsBroker(s, t.tx.sender);
    forall b, k | b in s.ledger.balances && 0 <= k < n
      ensures BalanceOf(ApplyExecute(n, s, t).chains[k], b) >= BalanceOf(s.chains[k], b)
    {
      assert IsBroker(s, b);
      ExecutionRaises(s.chains[t.dest], n, t.dest, t.tx, b);
    }
  }

  lemma ExecuteHalf(n: nat, s: System, t: TxTo)
    requires Inv(n, s) && Enabled(n, s, Execute(t)) && TxType(t.tx) == BrokerTx
    ensures Inv(n, ApplyExecute(n, s, t))
  {
    var s' := ApplyExecute(n, s, t);
    hide ExecTx, Net, BalanceOf;
    ReportedHalves(n, s, s', t);
    ReportedCovers(n, s, s', t);
  }

  lemma ReportedCovers(n: nat, s: System, s': System, t: TxTo)
    requires Inv(n, s) && Enabled(n, s, Execute(t)) && TxType(t.tx) == BrokerTx
    requires s'.ledger == s.ledger && s'.reports == s.reports + multiset{t}
    requires s'.chains == s.chains[t.dest := ExecTx(s.chains[t.dest], map[], n, t.dest, t.tx).value]
    ensures ChainsCover(n, s')
  {
    assert HalfOk(s.ledger.book, n, t);
    forall b, k | b in s'.ledger.balances && 0 <= k < n
      ensures ChainCovers(n, s', b, k)
    {
      assert ChainCovers(n, s, b, k);
      ReportedNet(s.ledger.book, n, s.reports, t, b, k);
      ExecutedBalance(n, s, t, b);
    }
  }

  lemma ReportedHalves(n: nat, s: System, s': System, t: TxTo)
    requires n > 0 && HalvesOk(n, s) && t in s.flight && TxType(t.tx) == BrokerTx
    requires s'.ledger == s.ledger && s'.flight == s.flight - multiset{t} && s'.reports == s.reports + multiset{t}
    ensures HalvesOk(n, s')
  {
    forall u: TxTo | TxType(u.tx) == BrokerTx
      ensures s'.flight[u] + s'.reports[u] <= 1
    {
      assert s.flight[u] + s.reports[u] <= 1;
    }
  }

  /** Once executed, a first half counts for the broker in its shard, a second half against it. */
  lemma ReportedNet(m: Book, n: nat, reports: multiset<TxTo>, t: TxTo, b: Address, k: nat)
    requires n > 0 && HalfOk(m, n, t) && t !in reports
    requires m.unconfirmed[t.tx.bHash].raw.bHash == t.tx.bHash
    requires forall h :: h in m.unconfirmed ==> m.unconfirmed[h].raw.bHash == h
    ensures Net(m, n, reports + multiset{t}, b, k) == Net(m, n, reports, b, k)
      + if b != t.tx.broker || k != t.dest then 0 else if t.tx.brokerStage == SIGMA1 then t.tx.value else -t.tx.value
  {
    var after := reports + multiset{t};
    forall h | h in m.unconfirmed && h != t.tx.bHash
      ensures NetBy(m, n, after, b, k, h) == NetBy(m, n, reports, b, k, h)
    {
      assert HalfOf(m, n, h).tx.bHash == h;
    }
    SumUpdate(m.unconfirmed.Keys, (h: TxHash) => NetBy(m, n, reports, b, k, h),
      (h: TxHash) => NetBy(m, n, after, b, k, h), t.tx.bHash);
  }

  lemma ExecutedBalance(n: nat, s: System, t: TxTo, b: Address)
    requires Inv(n, s) && Enabled(n, s, Execute(t)) && TxType(t.tx) == BrokerTx && b in s.ledger.balances
    ensures BalanceOf(ExecTx(s.chains[t.dest], map[], n, t.dest, t.tx).value, b) >= BalanceOf(s.chains[t.dest], b)
      + if b != t.tx.broker then 0 else if t.tx.brokerStage == SIGMA1 then t.tx.value else -t.tx.value
  {
    assert HalfOk(s.ledger.book, n, t);
    assert IsBroker(s, b) && t.tx.sender != b;
    if t.tx.brokerStage == SIGMA2 && t.tx.broker == b {
      SecondHalfCovered(n, s, t);
      ExecutionPaysExactlyWhen(s.chains[t.dest], n, t.dest, t.tx);
    } else {
      ExecutionRaises(s.chains[t.dest], n, t.dest, t.tx, b);
    }
  }

  // ---------------------------------------------------------------------------------------------
  // Handling reports
  // ---------------------------------------------------------------------------------------------

  lemma HandleKeepsInv(n: nat, s: System, t: TxTo)
    requires Inv(n, s) && Enabled(n, s, Handle(t))
    ensures Inv(n, ApplyHandle(n, s, t))
  {
    var s' := ApplyHandle(n, s, t);
    hide Net, Outstanding, BalanceOf, Distinct, HalfOk;
    ReportEchoes(s.ledger.book, n, s, t);
    HandledBook(n, s, t);
    HandledHalves(n, s, s', t);
    HandledCovers(n, s, s', t);
    HandledSolvent(n, s, t);
  }

  lemma HandledBook(n: nat, s: System, t: TxTo)
    requires Shaped(s.ledger, n) && 0 <= t.dest < n && Consistent(s.ledger.book) && Confirms(s.ledger.book, t.tx)
    requires Awaited(s.ledger.book, t.tx.bHash)
    requires BrokersApart(s)
    ensures ApplyHandle(n, s, t).ledger.book == Confirmed(s.ledger.book, t.tx)
    ensures Consistent(Confirmed(s.ledger.book, t.tx))
    ensures BrokersApart(ApplyHandle(n, s, t))
  {
    ConfirmingKeepsExactlyWhen(s.ledger.book, t.tx);
  }

  /** A report repeats the half the record waits for. */
  lemma ReportEchoes(m: Book, n: nat, s: System, t: TxTo)
    requires m == s.ledger.book && n > 0 && HalvesOk(n, s) && Consistent(m) && t in s.reports && 0 <= t.dest < n
    ensures Confirms(m, t.tx) && Echoes(m, n, t.tx, t.dest) && Awaited(m, t.tx.bHash)
    ensures t.tx.brokerStage == SIGMA1 || t.tx.brokerStage == SIGMA2
  {
    assert HalfOk(m, n, t);
  }

  lemma HandledSolvent(n: nat, s: System, t: TxTo)
    requires Inv(n, s) && t in s.reports && 0 <= t.dest < n
    ensures Solvent(ApplyHandle(n, s, t).ledger, n)
  {
    ReportEchoes(s.ledger.book, n, s, t);
    if t.tx.brokerStage == SIGMA1 {
      ReceivedSolvent(s.ledger, n, t.tx, t.dest);
    } else {
      PaidSolvent(s.ledger, n, t.tx, t.dest);
    }
  }

  lemma HandledHalves(n: nat, s: System, s': System, t: TxTo)
    requires n > 0 && HalvesOk(n, s) && Consistent(s.ledger.book) && t in s.reports && Confirms(s.ledger.book, t.tx)
    requires s'.ledger.book == Confirmed(s.ledger.book, t.tx) && s'.flight == s.flight
    requires s'.reports == s.reports - multiset{t}
    ensures HalvesOk(n, s')
  {
    var m, m' := s.ledger.book, s'.ledger.book;
    assert HalfOk(m, n, t);
    assert s.flight[t] + s.reports[t] <= 1;
    forall u | (u in s'.flight && TxType(u.tx) == BrokerTx) || u in s'.reports
      ensures TxType(u.tx) == BrokerTx && HalfOk(m', n, u)
    {
      assert HalfOk(m, n, u);
      assert u != t;
      assert u.tx.bHash != t.tx.bHash;
    }
  }

  lemma HandledCovers(n: nat, s: System, s': System, t: TxTo)
    requires Inv(n, s) && t in s.reports && 0 <= t.dest < n && s' == ApplyHandle(n, s, t)
    ensures Shaped(s'.ledger, n) && ChainsCover(n, s')
  {
    assert HalfOk(s.ledger.book, n, t);
    StaysShaped(s.ledger, n, t.tx, t.dest);
    forall b, k | b in s'.ledger.balances && 0 <= k < n
      ensures ChainCovers(n, s', b, k)
    {
      assert ChainCovers(n, s, b, k);
      HandledNet(s.ledger.book, n, s.reports, t, b, k);
    }
  }

  lemma HandledNet(m: Book, n: nat, reports: multiset<TxTo>, t: TxTo, b: Address, k: nat)
    requires n > 0 && Consistent(m) && HalfOk(m, n, t) && t in reports && reports[t] == 1 && Confirms(m, t.tx)
    requires forall u :: u in reports ==> HalfOk(m, n, u)
    ensures Net(Confirmed(m, t.tx), n, reports - multiset{t}, b, k) == Net(m, n, reports, b, k)
      - if b != t.tx.broker || k != t.dest then 0 else if t.tx.brokerStage == SIGMA1 then t.tx.value else -t.tx.value
  {
    var m', after, h0 := Confirmed(m, t.tx), reports - multiset{t}, t.tx.bHash;
    var net, net' := (h: TxHash) => NetBy(m, n, reports, b, k, h), (h: TxHash) => NetBy(m', n, after, b, k, h);
    forall h | h in m.unconfirmed && h != h0
      ensures net'(h) == net(h)
    {
      assert HalfOf(m, n, h).tx.bHash == h && HalfOf(m', n, h) == HalfOf(m, n, h);
    }
    SumRemove(m.unconfirmed.Keys, net, h0);
    SumCongruent(m.unconfirmed.Keys - {h0}, net, net');
    if m.unconfirmed[h0].wait == WaitConfirm1 {
      assert HalfOf(m', n, h0) != t && HalfOf(m', n, h0).tx.bHash == h0;
      SumRemove(m'.unconfirmed.Keys, net', h0);
      assert m'.unconfirmed.Keys == m.unconfirmed.Keys;
    } else {
      assert m'.unconfirmed.Keys == m.unconfirmed.Keys - {h0};
    }
  }

  // ---------------------------------------------------------------------------------------------
  // Over every run
  // ---------------------------------------------------------------------------------------------

  ghost predicate Run(brokers: set<Address>, n: nat, states: seq<System>, steps: seq<Step>)
  {
    && |states| == |steps| + 1 && Init(brokers, n, states[0])
    && forall k :: 0 <= k < |steps| ==> StepAt(n, states, steps, k)
  }

  ghost predicate StepAt(n: nat, states: seq<System>, steps: seq<Step>, k: nat)
    requires |states| == |steps| + 1 && k < |steps|
  {
    Next(n, states[k], states[k + 1], steps[k])
  }

  lemma InitInv(brokers: set<Address>, n: nat, s: System)
    requires Init(brokers, n, s)
    ensures Inv(n, s)
  {
    InitialSolvent(brokers, n);
  }

  lemma StepKeepsInv(n: nat, s: System, s': System, step: Step)
    requires Inv(n, s) && Next(n, s, s', step)
    ensures Inv(n, s')
  {
    match step {
      case InjectCross(tx, order) => InjectKeepsInv(n, s, tx, order);
      case InjectOrdinary(tx) => OrdinaryKeepsInv(n, s, tx);
      case Emit => EmitKeepsInv(n, s);
      case Execute(t) => ExecuteKeepsInv(n, s, t);
      case Lose(t) => LoseKeepsInv(n, s, t);
      case ClearAccounts(k) => ClearKeepsInv(n, s, k);
      case Handle(t) => HandleKeepsInv(n, s, t);
    }
  }

  lemma {:induction false} RunInv(brokers: set<Address>, n: nat, states: seq<System>, steps: seq<Step>, k: nat)
    requires Run(brokers, n, states, steps) && k < |states|
    ensures Inv(n, states[k])
  {
    if k == 0 {
      InitInv(brokers, n, states[0]);
    } else {
      RunInv(brokers, n, states, steps, k - 1);
      assert StepAt(n, states, steps, k - 1);
      StepKeepsInv(n, states[k - 1], states[k], steps[k - 1]);
    }
  }

  /** In every run without ordinary transactions of brokers, the debit of every second half that is
      executed is covered by the broker's balance on that chain, for any interleaving of execution and
      confirmation: the balance goes down by exactly the value and does not wrap. */
  lemma DebitNeverWraps(brokers: set<Address>, n: nat, states: seq<System>, steps: seq<Step>, k: nat, t: TxTo)
    requires Run(brokers, n, states, steps) && k < |steps| && steps[k] == Execute(t)
    requires TxType(t.tx) == BrokerTx && t.tx.brokerStage == SIGMA2
    ensures var s, s' := states[k], states[k + 1];
      && 0 <= t.dest < |s.chains| == |s'.chains|
      && t.tx.value <= BalanceOf(s.chains[t.dest], t.tx.broker)
      && BalanceOf(s'.chains[t.dest], t.tx.broker) == BalanceOf(s.chains[t.dest], t.tx.broker) - t.tx.value
  {
    RunInv(brokers, n, states, steps, k);
    assert StepAt(n, states, steps, k);
    ExecutedPays(n, states[k], t);
  }

  lemma ExecutedPays(n: nat, s: System, t: TxTo)
    requires Inv(n, s) && Enabled(n, s, Execute(t)) && TxType(t.tx) == BrokerTx && t.tx.brokerStage == SIGMA2
    ensures t.tx.value <= BalanceOf(s.chains[t.dest], t.tx.broker)
    ensures BalanceOf(ExecTx(s.chains[t.dest], map[], n, t.dest, t.tx).value, t.tx.broker)
      == BalanceOf(s.chains[t.dest], t.tx.broker) - t.tx.value
  {
    assert HalfOk(s.ledger.book, n, t);
    SecondHalfCovered(n, s, t);
    assert IsBroker(s, t.tx.broker) && !IsBroker(s, t.tx.recipient);
    ExecutionPaysExactlyWhen(s.chains[t.dest], n, t.dest, t.tx);
  }
}
