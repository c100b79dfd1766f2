/** The static broker committee itself (supervisor/committee/staticbroker.go). */
module StaticBrokerCommittees {
  import opened Types
  import opened TxBlockOps
  import opened Brokers
  import opened StaticBrokers
  import opened Committees

  // ---------------------------------------------------------------------------------------------
  // Handling a block
  // ---------------------------------------------------------------------------------------------

  function ReceivedAll(l: Ledger, n: nat, txs: seq<Transaction>, shard: nat): (r: Ledger)
    requires Shaped(l, n) && shard < n
    ensures Shaped(r, n)
  {
    if txs == [] then l else
    StaysShaped(ReceivedAll(l, n, txs[..|txs| - 1], shard), n, txs[|txs| - 1], shard);
    Received(ReceivedAll(l, n, txs[..|txs| - 1], shard), n, txs[|txs| - 1], shard)
  }

  function PaidAll(l: Ledger, n: nat, txs: seq<Transaction>, shard: nat): (r: Ledger)
    requires Shaped(l, n) && shard < n
    ensures Shaped(r, n)
  {
    if txs == [] then l else
    StaysShaped(PaidAll(l, n, txs[..|txs| - 1], shard), n, txs[|txs| - 1], shard);
    Paid(PaidAll(l, n, txs[..|txs| - 1], shard), n, txs[|txs| - 1], shard)
  }

  function BlockTxCount(info: BrokerBlockInfo): nat
  {
    |info.inner| + |info.broker1| + |info.broker2| + |info.relay1| + |info.relay2|
  }

  // ---------------------------------------------------------------------------------------------
  // Injecting
  // ---------------------------------------------------------------------------------------------

  predicate Crosses(book: Book, n: nat, tx: Transaction)
    requires n > 0
  {
    && DefaultAccountLoc(tx.sender, n) != DefaultAccountLoc(tx.recipient, n)
    && tx.sender !in book.nonces && tx.recipient !in book.nonces
  }

  function Crossing(book: Book, n: nat, txs: seq<Transaction>, crossing: bool): seq<Transaction>
    requires n > 0
  {
    if txs == [] then [] else
    var front, last := Crossing(book, n, txs[..|txs| - 1], crossing), txs[|txs| - 1];
    if Crosses(book, n, last) == crossing then front + [last] else front
  }

  /** The ledger after trying every transaction with its own order of the brokers, and those that fell
      back to relaying. */
  function InjectedAll(l: Ledger, n: nat, txs: seq<Transaction>,
      orders: seq<seq<Address>>): (r: (Ledger, seq<Transaction>))
    requires Shaped(l, n) && |txs| == |orders| && forall i :: 0 <= i < |orders| ==> OfBrokers(l, orders[i])
    ensures Shaped(r.0, n) && r.0.balances == l.balances
  {
    if txs == [] then (l, []) else
    var (before, relayed) := InjectedAll(l, n, txs[..|txs| - 1], orders[..|orders| - 1]);
    var tx, order := txs[|txs| - 1], orders[|orders| - 1];
    assert OfBrokers(l, orders[|orders| - 1]);
    TriedShaped(before, n, tx, order);
    var (after, found) := Tried(before, n, tx, order);
    (after, if found then relayed else relayed + [FallBack(tx)])
  }

  ghost predicate OfBrokers(l: Ledger, order: seq<Address>)
  {
    forall b :: b in order ==> b in l.balances
  }

  /** The shard a transaction of this committee is sent to. */
  function TxLoc(n: nat, tx: Transaction): int
    requires n > 0
  {
    if TxType(tx) == NormalTx || (TxType(tx) == RelayTx && tx.relayStage == RELAY1) then DefaultAccountLoc(tx.sender, n)
    else if TxType(tx) == RelayTx && tx.relayStage == RELAY2 then DefaultAccountLoc(tx.recipient, n)
    else if tx.brokerStage == SIGMA1 then DefaultAccountLoc(tx.sender, n)
    else DefaultAccountLoc(tx.recipient, n)
  }

  function TxLocs(n: nat, txs: seq<Transaction>): (locs: seq<int>)
    requires n > 0
    ensures |locs| == |txs|
  {
    if txs == [] then [] else TxLocs(n, txs[..|txs| - 1]) + [TxLoc(n, txs[|txs| - 1])]
  }

  /** Any permutation. */
  method Shuffle(s: seq<Address>) returns (shuffled: seq<Address>)
    ensures multiset(shuffled) == multiset(s)
  {
    shuffled := [];
    var rest := s;
    while rest != []
      invariant multiset(shuffled) + multiset(rest) == multiset(s)
      decreases |rest|
    {
      var i: nat :| i < |rest|;
      assert rest == rest[..i] + [rest[i]] + rest[i + 1..];
      shuffled := shuffled + [rest[i]];
      rest := rest[..i] + rest[i + 1..];
    }
  }

  class StaticBrokerCommittee {
    const bManager: Manager
    const brokers: seq<Address>
    const shardNum: nat
    var brokerBalances: map<Address, seq<int>>
    var pendingDeductions: map<Address, seq<int>>
    var unsentTxNum: int
    var stopCnt: nat

    ghost predicate Valid()
      reads this, bManager
    {
      Shaped(Value(), shardNum) && forall b :: b in brokers <==> b in brokerBalances
    }

    ghost function Value(): Ledger
      reads this, bManager
    {
      Ledger(bManager.Value(), brokerBalances, pendingDeductions)
    }

    constructor (brokers: seq<Address>, shardNum: nat, txNumber: int)
      requires shardNum > 0
      ensures Valid() && Value() == Initial((set b | b in brokers), shardNum)
      ensures unsentTxNum == txNumber && stopCnt == 0
    {
      bManager := new Manager((set b | b in brokers));
      this.brokers := brokers;
      this.shardNum := shardNum;
      var balance, none := seq(shardNum, _ => BROKER_INIT_BALANCE), seq(shardNum, _ => 0);
      brokerBalances := map b | b in brokers :: balance;
      pendingDeductions := map b | b in brokers :: none;
      unsentTxNum := txNumber;
      stopCnt := 0;
      new;
      SameInitial(Value(), (set b | b in brokers), shardNum);
    }

    /** Confirms the broker transactions of a block: the first halves, then the second. */
    method HandleMsg(bInfo: BrokerBlockInfo)
      requires Valid() && 0 <= bInfo.shard < shardNum
      modifies this, bManager
      ensures Valid() && unsentTxNum == old(unsentTxNum)
      ensures Value()
        == PaidAll(ReceivedAll(old(Value()), shardNum, bInfo.broker1, bInfo.shard), shardNum, bInfo.broker2,
          bInfo.shard)
      ensures stopCnt == StopCount(old(stopCnt), unsentTxNum,
        |bInfo.inner| + |bInfo.broker1| + |bInfo.broker2| + |bInfo.relay1| + |bInfo.relay2|)
    {
      if unsentTxNum <= 0 && BlockTxCount(bInfo) == 0 {
        stopCnt := stopCnt + 1;
      } else if unsentTxNum <= 0 {
        stopCnt := 0;
      }
      ConfirmFirst(bInfo.broker1, bInfo.shard);
      ConfirmSecond(bInfo.broker2, bInfo.shard);
    }

    method ConfirmOneFirst(tx: Transaction, shard: nat)
      requires Valid() && shard < shardNum
      modifies `brokerBalances, bManager
      ensures Valid() && Value() == Received(old(Value()), shardNum, tx, shard)
    {
      hide Confirmed, Adjust, Cleared;
      StaysShaped(Value(), shardNum, tx, shard);
      var ok := bManager.ConfirmBrokerTx(tx);
      if ok {
        brokerBalances := Adjust(brokerBalances, tx.broker, shard, tx.value);
      }
    }

    method ConfirmOneSecond(tx: Transaction, shard: nat)
      requires Valid() && shard < shardNum
      modifies `brokerBalances, `pendingDeductions, bManager
      ensures Valid() && Value() == Paid(old(Value()), shardNum, tx, shard)
    {
      hide Confirmed, Adjust, Cleared;
      StaysShaped(Value(), shardNum, tx, shard);
      var ok := bManager.ConfirmBrokerTx(tx);
      if ok {
        brokerBalances := Adjust(brokerBalances, tx.broker, shard, -tx.value);
        ClearPending(tx.broker, shard, tx.value);
      }
    }

    method ClearPending(b: Address, shard: nat, value: int)
      requires b in pendingDeductions && shard < |pendingDeductions[b]|
      modifies `pendingDeductions
      ensures pendingDeductions == Cleared(old(pendingDeductions), b, shard, value)
    {
      var rest := pendingDeductions[b][shard] - value;
      if rest < 0 {
        rest := 0;
      }
      pendingDeductions := pendingDeductions[b := pendingDeductions[b][shard := rest]];
    }

    method ConfirmFirst(txs: seq<Transaction>, shard: nat)
      requires Valid() && shard < shardNum
      modifies `brokerBalances, bManager
      ensures Valid() && Value() == ReceivedAll(old(Value()), shardNum, txs, shard)
    {
      for i := 0 to |txs|
        invariant Valid() && Value() == ReceivedAll(old(Value()), shardNum, txs[..i], shard)
      {
        assert txs[..i + 1][..i] == txs[..i];
        ConfirmOneFirst(txs[i], shard);
      }
      assert txs[..|txs|] == txs;
    }

    method ConfirmSecond(txs: seq<Transaction>, shard: nat)
      requires Valid() && shard < shardNum
      modifies `brokerBalances, `pendingDeductions, bManager
      ensures Valid() && Value() == PaidAll(old(Value()), shardNum, txs, shard)
    {
      for i := 0 to |txs|
        invariant Valid() && Value() == PaidAll(old(Value()), shardNum, txs[..i], shard)
      {
        assert txs[..i + 1][..i] == txs[..i];
        ConfirmOneSecond(txs[i], shard);
      }
      assert txs[..|txs|] == txs;
    }

    method ShouldStop() returns (stop: bool)
      ensures stop == (stopCnt >= shardNum * STOP_THRESHOLD_PER_SHARD && Finished(bManager.Value()))
    {
      var finished := bManager.IsFinished();
      stop := stopCnt >= shardNum * STOP_THRESHOLD_PER_SHARD && finished;
    }

    method ClassifyTxs(txs: seq<Transaction>) returns (innerTxs: seq<Transaction>, crossTxs: seq<Transaction>)
      requires Valid()
      ensures innerTxs == Crossing(bManager.Value(), shardNum, txs, false)
      ensures crossTxs == Crossing(bManager.Value(), shardNum, txs, true)
    {
      innerTxs, crossTxs := [], [];
      for i := 0 to |txs|
        invariant innerTxs == Crossing(bManager.Value(), shardNum, txs[..i], false)
        invariant crossTxs == Crossing(bManager.Value(), shardNum, txs[..i], true)
      {
        assert txs[..i + 1][..i] == txs[..i];
        var tx := txs[i];
        var senderShard, receiverShard := DefaultAccountLoc(tx.sender, shardNum),
          DefaultAccountLoc(tx.recipient, shardNum);
        if senderShard == receiverShard || bManager.IsBroker(tx.sender) || bManager.IsBroker(tx.recipient) {
          innerTxs := innerTxs + [tx];
        } else {
          crossTxs := crossTxs + [tx];
        }
      }
      assert txs[..|txs|] == txs;
    }

    /** Looks for a broker for one transaction. */
    method FindBroker(tx: Transaction, order: seq<Address>) returns (found: bool)
      requires Valid() && OfBrokers(Value(), order)
      modifies `pendingDeductions, bManager
      ensures Valid() && (Value(), found) == Tried(old(Value()), shardNum, tx, order)
    {
      assert order[0..] == order;
      for i := 0 to |order|
        invariant Valid() && brokerBalances == old(brokerBalances) && OfBrokers(Value(), order[i..])
        invariant Tried(Value(), shardNum, tx, order[i..]) == Tried(old(Value()), shardNum, tx, order)
      {
        assert order[i..][0] == order[i] && order[i] in order[i..] && order[i..][1..] == order[i + 1..];
        assert forall b :: b in order[i + 1..] ==> b in order[i..];
        var taken := TryBroker(tx, order[i]);
        if taken {
          return true;
        }
      }
      return false;
    }

    method TryBroker(tx: Transaction, bAddr: Address) returns (taken: bool)
      requires Valid() && bAddr in brokerBalances
      modifies `pendingDeductions, bManager
      ensures Valid() && (Value(), taken) == TriedOne(old(Value()), shardNum, tx, bAddr)
    {
      TriedOneShaped(Value(), shardNum, tx, bAddr);
      var k := DefaultAccountLoc(tx.recipient, shardNum);
      var available := brokerBalances[bAddr][k] - pendingDeductions[bAddr][k];
      if available < tx.value {
        return false;
      }
      pendingDeductions := Adjust(pendingDeductions, bAddr, k, tx.value);
      var raw := bManager.CreateRawTx(tx, bAddr);
      return raw.Some?;
    }

    /** Finds brokers for the cross-shard transactions, in any orders of the brokers, and sends
        everything that is ready: ordinary and relayed transactions, first and second halves. */
    method ReadTxsAndSend(txs: seq<Transaction>)
      returns (shardTxs: seq<seq<Transaction>>, ghost orders: seq<seq<Address>>)
      requires Valid()
      modifies this, bManager
      ensures Valid() && unsentTxNum == old(unsentTxNum) - |txs| && stopCnt == old(stopCnt)
      ensures var l, n := old(Value()), shardNum;
        var cross := Crossing(l.book, n, txs, true);
        && |orders| == |cross|
          && (forall i :: 0 <= i < |orders| ==> multiset(orders[i]) == multiset(brokers) && OfBrokers(l, orders[i]))
        && var (after, relayed) := InjectedAll(l, n, cross, orders);
        && Value() == after.(book := Flushed(after.book))
        && var sent := Crossing(l.book, n, txs, false) + relayed
             + Halves(after.book, after.book.ready1, WaitConfirm1, SIGMA1)
               + Halves(after.book, after.book.ready2, WaitConfirm2, SIGMA2);
        Sorted(shardTxs, Directed(sent, TxLocs(n, sent), n), n)
    {
      var innerTxs, crossTxs := ClassifyTxs(txs);
      var relayTxs;
      relayTxs, orders := InjectCross(crossTxs);
      var b1Txs, b2Txs := bManager.CreateBrokerTxs();
      var sendTxs := innerTxs + relayTxs + b1Txs + b2Txs;
      var locs := LocateAll(sendTxs);
      shardTxs := PackShardTxs(sendTxs, locs, shardNum);
      unsentTxNum := unsentTxNum - |txs|;
    }

    method InjectCross(crossTxs: seq<Transaction>) returns (relayTxs: seq<Transaction>, ghost orders: seq<seq<Address>>)
      requires Valid()
      modifies `pendingDeductions, bManager
      ensures Valid() && |orders| == |crossTxs|
      ensures forall i :: 0 <= i < |orders| ==>
        multiset(orders[i]) == multiset(brokers) && OfBrokers(old(Value()), orders[i])
      ensures (Value(), relayTxs) == InjectedAll(old(Value()), shardNum, crossTxs, orders)
    {
      relayTxs, orders := [], [];
      assert (Value(), relayTxs) == InjectedAll(Value(), shardNum, [], []);
      hide InjectedAll, Tried;
      for i := 0 to |crossTxs|
        invariant Valid() && |orders| == i && brokerBalances == old(brokerBalances)
        invariant forall j :: 0 <= j < i ==>
          multiset(orders[j]) == multiset(brokers) && OfBrokers(old(Value()), orders[j])
        invariant (Value(), relayTxs) == InjectedAll(old(Value()), shardNum, crossTxs[..i], orders)
      {
        assert crossTxs[..i + 1] == crossTxs[..i] + [crossTxs[i]];
        var tx := crossTxs[i];
        var shuffledBrokers := Shuffle(brokers);
        SameMembers(shuffledBrokers, brokers);
        assert OfBrokers(old(Value()), shuffledBrokers);
        InjectedMore(old(Value()), shardNum, crossTxs[..i], orders, tx, shuffledBrokers);
        orders := orders + [shuffledBrokers];
        var foundBroker := FindBroker(tx, shuffledBrokers);
        if !foundBroker {
          relayTxs := relayTxs + [FallBack(tx)];
        }
      }
      assert crossTxs[..|crossTxs|] == crossTxs;
    }

    method LocateAll(txs: seq<Transaction>) returns (locs: seq<int>)
      requires shardNum > 0
      ensures locs == TxLocs(shardNum, txs)
    {
      locs := [];
      for i := 0 to |txs|
        invariant locs == TxLocs(shardNum, txs[..i])
      {
        assert txs[..i + 1][..i] == txs[..i];
        locs := locs + [TxLoc(shardNum, txs[i])];
      }
      assert txs[..|txs|] == txs;
    }
  }

  lemma OrdersMore(l: Ledger, orders: seq<seq<Address>>, order: seq<Address>)
    requires OfBrokers(l, order) && forall i :: 0 <= i < |orders| ==> OfBrokers(l, orders[i])
    ensures forall i :: 0 <= i < |orders| + 1 ==> OfBrokers(l, (orders + [order])[i])
  {
  }

  lemma InjectedMore(l: Ledger, n: nat, txs: seq<Transaction>, orders: seq<seq<Address>>, tx: Transaction,
      order: seq<Address>)
    requires Shaped(l, n) && |txs| == |orders| && OfBrokers(l, order)
    requires forall i :: 0 <= i < |orders| ==> OfBrokers(l, orders[i])
    ensures forall i :: 0 <= i < |orders| + 1 ==> OfBrokers(l, (orders + [order])[i])
    ensures var (before, relayed) := InjectedAll(l, n, txs, orders);
      var (after, found) := Tried(before, n, tx, order);
      InjectedAll(l, n, txs + [tx], orders + [order]) == (after, if found then relayed else relayed + [FallBack(tx)])
  {
    hide InjectedAll, OfBrokers, Tried, FallBack, Shaped;
    OrdersMore(l, orders, order);
    assert (txs + [tx])[..|txs|] == txs && (orders + [order])[..|orders|] == orders;
    InjectedLast(l, n, txs + [tx], orders + [order]);
  }

  lemma InjectedLast(l: Ledger, n: nat, txs: seq<Transaction>, orders: seq<seq<Address>>)
    requires Shaped(l, n) && |txs| == |orders| && txs != [] && forall i :: 0 <= i < |orders| ==> OfBrokers(l, orders[i])
    ensures var tx, order := txs[|txs| - 1], orders[|orders| - 1];
      var (before, relayed) := InjectedAll(l, n, txs[..|txs| - 1], orders[..|orders| - 1]);
      && OfBrokers(before, order)
      && var (after, found) := Tried(before, n, tx, order);
      InjectedAll(l, n, txs, orders) == (after, if found then relayed else relayed + [FallBack(tx)])
  {
    assert OfBrokers(l, orders[|orders| - 1]);
  }

  lemma SameMembers(s: seq<Address>, t: seq<Address>)
    requires multiset(s) == multiset(t)
    ensures forall b :: b in s <==> b in t
  {
    forall b
      ensures b in s <==> b in t
    {
      assert b in s <==> b in multiset(s);
      assert b in t <==> b in multiset(t);
    }
  }

  lemma SameInitial(l: Ledger, brokers: set<Address>, n: nat)
    requires l.book == Brokers.Fresh(brokers) && l.balances.Keys == l.pending.Keys == brokers
    requires forall b :: b in brokers ==>
      l.balances[b] == seq(n, _ => BROKER_INIT_BALANCE) && l.pending[b] == seq(n, _ => 0)
    ensures l == Initial(brokers, n)
  {
  }

  // ---------------------------------------------------------------------------------------------
  // Whole blocks and batches keep the ledger solvent
  // ---------------------------------------------------------------------------------------------

  ghost predicate AllEcho(l: Ledger, n: nat, b1: seq<Transaction>, b2: seq<Transaction>, shard: nat)
    requires Shaped(l, n) && shard < n
  {
    && (forall i :: 0 <= i < |b1| ==>
      b1[i].brokerStage == SIGMA1 && Echoes(ReceivedAll(l, n, b1[..i], shard).book, n, b1[i], shard))
    && forall i :: 0 <= i < |b2| ==>
      b2[i].brokerStage == SIGMA2
        && Echoes(PaidAll(ReceivedAll(l, n, b1, shard), n, b2[..i], shard).book, n, b2[i], shard)
  }

  lemma {:induction false} ReceivedAllSolvent(l: Ledger, n: nat, txs: seq<Transaction>, shard: nat)
    requires Solvent(l, n) && shard < n
    requires forall i :: 0 <= i < |txs| ==>
      txs[i].brokerStage == SIGMA1 && Echoes(ReceivedAll(l, n, txs[..i], shard).book, n, txs[i], shard)
    ensures Solvent(ReceivedAll(l, n, txs, shard), n)
  {
    if txs != [] {
      var front := txs[..|txs| - 1];
      assert forall i :: 0 <= i < |front| ==> front[..i] == txs[..i] && front[i] == txs[i];
      ReceivedAllSolvent(l, n, front, shard);
      ReceivedSolvent(ReceivedAll(l, n, front, shard), n, txs[|txs| - 1], shard);
    }
  }

  lemma {:induction false} PaidAllSolvent(l: Ledger, n: nat, txs: seq<Transaction>, shard: nat)
    requires Solvent(l, n) && shard < n
    requires forall i :: 0 <= i < |txs| ==>
      txs[i].brokerStage == SIGMA2 && Echoes(PaidAll(l, n, txs[..i], shard).book, n, txs[i], shard)
    ensures Solvent(PaidAll(l, n, txs, shard), n)
  {
    if txs != [] {
      var front := txs[..|txs| - 1];
      assert forall i :: 0 <= i < |front| ==> front[..i] == txs[..i] && front[i] == txs[i];
      PaidAllSolvent(l, n, front, shard);
      PaidSolvent(PaidAll(l, n, front, shard), n, txs[|txs| - 1], shard);
    }
  }

  /** Every accepted confirmation repeats what was emitted. */
  ghost predicate EchoInOrder(l: Ledger, n: nat, b1: seq<Transaction>, b2: seq<Transaction>, shard: nat)
    requires Shaped(l, n) && shard < n
  {
    && (forall i :: 0 <= i < |b1| ==> Echoes(ReceivedAll(l, n, b1[..i], shard).book, n, b1[i], shard))
    && forall i :: 0 <= i < |b2| ==>
      Echoes(PaidAll(ReceivedAll(l, n, b1, shard), n, b2[..i], shard).book, n, b2[i], shard)
  }

  /** The report of a committed block puts each half under its stage. */
  lemma ReportedStages(txs: seq<Transaction>, shard: int, epoch: int)
    ensures forall i :: 0 <= i < |BrokerInfo(txs, shard, epoch).broker1| ==>
      BrokerInfo(txs, shard, epoch).broker1[i].brokerStage == SIGMA1
    ensures forall i :: 0 <= i < |BrokerInfo(txs, shard, epoch).broker2| ==>
      BrokerInfo(txs, shard, epoch).broker2[i].brokerStage == SIGMA2
  {
    var info := BrokerInfo(txs, shard, epoch);
    forall i | 0 <= i < |info.broker1|
      ensures info.broker1[i].brokerStage == SIGMA1
    {
      ReportExactly(txs, shard, epoch, info.broker1[i]);
      assert info.broker1[i] in multiset(info.broker1);
    }
    forall i | 0 <= i < |info.broker2|
      ensures info.broker2[i].brokerStage == SIGMA2
    {
      ReportExactly(txs, shard, epoch, info.broker2[i]);
      assert info.broker2[i] in multiset(info.broker2);
    }
  }

  /** Handling the report of any committed block keeps the ledger solvent, if the confirmations accepted
      repeat what was emitted. */
  lemma ReportKeepsSolvent(l: Ledger, n: nat, txs: seq<Transaction>, shard: nat, epoch: int)
    requires Solvent(l, n) && shard < n
    requires EchoInOrder(l, n, BrokerInfo(txs, shard, epoch).broker1, BrokerInfo(txs, shard, epoch).broker2, shard)
    ensures var info := BrokerInfo(txs, shard, epoch);
      Solvent(PaidAll(ReceivedAll(l, n, info.broker1, shard), n, info.broker2, shard), n)
  {
    ReportedStages(txs, shard, epoch);
    BlockKeepsSolvent(l, n, BrokerInfo(txs, shard, epoch));
  }

  /** Handling a block that echoes emitted transactions keeps the ledger solvent. */
  lemma BlockKeepsSolvent(l: Ledger, n: nat, info: BrokerBlockInfo)
    requires Solvent(l, n) && 0 <= info.shard < n && AllEcho(l, n, info.broker1, info.broker2, info.shard)
    ensures Solvent(PaidAll(ReceivedAll(l, n, info.broker1, info.shard), n, info.broker2, info.shard), n)
  {
    ReceivedAllSolvent(l, n, info.broker1, info.shard);
    PaidAllSolvent(ReceivedAll(l, n, info.broker1, info.shard), n, info.broker2, info.shard);
  }

  /** So does a batch of transactions with non-negative values, whatever the orders of the brokers. */
  lemma {:induction false} BatchKeepsSolvent(l: Ledger, n: nat, txs: seq<Transaction>, orders: seq<seq<Address>>)
    requires Solvent(l, n) && |txs| == |orders| && forall i :: 0 <= i < |orders| ==> OfBrokers(l, orders[i])
    requires forall i :: 0 <= i < |txs| ==> txs[i].value >= 0
    ensures Solvent(InjectedAll(l, n, txs, orders).0, n)
  {
    if txs != [] {
      BatchKeepsSolvent(l, n, txs[..|txs| - 1], orders[..|orders| - 1]);
      assert OfBrokers(l, orders[|orders| - 1]);
      TriedSolvent(InjectedAll(l, n, txs[..|txs| - 1], orders[..|orders| - 1]).0, n, txs[|txs| - 1],
        orders[|orders| - 1]);
    }
  }
}
