/** Why brokers must not send ordinary transactions in `BrokerSystem`: the exact condition under which a
    second half then wraps, and a run that meets it. */
module BrokerSpending {
  import opened Types
  import opened Execution
  import opened Routing
  import opened Brokers
  import opened StaticBrokers
  import opened StaticBrokerCommittees
  import opened BrokerSystem

  /** A second half on its way, behind an ordinary transaction of its broker in one block: it takes
      exactly its value off the broker's balance exactly when the balance covers both, and otherwise it
      wraps. The block executes in either case. */
  lemma OrdinarySpendingWrapsExactlyWhen(n: nat, s: System, t: TxTo, spend: Transaction)
    requires Inv(n, s) && t in s.flight && TxType(t.tx) == BrokerTx && t.tx.brokerStage == SIGMA2
    requires ExecTx(s.chains[t.dest], map[], n, t.dest, t.tx).Some?
    requires BalanceOf(s.chains[t.dest], t.tx.broker) < UINT256
    requires TxType(spend) == NormalTx && spend.sender == t.tx.broker != spend.recipient
    requires 0 <= spend.value <= BalanceOf(s.chains[t.dest], t.tx.broker)
    ensures var before, m := BalanceOf(s.chains[t.dest], t.tx.broker),
      ExecTxs(s.chains[t.dest], map[], n, t.dest, [spend, t.tx]);
      && m.Some?
      && (BalanceOf(m.value, t.tx.broker) == before - spend.value - t.tx.value <==> spend.value + t.tx.value <= before)
      && (spend.value + t.tx.value > before ==>
        BalanceOf(m.value, t.tx.broker) == before - spend.value - t.tx.value + UINT256)
  {
    var m := s.chains[t.dest];
    HalfAtHome(n, s, t);
    SpendsFirst(m, n, t.dest, spend);
    var m1 := ExecTx(m, map[], n, t.dest, spend).value;
    assert ExecTx(m1, map[], n, t.dest, t.tx).Some?;
    ExecutionPaysExactlyWhen(m1, n, t.dest, t.tx);
    ExecutesBoth(m, n, t.dest, spend, t.tx);
  }

  lemma HalfAtHome(n: nat, s: System, t: TxTo)
    requires Inv(n, s) && t in s.flight && TxType(t.tx) == BrokerTx && t.tx.brokerStage == SIGMA2
    ensures 0 <= t.dest < n && LocOf(map[], t.tx.recipient, n) == t.dest && t.tx.recipient != t.tx.broker
  {
    assert HalfOk(s.ledger.book, n, t);
    SecondHalfCovered(n, s, t);
    assert IsBroker(s, t.tx.broker) && !IsBroker(s, t.tx.recipient);
  }

  lemma SpendsFirst(m: Accounts, n: nat, shard: int, spend: Transaction)
    requires n > 0 && TxType(spend) == NormalTx && spend.sender != spend.recipient
    requires 0 <= spend.value <= BalanceOf(m, spend.sender) < UINT256
    ensures var m1 := ExecTx(m, map[], n, shard, spend);
      m1.Some? && BalanceOf(m1.value, spend.sender) == BalanceOf(m, spend.sender) - spend.value
  {
  }

  lemma ExecutesBoth(m: Accounts, n: nat, shard: int, first: Transaction, second: Transaction)
    requires n > 0 && ExecTx(m, map[], n, shard, first).Some?
    ensures ExecTxs(m, map[], n, shard, [first, second])
      == ExecTx(ExecTx(m, map[], n, shard, first).value, map[], n, shard, second)
  {
    assert [first, second][..1] == [first] && [first][..0] == [];
    assert ExecTxs(m, map[], n, shard, [first][..0]) == Some(m);
    assert ExecTxs(m, map[], n, shard, [first]) == ExecTx(m, map[], n, shard, first);
  }

  // ---------------------------------------------------------------------------------------------
  // A run in which a broker could do so
  // ---------------------------------------------------------------------------------------------

  const BROKER: Address := 2

  /** From shard 0 to shard 1. */
  const CROSS: Transaction := Transaction(0, 1, 1, 0, [], UNDETERMINED, NoHash, RAW, 0, NoHash, 0)

  const RAW_TX: Transaction := CROSS.(broker := BROKER, bHash := HashOf(CROSS), brokerNonce := 1)

  const FIRST_HALF: TxTo := TxTo(0, RAW_TX.(brokerStage := SIGMA1))

  const SECOND_HALF: TxTo := TxTo(1, RAW_TX.(brokerStage := SIGMA2))

  function Begun(): System
  {
    System(Initial({BROKER}, 2), [map[], map[]], multiset{}, multiset{})
  }

  function Recording(wait: Wait, ready1: seq<TxHash>, ready2: seq<TxHash>): Book
  {
    Book(map[BROKER := 1], map[HashOf(CROSS) := Info(RAW_TX, wait)], ready1, ready2)
  }

  lemma Reserved() returns (s: System)
    ensures Next(2, Begun(), s, InjectCross(CROSS, [BROKER]))
    ensures s.ledger.book == Recording(WaitConfirm1, [HashOf(CROSS)], []) && Shaped(s.ledger, 2)
    ensures s.chains == [map[], map[]] && s.flight == s.reports == multiset{}
  {
    var l := Begun().ledger;
    assert Shaped(l, 2) && Affordable(l, BROKER, 1, 1) && Creatable(l.book, CROSS, BROKER);
    assert Created(l.book, CROSS, BROKER) == Recording(WaitConfirm1, [HashOf(CROSS)], []);
    assert [BROKER][1..] == [];
    s := ApplyInject(2, Begun(), CROSS, [BROKER]);
    TriedOneShaped(l, 2, CROSS, BROKER);
    assert s.ledger == TriedOne(l, 2, CROSS, BROKER).0;
  }

  /** The ready list holds the one transaction; emitting makes its half and nothing else. */
  lemma OneHalf(wait: Wait, half: TxTo)
    requires half == if wait == WaitConfirm1 then FIRST_HALF else SECOND_HALF
    ensures var m, h := ReadyFor(wait), HashOf(CROSS);
      && Halves(m, [h], wait, StageFor(wait)) == [half.tx] && SentTo(2, [half.tx]) == [half]
      && Halves(m, [], WaitConfirm1, SIGMA1) == Halves(m, [], WaitConfirm2, SIGMA2) == [] && SentTo(2, []) == []
  {
    assert [HashOf(CROSS)][..0] == [] && [half.tx][..0] == [];
    assert TxType(half.tx) == BrokerTx && TxLoc(2, half.tx) == half.dest;
  }

  function ReadyFor(wait: Wait): Book
  {
    if wait == WaitConfirm1 then Recording(wait, [HashOf(CROSS)], []) else Recording(wait, [], [HashOf(CROSS)])
  }

  lemma EmittedOne(s: System, wait: Wait, half: TxTo) returns (s': System)
    requires Shaped(s.ledger, 2) && |s.chains| == 2 && s.flight == multiset{} && s.ledger.book == ReadyFor(wait)
    requires half == if wait == WaitConfirm1 then FIRST_HALF else SECOND_HALF
    ensures Next(2, s, s', Step.Emit) && s'.flight == multiset{half} && s'.chains == s.chains && s'.reports == s.reports
    ensures s'.ledger == s.ledger.(book := Recording(wait, [], [])) && Shaped(s'.ledger, 2)
  {
    OneHalf(wait, half);
    hide Halves, SentTo;
    s' := ApplyEmit(2, s);
  }

  lemma ExecutedFirst(s: System) returns (s': System)
    requires Shaped(s.ledger, 2) && s.ledger.book == Recording(WaitConfirm1, [], [])
    requires s.chains == [map[], map[]] && s.flight == multiset{FIRST_HALF} && s.reports == multiset{}
    ensures Next(2, s, s', Execute(FIRST_HALF))
    ensures s'.ledger == s.ledger && s'.flight == multiset{} && s'.reports == multiset{FIRST_HALF} && |s'.chains| == 2
    ensures s'.chains[1] == map[]
  {
    assert TxType(FIRST_HALF.tx) == BrokerTx;
    s' := ApplyExecute(2, s, FIRST_HALF);
  }

  lemma HandledFirst(s: System) returns (s': System)
    requires Shaped(s.ledger, 2) && s.ledger.book == Recording(WaitConfirm1, [], [])
    requires |s.chains| == 2 && s.flight == multiset{} && s.reports == multiset{FIRST_HALF}
    ensures Next(2, s, s', Handle(FIRST_HALF))
    ensures Shaped(s'.ledger, 2) && s'.ledger.book == Recording(WaitConfirm2, [], [HashOf(CROSS)])
    ensures s'.chains == s.chains && s'.flight == multiset{}
  {
    StaysShaped(s.ledger, 2, FIRST_HALF.tx, 0);
    s' := ApplyHandle(2, s, FIRST_HALF);
    assert s'.ledger.book.unconfirmed == Recording(WaitConfirm2, [], [HashOf(CROSS)]).unconfirmed;
  }

  lemma SecondHalfReached() returns (states: seq<System>, steps: seq<Step>)
    ensures Run({BROKER}, 2, states, steps)
    ensures states[|steps|].flight == multiset{SECOND_HALF} && |states[|steps|].chains| == 2
    ensures states[|steps|].chains[1] == map[]
  {
    hide Next;
    var s1 := Reserved();
    var s2 := EmittedOne(s1, WaitConfirm1, FIRST_HALF);
    var s3 := ExecutedFirst(s2);
    var s4 := HandledFirst(s3);
    var s5 := EmittedOne(s4, WaitConfirm2, SECOND_HALF);
    states := [Begun(), s1, s2, s3, s4, s5];
    steps := [InjectCross(CROSS, [BROKER]), Step.Emit, Execute(FIRST_HALF), Handle(FIRST_HALF), Step.Emit];
    FiveSteps(states, steps);
  }

  /** A run of the system ends with a second half on its way. In one block behind an ordinary transaction
      in which the broker spends all it has on that chain, it executes and leaves the broker with almost
      2^256. */
  lemma OrdinarySpendingWraps() returns (states: seq<System>, steps: seq<Step>, spend: Transaction)
    ensures Run({BROKER}, 2, states, steps)
    ensures var s := states[|steps|];
      && SECOND_HALF in s.flight && |s.chains| == 2 && TxType(spend) == NormalTx && spend.sender == BROKER
      && spend.value == BalanceOf(s.chains[1], BROKER)
      && var m := ExecTxs(s.chains[1], map[], 2, 1, [spend, SECOND_HALF.tx]);
         m.Some? && BalanceOf(m.value, BROKER) == UINT256 - 1
  {
    states, steps := SecondHalfReached();
    spend := Transaction(BROKER, 0, INIT_BALANCE, 0, [], UNDETERMINED, NoHash, RAW, 0, NoHash, 0);
    RunInv({BROKER}, 2, states, steps, |steps|);
    Wraps(states[|steps|], spend);
  }

  lemma Wraps(s: System, spend: Transaction)
    requires Inv(2, s) && s.flight == multiset{SECOND_HALF} && s.chains[1] == map[]
    requires spend == Transaction(BROKER, 0, INIT_BALANCE, 0, [], UNDETERMINED, NoHash, RAW, 0, NoHash, 0)
    ensures var m := ExecTxs(s.chains[1], map[], 2, 1, [spend, SECOND_HALF.tx]);
      m.Some? && BalanceOf(m.value, BROKER) == UINT256 - 1
  {
    hide Inv, ExecTxs;
    assert TxType(SECOND_HALF.tx) == BrokerTx && SECOND_HALF.tx.value == 1;
    assert LocOf(map[], 1, 2) == 1 && BalanceOf(map[], BROKER) == INIT_BALANCE;
    OrdinarySpendingWrapsExactlyWhen(2, s, SECOND_HALF, spend);
  }

  lemma FiveSteps(states: seq<System>, steps: seq<Step>)
    requires |states| == 6 && |steps| == 5 && states[0] == Begun()
    requires Next(2, states[0], states[1], steps[0]) && Next(2, states[1], states[2], steps[1])
    requires Next(2, states[2], states[3], steps[2]) && Next(2, states[3], states[4], steps[3])
    requires Next(2, states[4], states[5], steps[4])
    ensures Run({BROKER}, 2, states, steps)
  {
    hide Next;
    forall k | 0 <= k < 5
      ensures StepAt(2, states, steps, k)
    {
      assert k == 0 || k == 1 || k == 2 || k == 3 || k == 4;
    }
  }
}
