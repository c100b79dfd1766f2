/** Two runs of `ShardSystem` from untouched accounts in which value changes: one in which an account is
    drained and deleted, and one in which a proposal fails that holds a relay-2 transaction. */
module ShardLeakRuns {
  import opened Types
  import opened Sums
  import opened Execution
  import opened Migration
  import opened Routing
  import opened ShardSystem
  import opened ShardSteps
  import opened ShardValue
  import opened ShardSafety

  // ---------------------------------------------------------------------------------------------
  // Building runs
  // ---------------------------------------------------------------------------------------------

  ghost predicate RunTo(c: Config, states: seq<System>, steps: seq<Step>, s: System)
  {
    Run(c, states, steps) && states[0] == Beginning(c) && states[|steps|] == s
  }

  ghost predicate Reachable(c: Config, s: System)
  {
    exists states, steps :: RunTo(c, states, steps, s)
  }

  /** No account has been touched. */
  function Beginning(c: Config): System
  {
    System(seq(c.shardNum, i => Shard(map[], map[], 0, Fresh(), multiset{}, None, 0, map[])), map[], 0, false,
      seq(c.shardNum, i => 0), multiset{}, multiset{}, multiset{}, multiset{}, map[], map[], 0, 0)
  }

  lemma Start(c: Config)
    requires c.Valid()
    ensures Reachable(c, Beginning(c))
  {
    assert RunTo(c, [Beginning(c)], [], Beginning(c));
  }

  lemma Extend(c: Config, s: System, s': System, step: Step)
    requires Reachable(c, s) && Next(c, s, s', step)
    ensures Reachable(c, s')
  {
    var states, steps :| RunTo(c, states, steps, s);
    Snoc(c, states, steps, s, s', step);
  }

  lemma Snoc(c: Config, states: seq<System>, steps: seq<Step>, s: System, s': System, step: Step)
    requires RunTo(c, states, steps, s) && Next(c, s, s', step)
    ensures RunTo(c, states + [s'], steps + [step], s')
  {
    hide Next, Init, Beginning;
    var states', steps' := states + [s'], steps + [step];
    forall k | 0 <= k < |steps'|
      ensures StepAt(c, states', steps', k)
    {
      if k < |steps| {
        assert StepAt(c, states, steps, k);
        assert states'[k] == states[k] && states'[k + 1] == states[k + 1] && steps'[k] == steps[k];
      }
    }
  }

  /** Two shards; the even addresses start in the first, the odd ones in the second. */
  function Two(): Config
  {
    Config(2, {0, 1, 2, 3})
  }

  function Plain(sender: Address, recipient: Address, value: nat): Transaction
  {
    Transaction(sender, recipient, value, 0, [], UNDETERMINED, NoHash, RAW, 0, NoHash, 0)
  }

  ghost predicate Calm(s: System)
  {
    s.synced && |s.shards| == |s.reported| == 2 && s.partition == map[]
  }

  lemma Opens() returns (s: System)
    ensures s == Beginning(Two()).(synced := true) && Calm(s) && Reachable(Two(), s)
  {
    Start(Two());
    s := Beginning(Two()).(synced := true);
    Extend(Two(), Beginning(Two()), s, CheckEpochs);
  }

  function WithPool(s: System, i: nat, pool: multiset<Transaction>): System
    requires i < |s.shards|
  {
    s.(shards := s.shards[i := s.shards[i].(pool := pool)])
  }

  lemma Delivers(s: System, t: TxTo)
    requires Reachable(Two(), s) && |s.shards| == |s.reported| == 2 && t in s.txs && 0 <= t.dest < 2
    ensures Reachable(Two(), WithPool(s, t.dest, s.shards[t.dest].pool + multiset{t.tx}).(txs := s.txs - multiset{t}))
  {
    hide Reachable;
    Extend(Two(), s, WithPool(s, t.dest, s.shards[t.dest].pool + multiset{t.tx}).(txs := s.txs - multiset{t}),
      DeliverTx(t));
  }

  lemma Injects(s: System, sender: Address, recipient: Address, value: nat)
    requires Reachable(Two(), s) && Calm(s) && sender < 4 && recipient < 4
    ensures Reachable(Two(),
      WithPool(s, sender % 2, s.shards[sender % 2].pool + multiset{Plain(sender, recipient, value)}))
  {
    hide Reachable;
    var tx := Plain(sender, recipient, value);
    var t := TxTo(sender % 2, tx);
    var s1 := s.(txs := s.txs + multiset{t});
    assert Pooled(Two().universe, tx);
    Extend(Two(), s, s1, Inject(tx));
    Delivers(s1, t);
    assert s1.txs - multiset{t} == s.txs;
  }

  ghost predicate Ready(s: System, i: nat, taken: seq<Transaction>)
  {
    && |s.shards| == |s.reported| == 2 && i < 2 && s.shards[i].proposed.None? && !s.shards[i].meta.ready
    && s.shards[i].loc == map[] && s.shards[i].pool == multiset(taken)
  }

  /** Everything in the pool is packed and executes. */
  lemma Proposes(s: System, i: nat, taken: seq<Transaction>, block: seq<Transaction>)
    requires Reachable(Two(), s) && Ready(s, i, taken)
    requires Stay(map[], 2, i, taken) == taken && PassOn(map[], 2, i, taken) == []
    requires Modify(map[], 2, i, taken) == block
    requires ExecTxs(s.shards[i].accounts, map[], 2, i, block).Some?
    ensures Reachable(Two(),
      s.(shards := s.shards[i := s.shards[i].(pool := multiset{}, proposed := Some(TxBlock(block)))]))
  {
    hide Reachable, Stay, PassOn, Modify, ExecTxs;
    var s' := s.(shards := s.shards[i := s.shards[i].(pool := multiset{}, proposed := Some(TxBlock(block)))]);
    assert s.shards[i].pool - multiset(taken) == multiset{} && s.txs + multiset([]) == s.txs;
    Extend(Two(), s, s', ProposeTxs(i, taken));
  }

  /** Everything in the pool is packed, and the block fails. */
  lemma Fails(s: System, i: nat, taken: seq<Transaction>, block: seq<Transaction>)
    requires Reachable(Two(), s) && Ready(s, i, taken)
    requires Stay(map[], 2, i, taken) == taken && PassOn(map[], 2, i, taken) == []
    requires Modify(map[], 2, i, taken) == block
    requires ExecTxs(s.shards[i].accounts, map[], 2, i, block).None?
    ensures Reachable(Two(), WithPool(s, i, multiset{}).(lost := s.lost + InValues(taken)))
  {
    hide Reachable, Stay, PassOn, Modify, ExecTxs;
    assert s.shards[i].pool - multiset(taken) == multiset{} && s.txs + multiset([]) == s.txs;
    Extend(Two(), s, WithPool(s, i, multiset{}).(lost := s.lost + InValues(taken)), ProposeTxs(i, taken));
  }

  lemma Commits(s: System, i: nat, block: seq<Transaction>) returns (s': System)
    requires Reachable(Two(), s) && |s.shards| == |s.reported| == 2 && i < 2
    requires s.shards[i].proposed == Some(TxBlock(block)) && s.shards[i].loc == map[]
    requires ExecTxs(s.shards[i].accounts, map[], 2, i, block).Some?
    ensures Reachable(Two(), s')
    ensures var m := ExecTxs(s.shards[i].accounts, map[], 2, i, block).value;
      s' == s.(shards := s.shards[i := s.shards[i].(accounts := ClearEmpty(m), proposed := None)],
               txs := s.txs + multiset(Relayed(map[], 2, block)), reports := s'.reports,
               cleared := s.cleared + |Emptied(Two().universe, m)|)
  {
    hide Reachable, ExecTxs, Relayed;
    s' := ApplyCommit(Two(), s, i);
    Extend(Two(), s, s', Commit(i));
  }

  // ---------------------------------------------------------------------------------------------
  // The two leaks
  // ---------------------------------------------------------------------------------------------

  lemma FirstSupply()
    ensures Two().Valid() && Supply(Two(), Beginning(Two())) == 4 * INIT_BALANCE
  {
    var c, s := Two(), Beginning(Two());
    SumScaled(c.universe, a => HomeBalance(c, s, a), INIT_BALANCE);
    SumScaled(ShardIds(2), (j: Int64) => HeldAt(s, j), 0);
  }

  lemma Packs(i: nat, tx: Transaction)
    requires i < 2 && KeyAccount(tx) % UINT32 % 2 == i
    ensures Stay(map[], 2, i, [tx]) == [tx] && PassOn(map[], 2, i, [tx]) == []
  {
    assert [tx][..0] == [];
  }

  /** An account sends all it has; it is deleted, and worth the initial balance again. */
  lemma DrainedAccountGains() returns (c: Config, states: seq<System>, steps: seq<Step>)
    ensures Run(c, states, steps)
    ensures Supply(c, states[|steps|]) == Supply(c, states[0]) + INIT_BALANCE
  {
    hide Reachable;
    c := Two();
    var tx := Plain(0, 2, INIT_BALANCE);
    var s := Opens();
    Injects(s, 0, 2, INIT_BALANCE);
    s := WithPool(s, 0, multiset{} + multiset{tx});
    Drains(tx);
    Packs(0, tx);
    Proposes(s, 0, [tx], [tx]);
    s := s.(shards := s.shards[0 := s.shards[0].(pool := multiset{}, proposed := Some(TxBlock([tx])))]);
    s := Commits(s, 0, [tx]);
    states, steps := Trace(s);
    FirstSupply();
    ValueLaw(c, states, steps, |steps|);
  }

  lemma Trace(s: System) returns (states: seq<System>, steps: seq<Step>)
    requires Reachable(Two(), s)
    ensures RunTo(Two(), states, steps, s)
  {
    states, steps :| RunTo(Two(), states, steps, s);
  }

  lemma Drains(tx: Transaction)
    requires tx == Plain(0, 2, INIT_BALANCE)
    ensures var m := ExecTxs(map[], map[], 2, 0, [tx]);
      m.Some? && Emptied(Two().universe, m.value) == {0}
    ensures Modify(map[], 2, 0, [tx]) == [tx]
  {
    assert [tx][..0] == [];
  }

  /** A cross-shard transaction is debited in the first shard; in the second its relay-2 form is packed
      with a transfer its sender cannot pay, the block fails, and the value is gone. */
  lemma FailedProposalLoses(value: nat) returns (c: Config, states: seq<System>, steps: seq<Step>)
    requires 0 < value < INIT_BALANCE
    ensures Run(c, states, steps)
    ensures Supply(c, states[|steps|]) == Supply(c, states[0]) - value
  {
    hide Reachable;
    c := Two();
    var tx, bad := Plain(0, 1, value), Plain(1, 3, 2 * INIT_BALANCE);
    var tx1 := tx.(relayStage := RELAY1, rHash := HashOf(tx));
    var tx2 := tx1.(relayStage := RELAY2);
    var s := Opens();
    Injects(s, 0, 1, value);
    s := WithPool(s, 0, multiset{} + multiset{tx});
    Packs(0, tx);
    Relays(tx, tx1, tx2, value);
    Proposes(s, 0, [tx], [tx1]);
    s := s.(shards := s.shards[0 := s.shards[0].(pool := multiset{}, proposed := Some(TxBlock([tx1])))]);
    s := Commits(s, 0, [tx1]);
    Delivers(s, TxTo(1, tx2));
    s := WithPool(s, 1, multiset{} + multiset{tx2}).(txs := s.txs - multiset{TxTo(1, tx2)});
    Injects(s, 1, 3, 2 * INIT_BALANCE);
    s := WithPool(s, 1, multiset{tx2} + multiset{bad});
    BadBlock(tx2, bad, value);
    assert multiset{tx2} + multiset{bad} == multiset([tx2, bad]);
    Fails(s, 1, [tx2, bad], [tx2, bad]);
    s := WithPool(s, 1, multiset{}).(lost := value);
    states, steps := Trace(s);
    FirstSupply();
    ValueLaw(c, states, steps, |steps|);
  }

  lemma Relays(tx: Transaction, tx1: Transaction, tx2: Transaction, value: nat)
    requires 0 < value < INIT_BALANCE && tx == Plain(0, 1, value)
    requires tx1 == tx.(relayStage := RELAY1, rHash := HashOf(tx)) && tx2 == tx1.(relayStage := RELAY2)
    ensures Modify(map[], 2, 0, [tx]) == [tx1] && Relayed(map[], 2, [tx1]) == [TxTo(1, tx2)]
    ensures var m := ExecTxs(map[], map[], 2, 0, [tx1]);
      m.Some? && Emptied(Two().universe, m.value) == {}
  {
    assert [tx][..0] == [] && [tx1][..0] == [];
    Debits(tx1, value);
  }

  lemma Debits(tx1: Transaction, value: nat)
    requires 0 < value < INIT_BALANCE && TxType(tx1) == RelayTx && tx1.relayStage == RELAY1
    requires tx1.sender == 0 && tx1.value == value
    ensures ExecTxs(map[], map[], 2, 0, [tx1]) == Some(map[0 := Account(INIT_BALANCE - value, 0)])
  {
    var m: Accounts := map[0 := Account(INIT_BALANCE, 0)];
    assert Touch(map[], 0, INIT_BALANCE) == m;
    assert Debit(m, 0, value) == map[0 := Account(INIT_BALANCE - value, 0)];
    assert LocOf(map[], 0, 2) == 0;
    ExecOne(map[], 0, tx1);
  }

  lemma ExecOne(m: Accounts, i: nat, tx: Transaction)
    ensures ExecTxs(m, map[], 2, i, [tx]) == ExecTx(m, map[], 2, i, tx)
  {
    assert [tx][..0] == [];
    assert ExecTxs(m, map[], 2, i, []) == Some(m);
  }

  lemma BadBlock(tx2: Transaction, bad: Transaction, value: nat)
    requires 0 < value < INIT_BALANCE && bad == Plain(1, 3, 2 * INIT_BALANCE)
    requires tx2 == Plain(0, 1, value).(relayStage := RELAY2, rHash := HashOf(Plain(0, 1, value)))
    ensures var both := [tx2, bad];
      && Stay(map[], 2, 1, both) == both && PassOn(map[], 2, 1, both) == [] && Modify(map[], 2, 1, both) == both
      && ExecTxs(map[], map[], 2, 1, both).None? && InValues(both) == value
  {
    var both := [tx2, bad];
    assert both[..1] == [tx2] && [tx2][..0] == [];
    Packs(1, tx2);
    assert Modify(map[], 2, 1, [tx2]) == [tx2] && InValues([tx2]) == value;
    ExecOne(map[], 1, tx2);
    var m: Accounts := map[1 := Account(INIT_BALANCE, 0)];
    assert Touch(map[], 1, INIT_BALANCE) == m;
    var m': Accounts := map[1 := Account(INIT_BALANCE + value, 0)];
    assert Credit(m, 1, value) == m';
    assert TxType(tx2) == RelayTx && LocOf(map[], 1, 2) == 1;
    assert ExecTx(map[], map[], 2, 1, tx2) == Some(m');
    assert ExecTx(m', map[], 2, 1, bad).None?;
    assert [tx2] + [bad] == both;
  }
}
