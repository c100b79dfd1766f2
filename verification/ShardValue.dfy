/** Conservation of value over the steps of `ShardSystem`. */
module ShardValue {
  import opened Types
  import opened Sums
  import opened Execution
  import opened Migration
  import opened Routing
  import opened ShardSystem
  import opened ShardInvariant
  import opened ShardSteps
  import opened ShardHandOver

  /** The one shard whose copy of the account counts: the new home once that shard has finished the
      epoch, the old one until then. */
  ghost function HomeShard(c: Config, s: System, a: Address): int
    requires c.shardNum > 0
  {
    var d := LocOf(s.partition, a, c.shardNum);
    if 0 <= d < |s.shards| && s.shards[d].epoch == s.epoch then d else LocOf(s.before, a, c.shardNum)
  }

  ghost function HomeBalance(c: Config, s: System, a: Address): int
    requires c.shardNum > 0
  {
    var h := HomeShard(c, s, a);
    if 0 <= h < |s.shards| then BalanceOf(s.shards[h].accounts, a) else 0
  }

  ghost function HomeWorth(c: Config, s: System): int
    requires c.shardNum > 0
  {
    Sum(c.universe, a => HomeBalance(c, s, a))
  }

  /** Relay-2 value a leader holds, in its pool or in the block it has proposed. */
  ghost function HeldValue(sh: Shard): int
  {
    InTotal(sh.pool) + match sh.proposed case Some(TxBlock(txs)) => InValues(txs) case _ => 0
  }

  ghost function HeldAt(s: System, i: Int64): int
  {
    if 0 <= i < |s.shards| then HeldValue(s.shards[i]) else 0
  }

  ghost function InFlight(c: Config, s: System): int
    requires c.Valid()
  {
    ToTotal(s.txs) + Sum(ShardIds(c.shardNum), (j: Int64) => HeldAt(s, j))
  }

  /** All value in the system. */
  ghost function Supply(c: Config, s: System): int
    requires c.Valid()
  {
    HomeWorth(c, s) + InFlight(c, s)
  }

  // ---------------------------------------------------------------------------------------------
  // Bookkeeping
  // ---------------------------------------------------------------------------------------------

  lemma SameHomes(c: Config, s: System, s': System)
    requires c.Valid()
    requires forall a :: a in c.universe ==> HomeBalance(c, s', a) == HomeBalance(c, s, a)
    ensures HomeWorth(c, s') == HomeWorth(c, s)
  {
    SumCongruent(c.universe, a => HomeBalance(c, s, a), a => HomeBalance(c, s', a));
  }

  lemma OneHolder(c: Config, s: System, s': System, i: nat)
    requires c.Valid() && i < |s.shards| == |s'.shards| == c.shardNum
    requires forall j :: 0 <= j < |s.shards| && j != i ==> s'.shards[j] == s.shards[j]
    ensures InFlight(c, s') - ToTotal(s'.txs)
      == InFlight(c, s) - ToTotal(s.txs) + HeldValue(s'.shards[i]) - HeldValue(s.shards[i])
  {
    ShardIdsCount(c.shardNum);
    SumUpdate<Int64>(ShardIds(c.shardNum), (j: Int64) => HeldAt(s, j), (j: Int64) => HeldAt(s', j), i as Int64);
  }

  lemma SameHolders(c: Config, s: System, s': System)
    requires c.Valid() && s'.shards == s.shards
    ensures InFlight(c, s') - ToTotal(s'.txs) == InFlight(c, s) - ToTotal(s.txs)
  {
    SumCongruent(ShardIds(c.shardNum), (j: Int64) => HeldAt(s, j), (j: Int64) => HeldAt(s', j));
  }

  /** Pools and wires carry no negative value, so no part of the supply exceeds the whole. */
  lemma PartsWithinSupply(c: Config, s: System, i: nat)
    requires Inv(c, s) && i < |s.shards|
    ensures ToTotal(s.txs) >= 0
    ensures forall j :: 0 <= j < |s.shards| ==> HeldValue(s.shards[j]) >= 0 && InTotal(s.shards[j].pool) >= 0
    ensures HeldValue(s.shards[i]) <= InFlight(c, s)
  {
    TotalNonNegative(s.txs, ToValue);
    forall j | 0 <= j < |s.shards|
      ensures HeldValue(s.shards[j]) >= 0 && InTotal(s.shards[j].pool) >= 0
    {
      HeldNonNegative(c, s, j);
    }
    ShardIdsCount(c.shardNum);
    SumNonNegative(ShardIds(c.shardNum), (j: Int64) => HeldAt(s, j));
    assert HeldAt(s, i) == HeldValue(s.shards[i]);
    assert (i as Int64) in ShardIds(c.shardNum);
  }

  lemma HeldNonNegative(c: Config, s: System, j: nat)
    requires Inv(c, s) && j < |s.shards|
    ensures HeldValue(s.shards[j]) >= 0 && InTotal(s.shards[j].pool) >= 0
  {
    Facts(c, s, j);
    var sh := s.shards[j];
    TotalNonNegative(sh.pool, InValue);
    if sh.proposed.Some? && sh.proposed.value.TxBlock? {
      ExecutedValuesFit(sh.accounts, sh.loc, c.shardNum, j, sh.proposed.value.txs);
    }
  }

  // ---------------------------------------------------------------------------------------------
  // Steps without execution
  // ---------------------------------------------------------------------------------------------

  lemma InjectValue(c: Config, s: System, tx: Transaction)
    requires Inv(c, s) && Enabled(c, s, Inject(tx))
    ensures Supply(c, Apply(c, s, Inject(tx))) == Supply(c, s)
  {
    var s' := Apply(c, s, Inject(tx));
    SameHomes(c, s, s');
    SameHolders(c, s, s');
    TotalAdd(s.txs, ToValue, TxTo(LocOf(s.partition, tx.sender, c.shardNum), tx));
  }

  lemma HandleReportValue(c: Config, s: System, r: Report, seen: set<Address>)
    requires Inv(c, s) && Enabled(c, s, HandleReport(r, seen))
    ensures Supply(c, ApplyHandleReport(c, s, r, seen)) == Supply(c, s)
  {
    var s' := ApplyHandleReport(c, s, r, seen);
    SeeKeepsLocations(s.partition, c.shardNum, seen);
    SameHomes(c, s, s');
    SameHolders(c, s, s');
  }

  lemma CheckEpochsValue(c: Config, s: System)
    requires Inv(c, s)
    ensures Supply(c, Apply(c, s, CheckEpochs)) == Supply(c, s)
  {
    SameHomes(c, s, Apply(c, s, CheckEpochs));
    SameHolders(c, s, Apply(c, s, CheckEpochs));
  }

  lemma RepartitionValue(c: Config, s: System, target: map<Address, int>)
    requires Inv(c, s) && Enabled(c, s, Repartition(target))
    ensures Supply(c, ApplyRepartition(c, s, target)) == Supply(c, s)
  {
    var s' := ApplyRepartition(c, s, target);
    OpenBarrier(c, s);
    forall a | a in c.universe
      ensures HomeBalance(c, s', a) == HomeBalance(c, s, a)
    {
      assert 0 <= LocOf(s.partition, a, c.shardNum) < c.shardNum;
      assert 0 <= LocOf(target, a, c.shardNum) < c.shardNum;
    }
    SameHomes(c, s, s');
    SameHolders(c, s, s');
  }

  /** A leader only changes its metadata, pool or proposal. */
  lemma SameAccountsValue(c: Config, s: System, s': System, i: nat)
    requires c.Valid() && i < |s.shards| == |s'.shards| == c.shardNum
    requires forall j :: 0 <= j < |s.shards| && j != i ==> s'.shards[j] == s.shards[j]
    requires s'.shards[i].accounts == s.shards[i].accounts && s'.shards[i].epoch == s.shards[i].epoch
    requires s'.partition == s.partition && s'.before == s.before && s'.epoch == s.epoch
    ensures Supply(c, s')
      == Supply(c, s) + ToTotal(s'.txs) - ToTotal(s.txs) + HeldValue(s'.shards[i]) - HeldValue(s.shards[i])
  {
    forall a | a in c.universe
      ensures HomeBalance(c, s', a) == HomeBalance(c, s, a)
    {
    }
    SameHomes(c, s, s');
    OneHolder(c, s, s', i);
  }

  lemma DeliverStartValue(c: Config, s: System, t: StartTo)
    requires Inv(c, s) && Enabled(c, s, DeliverStart(t))
    ensures Supply(c, ApplyDeliverStart(c, s, t)) == Supply(c, s)
  {
    hide AllLocalOk, AllTrafficOk, NetworkOk, ExactMoves, BarrierOk, FinishedLast;
    SameAccountsValue(c, s, ApplyDeliverStart(c, s, t), t.dest);
  }

  lemma DeliverMigrationValue(c: Config, s: System, m: MigrationMsg)
    requires Inv(c, s) && Enabled(c, s, DeliverMigration(m))
    ensures Supply(c, ApplyDeliverMigration(c, s, m)) == Supply(c, s)
  {
    hide AllLocalOk, AllTrafficOk, NetworkOk, ExactMoves, BarrierOk, FinishedLast;
    SameAccountsValue(c, s, ApplyDeliverMigration(c, s, m), m.dest);
  }

  lemma DeliverTxValue(c: Config, s: System, t: TxTo)
    requires Inv(c, s) && Enabled(c, s, DeliverTx(t))
    ensures Supply(c, ApplyDeliverTx(c, s, t)) == Supply(c, s)
  {
    hide AllLocalOk, AllTrafficOk, NetworkOk, ExactMoves, BarrierOk, FinishedLast;
    SameAccountsValue(c, s, ApplyDeliverTx(c, s, t), t.dest);
    TotalRemove(s.txs, ToValue, t);
    TotalAdd(s.shards[t.dest].pool, InValue, t.tx);
  }

  lemma TakenValue(pool: multiset<Transaction>, taken: seq<Transaction>)
    requires multiset(taken) <= pool
    ensures InTotal(pool - multiset(taken)) == InTotal(pool) - InValues(taken)
  {
    TotalUnion(pool - multiset(taken), multiset(taken), InValue);
    assert pool - multiset(taken) + multiset(taken) == pool;
    InValuesTotal(taken);
  }

  lemma ProposeTxsValue(c: Config, s: System, i: nat, taken: seq<Transaction>)
    requires Inv(c, s) && Enabled(c, s, ProposeTxs(i, taken))
    ensures var s' := ApplyProposeTxs(c, s, i, taken); Supply(c, s') + s'.lost == Supply(c, s) + s.lost
  {
    var s' := ApplyProposeTxs(c, s, i, taken);
    var loc := s.shards[i].loc;
    PackedValue(c, s, i, taken);
    ProposedShape(c, s, s', i, taken);
    PackValue(loc, c.shardNum, i, taken);
    ProposedParts(s, s', i, taken, Stay(loc, c.shardNum, i, taken), PassOn(loc, c.shardNum, i, taken),
      Modify(loc, c.shardNum, i, Stay(loc, c.shardNum, i, taken)));
    SameAccountsValue(c, s, s', i);
  }

  lemma ProposedShape(c: Config, s: System, s': System, i: nat, taken: seq<Transaction>)
    requires c.Valid() && i < |s.shards| == c.shardNum && s.shards[i].proposed.None?
    requires s' == ApplyProposeTxs(c, s, i, taken)
    ensures |s'.shards| == |s.shards| && forall j :: 0 <= j < |s.shards| && j != i ==> s'.shards[j] == s.shards[j]
    ensures s'.shards[i].accounts == s.shards[i].accounts && s'.shards[i].epoch == s.shards[i].epoch
    ensures s'.partition == s.partition && s'.before == s.before && s'.epoch == s.epoch
    ensures s'.shards[i].pool == s.shards[i].pool - multiset(taken) && s'.cleared == s.cleared
    ensures var loc := s.shards[i].loc;
      var packed := Stay(loc, c.shardNum, i, taken);
      && s'.txs == s.txs + multiset(PassOn(loc, c.shardNum, i, taken))
      && ((s'.shards[i].proposed == Some(TxBlock(Modify(loc, c.shardNum, i, packed))) && s'.lost == s.lost)
          || (s'.shards[i].proposed == None && s'.lost == s.lost + InValues(packed)))
  {
  }

  lemma ProposedParts(s: System, s': System, i: nat, taken: seq<Transaction>, packed: seq<Transaction>,
      passed: seq<TxTo>, block: seq<Transaction>)
    requires i < |s.shards| == |s'.shards| && multiset(taken) <= s.shards[i].pool && s.shards[i].proposed.None?
    requires InValues(packed) + ToValues(passed) == InValues(taken) && InValues(block) == InValues(packed)
    requires s'.txs == s.txs + multiset(passed) && s'.shards[i].pool == s.shards[i].pool - multiset(taken)
    requires (s'.shards[i].proposed == Some(TxBlock(block)) && s'.lost == s.lost)
          || (s'.shards[i].proposed == None && s'.lost == s.lost + InValues(packed))
    ensures ToTotal(s'.txs) + HeldValue(s'.shards[i]) + s'.lost == ToTotal(s.txs) + HeldValue(s.shards[i]) + s.lost
  {
    TakenValue(s.shards[i].pool, taken);
    TotalUnion(s.txs, multiset(passed), ToValue);
    ToValuesTotal(passed);
  }

  lemma PackedValue(c: Config, s: System, i: nat, taken: seq<Transaction>)
    requires Inv(c, s) && i < |s.shards| && multiset(taken) <= s.shards[i].pool
    ensures var packed := Stay(s.shards[i].loc, c.shardNum, i, taken);
      InValues(Modify(s.shards[i].loc, c.shardNum, i, packed)) == InValues(packed)
  {
    Facts(c, s, i);
    var sh := s.shards[i];
    var packed := Stay(sh.loc, c.shardNum, i, taken);
    StayBelongs(sh.loc, c.shardNum, i, taken);
    forall k | 0 <= k < |packed|
      ensures Pooled(c.universe, packed[k])
    {
      assert packed[k] in sh.pool;
    }
    ModifyAtHome(c.universe, sh.loc, c.shardNum, i, packed);
  }

  lemma CaptureValue(c: Config, s: System, i: nat, all: seq<Transaction>)
    requires Inv(c, s) && Enabled(c, s, Capture(i, all))
    ensures Supply(c, ApplyCapture(c, s, i, all)) == Supply(c, s)
  {
    var s', moved := ApplyCapture(c, s, i, all), s.shards[i].meta.moved;
    CaptureShape(c, s, s', i, all);
    CapturedSupply(c, s, s', i, all, Kept(moved, all), Following(moved, all));
  }

  lemma CaptureShape(c: Config, s: System, s': System, i: nat, all: seq<Transaction>)
    requires c.Valid() && i < |s.shards| == c.shardNum && s' == ApplyCapture(c, s, i, all)
    ensures |s'.shards| == |s.shards| && forall j :: 0 <= j < |s.shards| && j != i ==> s'.shards[j] == s.shards[j]
    ensures s'.shards[i].accounts == s.shards[i].accounts && s'.shards[i].epoch == s.shards[i].epoch
    ensures s'.shards[i].proposed == s.shards[i].proposed
    ensures s'.partition == s.partition && s'.before == s.before && s'.epoch == s.epoch
    ensures s'.shards[i].pool == s.shards[i].pool - multiset(all) + multiset(Kept(s.shards[i].meta.moved, all))
    ensures s'.txs == s.txs + multiset(Following(s.shards[i].meta.moved, all))
  {
    hide SentMessages, Kept, Following;
  }

  lemma CapturedSupply(c: Config, s: System, s': System, i: nat, all: seq<Transaction>, kept: seq<Transaction>,
      following: seq<TxTo>)
    requires c.Valid() && i < |s.shards| == |s'.shards| == c.shardNum
    requires forall j :: 0 <= j < |s.shards| && j != i ==> s'.shards[j] == s.shards[j]
    requires s'.shards[i].accounts == s.shards[i].accounts && s'.shards[i].epoch == s.shards[i].epoch
    requires s'.shards[i].proposed == s.shards[i].proposed
    requires s'.partition == s.partition && s'.before == s.before && s'.epoch == s.epoch
    requires multiset(all) <= s.shards[i].pool
    requires s'.shards[i].pool == s.shards[i].pool - multiset(all) + multiset(kept)
    requires s'.txs == s.txs + multiset(following)
    requires kept == Kept(s.shards[i].meta.moved, all) && following == Following(s.shards[i].meta.moved, all)
    ensures Supply(c, s') == Supply(c, s)
  {
    MigrateValue(s.shards[i].meta.moved, all);
    hide Kept, Following;
    CapturedParts(s.txs, s.shards[i].pool, all, kept, following);
    SameAccountsValue(c, s, s', i);
  }

  lemma CapturedParts(txs: multiset<TxTo>, pool: multiset<Transaction>, all: seq<Transaction>, kept: seq<Transaction>,
      following: seq<TxTo>)
    requires multiset(all) <= pool
    requires InValues(kept) + ToValues(following) == InValues(all)
    ensures ToTotal(txs + multiset(following)) + InTotal(pool - multiset(all) + multiset(kept))
      == ToTotal(txs) + InTotal(pool)
  {
    TakenValue(pool, all);
    InValuesTotal(kept);
    TotalUnion(pool - multiset(all), multiset(kept), InValue);
    TotalUnion(txs, multiset(following), ToValue);
    ToValuesTotal(following);
  }

  lemma ProposeMigrationValue(c: Config, s: System, i: nat)
    requires Inv(c, s) && Enabled(c, s, ProposeMigration(i))
    ensures Supply(c, ApplyProposeMigration(c, s, i)) == Supply(c, s)
  {
    SameAccountsValue(c, s, ApplyProposeMigration(c, s, i), i);
  }

  // ---------------------------------------------------------------------------------------------
  // Committing blocks
  // ---------------------------------------------------------------------------------------------

  /** A shard that may still execute transactions is home to every account it sees as its own. */
  lemma LocalIsHome(c: Config, s: System, i: nat, a: Address)
    requires Inv(c, s) && i < |s.shards| && s.shards[i].captured == s.shards[i].epoch
    requires LocOf(s.shards[i].loc, a, c.shardNum) == i
    ensures HomeShard(c, s, a) == i
  {
    Facts(c, s, i);
    var d := LocOf(s.partition, a, c.shardNum);
    if s.shards[i].epoch != s.epoch {
      assert FinishedLast(s);
      assert 0 <= d < |s.shards|;
      assert s.shards[d].epoch != s.epoch;
    }
  }

  /** The accounts at home at shard `i`. */
  ghost function HomedAt(c: Config, s: System, i: nat): set<Address>
    requires c.shardNum > 0
  {
    set a | a in c.universe && HomeShard(c, s, a) == i
  }

  /** When only shard `i` changes its accounts, the home worth changes by the worth of those homed
      there. */
  lemma HomeWorthAt(c: Config, s: System, s': System, i: nat)
    requires c.Valid() && i < |s.shards| == |s'.shards| == c.shardNum
    requires forall j :: 0 <= j < |s.shards| ==> s'.shards[j].epoch == s.shards[j].epoch
    requires forall j :: 0 <= j < |s.shards| && j != i ==> s'.shards[j].accounts == s.shards[j].accounts
    requires s'.partition == s.partition && s'.before == s.before && s'.epoch == s.epoch
    ensures HomeWorth(c, s') - HomeWorth(c, s)
      == Worth(HomedAt(c, s, i), s'.shards[i].accounts) - Worth(HomedAt(c, s, i), s.shards[i].accounts)
  {
    var h := HomedAt(c, s, i);
    assert forall a :: HomeShard(c, s', a) == HomeShard(c, s, a);
    SumSplit(c.universe, h, a => HomeBalance(c, s, a));
    SumSplit(c.universe, h, a => HomeBalance(c, s', a));
    SumCongruent(c.universe - h, a => HomeBalance(c, s, a), a => HomeBalance(c, s', a));
    SumCongruent(h, a => HomeBalance(c, s, a), a => BalanceOf(s.shards[i].accounts, a));
    SumCongruent(h, a => HomeBalance(c, s', a), a => BalanceOf(s'.shards[i].accounts, a));
  }

  lemma HomedWithinSupply(c: Config, s: System, i: nat)
    requires Inv(c, s) && i < |s.shards|
    ensures Worth(HomedAt(c, s, i), s.shards[i].accounts) + HeldValue(s.shards[i]) <= Supply(c, s)
  {
    var h := HomedAt(c, s, i);
    SumSplit(c.universe, h, a => HomeBalance(c, s, a));
    SumCongruent(h, a => HomeBalance(c, s, a), a => BalanceOf(s.shards[i].accounts, a));
    SumNonNegative(c.universe - h, a => HomeBalance(c, s, a));
    PartsWithinSupply(c, s, i);
  }

  /** Executing a block moves value between the shard's accounts and its relay transactions, and
      clearing emptied accounts adds their initial balances. */
  lemma BlockValue(c: Config, s: System, i: nat, txs: seq<Transaction>)
    requires Inv(c, s) && i < |s.shards| && s.shards[i].proposed == Some(TxBlock(txs))
    requires Supply(c, s) < UINT256
    ensures var sh, h := s.shards[i], HomedAt(c, s, i);
      var m := ExecTxs(sh.accounts, sh.loc, c.shardNum, i, txs);
      && m.Some?
      && Worth(h, ClearEmpty(m.value))
        == Worth(h, sh.accounts) + InValues(txs) - OutValues(txs) + INIT_BALANCE * |Emptied(c.universe, m.value)|
  {
    Facts(c, s, i);
    var sh, h := s.shards[i], HomedAt(c, s, i);
    HomedWithinSupply(c, s, i);
    PartsWithinSupply(c, s, i);
    BlockTouchesHome(c, s, i, txs);
    ExecTxsValue(h, sh.accounts, sh.loc, c.shardNum, i, txs);
    var m := ExecTxs(sh.accounts, sh.loc, c.shardNum, i, txs).value;
    ClearedWorth(h, m);
    EmptiedAtHome(c, s, i, txs);
  }

  lemma BlockTouchesHome(c: Config, s: System, i: nat, txs: seq<Transaction>)
    requires Inv(c, s) && i < |s.shards| && s.shards[i].proposed == Some(TxBlock(txs))
    ensures forall k :: 0 <= k < |txs| ==>
      Touched(txs[k]) <= HomedAt(c, s, i) && RelayAtHome(s.shards[i].loc, c.shardNum, i, txs[k])
        && TxType(txs[k]) != BrokerTx
  {
    Facts(c, s, i);
    forall k | 0 <= k < |txs|
      ensures Touched(txs[k]) <= HomedAt(c, s, i) && RelayAtHome(s.shards[i].loc, c.shardNum, i, txs[k])
      ensures TxType(txs[k]) != BrokerTx
    {
      TouchedAtHome(c.universe, s.shards[i].loc, c.shardNum, i, txs[k]);
      forall a | a in Touched(txs[k])
        ensures a in HomedAt(c, s, i)
      {
        LocalIsHome(c, s, i, a);
      }
    }
  }

  lemma EmptiedAtHome(c: Config, s: System, i: nat, txs: seq<Transaction>)
    requires Inv(c, s) && i < |s.shards| && s.shards[i].proposed == Some(TxBlock(txs))
    ensures var m := ExecTxs(s.shards[i].accounts, s.shards[i].loc, c.shardNum, i, txs);
      m.Some? && Emptied(HomedAt(c, s, i), m.value) == Emptied(c.universe, m.value)
  {
    Facts(c, s, i);
    var sh := s.shards[i];
    var m := ExecTxs(sh.accounts, sh.loc, c.shardNum, i, txs).value;
    forall a | a in Emptied(c.universe, m)
      ensures a in HomedAt(c, s, i)
    {
      if LocOf(sh.loc, a, c.shardNum) != i {
        BlockFrame(c.universe, sh.accounts, sh.loc, c.shardNum, i, txs, a);
      }
      LocalIsHome(c, s, i, a);
    }
  }

  lemma CommitTxsValue(c: Config, s: System, i: nat)
    requires Inv(c, s) && Enabled(c, s, Commit(i)) && s.shards[i].proposed.value.TxBlock?
    requires Supply(c, s) < UINT256
    ensures var s' := ApplyCommit(c, s, i);
      Supply(c, s') == Supply(c, s) + INIT_BALANCE * (s'.cleared - s.cleared) && s'.lost == s.lost
  {
    var txs := s.shards[i].proposed.value.txs;
    BlockValue(c, s, i, txs);
    BlockSends(c, s, i);
    CommittedSupply(c, s, i, txs);
  }

  lemma CommittedSupply(c: Config, s: System, i: nat, txs: seq<Transaction>)
    requires c.Valid() && i < |s.shards| == c.shardNum && s.shards[i].proposed == Some(TxBlock(txs))
    requires var sh, h := s.shards[i], HomedAt(c, s, i);
      var m := ExecTxs(sh.accounts, sh.loc, c.shardNum, i, txs);
      && m.Some?
      && Worth(h, ClearEmpty(m.value))
        == Worth(h, sh.accounts) + InValues(txs) - OutValues(txs) + INIT_BALANCE * |Emptied(c.universe, m.value)|
    requires ToTotal(s.txs + multiset(Relayed(s.shards[i].loc, c.shardNum, txs))) == ToTotal(s.txs) + OutValues(txs)
    ensures var s' := ApplyCommit(c, s, i);
      Supply(c, s') == Supply(c, s) + INIT_BALANCE * (s'.cleared - s.cleared) && s'.lost == s.lost
  {
    CommittedShape(c, s, i, txs);
    CommittedParts(c, s, ApplyCommit(c, s, i), i, txs, Relayed(s.shards[i].loc, c.shardNum, txs),
      ExecTxs(s.shards[i].accounts, s.shards[i].loc, c.shardNum, i, txs).value);
  }

  lemma CommittedShape(c: Config, s: System, i: nat, txs: seq<Transaction>)
    requires c.Valid() && i < |s.shards| == c.shardNum && s.shards[i].proposed == Some(TxBlock(txs))
    requires ExecTxs(s.shards[i].accounts, s.shards[i].loc, c.shardNum, i, txs).Some?
    ensures var s', m := ApplyCommit(c, s, i), ExecTxs(s.shards[i].accounts, s.shards[i].loc, c.shardNum, i, txs).value;
      s' == s.(shards := s.shards[i := s.shards[i].(accounts := ClearEmpty(m), proposed := None)],
        txs := s.txs + multiset(Relayed(s.shards[i].loc, c.shardNum, txs)), reports := s'.reports,
        cleared := s.cleared + |Emptied(c.universe, m)|)
  {
  }

  lemma CommittedParts(c: Config, s: System, s': System, i: nat, txs: seq<Transaction>, sent: seq<TxTo>, m: Accounts)
    requires c.Valid() && i < |s.shards| == c.shardNum && s.shards[i].proposed == Some(TxBlock(txs))
    requires s' == s.(shards := s.shards[i := s.shards[i].(accounts := ClearEmpty(m), proposed := None)],
      txs := s.txs + multiset(sent), reports := s'.reports, cleared := s.cleared + |Emptied(c.universe, m)|)
    requires Worth(HomedAt(c, s, i), ClearEmpty(m))
      == Worth(HomedAt(c, s, i), s.shards[i].accounts) + InValues(txs) - OutValues(txs)
        + INIT_BALANCE * |Emptied(c.universe, m)|
    requires ToTotal(s.txs + multiset(sent)) == ToTotal(s.txs) + OutValues(txs)
    ensures Supply(c, s') == Supply(c, s) + INIT_BALANCE * (s'.cleared - s.cleared) && s'.lost == s.lost
  {
    HomeWorthAt(c, s, s', i);
    OneHolder(c, s, s', i);
  }

  /** The relay-2 transactions a committed block sends carry what its relay-1 transactions debited. */
  lemma BlockSends(c: Config, s: System, i: nat)
    requires Inv(c, s) && i < |s.shards| && s.shards[i].proposed.Some? && s.shards[i].proposed.value.TxBlock?
    ensures var sh := s.shards[i];
      ToTotal(s.txs + multiset(Relayed(sh.loc, c.shardNum, sh.proposed.value.txs)))
        == ToTotal(s.txs) + OutValues(sh.proposed.value.txs)
  {
    Facts(c, s, i);
    var sh := s.shards[i];
    var txs := sh.proposed.value.txs;
    RelayedValue(c.universe, sh.loc, c.shardNum, i, txs);
    ToValuesTotal(Relayed(sh.loc, c.shardNum, txs));
    TotalUnion(s.txs, multiset(Relayed(sh.loc, c.shardNum, txs)), ToValue);
  }

  /** A migration block moves homes but no value: what the new home installs is what the old one has. */
  lemma CommitMigrationValue(c: Config, s: System, i: nat)
    requires Inv(c, s) && Enabled(c, s, Commit(i)) && s.shards[i].proposed.value.MigrationBlock?
    ensures var s' := ApplyCommit(c, s, i);
      Supply(c, s') == Supply(c, s) && s'.cleared == s.cleared && s'.lost == s.lost
  {
    CommittingFacts(c, s, i);
    CommitMovesHomes(c, s, ApplyCommit(c, s, i), i);
  }

  lemma CommitMovesHomes(c: Config, s: System, s': System, i: nat)
    requires c.Valid() && Committing(c, s, i) && s' == ApplyCommit(c, s, i)
    ensures Supply(c, s') == Supply(c, s) && s'.cleared == s.cleared && s'.lost == s.lost
  {
    NothingCleared(c, s, i);
    assert Emptied(c.universe, Installed(c, s, i)) == {};
    forall a | a in c.universe
      ensures HomeBalance(c, s', a) == HomeBalance(c, s, a)
    {
      MovedHome(c, s, s', i, a);
    }
    SameHomes(c, s, s');
    OneHolder(c, s, s', i);
  }

  lemma MovedHome(c: Config, s: System, s': System, i: nat, a: Address)
    requires c.Valid() && Committing(c, s, i)
    requires |s'.shards| == |s.shards| && forall j :: 0 <= j < |s.shards| && j != i ==> s'.shards[j] == s.shards[j]
    requires s'.shards[i].accounts == Installed(c, s, i) && s'.shards[i].epoch == s.epoch
    requires s'.partition == s.partition && s'.before == s.before && s'.epoch == s.epoch
    ensures HomeBalance(c, s', a) == HomeBalance(c, s, a)
  {
    InstalledAt(c, s, i, a);
    assert 0 <= LocOf(s.partition, a, c.shardNum) < c.shardNum && 0 <= LocOf(s.before, a, c.shardNum) < c.shardNum;
  }
}
