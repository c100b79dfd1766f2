/** Conservation of transactions over the runs of `ShardSystem`: every injected transaction is at every
    moment in exactly one place, and every executed relay-1 transaction has exactly one relay-2
    transaction, in exactly one place. */
module ShardTxs {
  import opened Types
  import opened Sums
  import opened Execution
  import opened Routing
  import opened ShardSystem
  import opened ShardInvariant
  import opened ShardSteps
  import opened ShardValue
  import opened ShardSafety
  import opened ShardLeaks

  /** The transaction that was injected: a relay transaction carries its hash. */
  function Origin(tx: Transaction): Transaction
  {
    match tx.rHash
    case NoHash => tx
    case HashOf(o) => o
  }

  /** What is counted: all forms of one injected transaction, or one relay-2 transaction. */
  datatype Mark = Whole(origin: Transaction) | Second(tx: Transaction)
  {
    function Weight(tx: Transaction): nat
    {
      match this
      case Whole(o) => if Origin(tx) == o then 1 else 0
      case Second(t) => if tx == t && tx.relayStage == RELAY2 then 1 else 0
    }

    function Count(txs: seq<Transaction>): nat
    {
      if txs == [] then 0 else Count(txs[..|txs| - 1]) + Weight(txs[|txs| - 1])
    }

    function CountTo(ts: seq<TxTo>): nat
    {
      if ts == [] then 0 else CountTo(ts[..|ts| - 1]) + Weight(ts[|ts| - 1].tx)
    }

    ghost function Weigh(): Transaction -> int
    {
      tx => Weight(tx)
    }

    ghost function WeighTo(): TxTo -> int
    {
      (t: TxTo) => Weight(t.tx)
    }
  }

  // ---------------------------------------------------------------------------------------------
  // Where transactions are
  // ---------------------------------------------------------------------------------------------

  ghost function OnWire(k: Mark, s: System): int
  {
    Total(s.txs, k.WeighTo())
  }

  ghost function PoolAt(k: Mark, s: System, j: Int64): int
  {
    if 0 <= j < |s.shards| then Total(s.shards[j].pool, k.Weigh()) else 0
  }

  function BlockCount(k: Mark, sh: Shard): nat
  {
    match sh.proposed
    case Some(TxBlock(txs)) => k.Count(txs)
    case _ => 0
  }

  ghost function BlockAt(k: Mark, s: System, j: Int64): int
  {
    if 0 <= j < |s.shards| then BlockCount(k, s.shards[j]) else 0
  }

  ghost function InPools(c: Config, k: Mark, s: System): int
    requires c.Valid()
  {
    Sum(ShardIds(c.shardNum), (j: Int64) => PoolAt(k, s, j))
  }

  ghost function InProposals(c: Config, k: Mark, s: System): int
    requires c.Valid()
  {
    Sum(ShardIds(c.shardNum), (j: Int64) => BlockAt(k, s, j))
  }

  /** Everything still under way. */
  ghost function Live(c: Config, k: Mark, s: System): int
    requires c.Valid()
  {
    OnWire(k, s) + InPools(c, k, s) + InProposals(c, k, s)
  }

  // ---------------------------------------------------------------------------------------------
  // What a run has done so far
  // ---------------------------------------------------------------------------------------------

  function InjectedBy(step: Step): seq<Transaction>
  {
    if step.Inject? then [step.tx] else []
  }

  /** The transactions of the block that a step commits. */
  function ExecutedBy(s: System, step: Step): seq<Transaction>
  {
    if step.Commit? && step.at < |s.shards| && s.shards[step.at].proposed.Some?
      && s.shards[step.at].proposed.value.TxBlock?
    then s.shards[step.at].proposed.value.txs else []
  }

  /** The transactions packed into a block that fails to execute. */
  function FailedBy(c: Config, s: System, step: Step): seq<Transaction>
    requires c.Valid()
  {
    if step.ProposeTxs? && step.at < |s.shards| && !Executes(c, s.shards[step.at], step.at, step.taken)
    then Stay(s.shards[step.at].loc, c.shardNum, step.at, step.taken) else []
  }

  function Injected(steps: seq<Step>): seq<Transaction>
  {
    if steps == [] then [] else Injected(steps[..|steps| - 1]) + InjectedBy(steps[|steps| - 1])
  }

  function Executed(states: seq<System>, steps: seq<Step>): seq<Transaction>
    requires |states| > |steps|
  {
    if steps == [] then [] else
    Executed(states, steps[..|steps| - 1]) + ExecutedBy(states[|steps| - 1], steps[|steps| - 1])
  }

  function Failed(c: Config, states: seq<System>, steps: seq<Step>): seq<Transaction>
    requires c.Valid() && |states| > |steps|
  {
    if steps == [] then [] else
    Failed(c, states, steps[..|steps| - 1]) + FailedBy(c, states[|steps| - 1], steps[|steps| - 1])
  }

  /** Of executed transactions, those that complete: ordinary ones and relay-2 ones. */
  function Completed(txs: seq<Transaction>): seq<Transaction>
  {
    if txs == [] then [] else
    var front, tx := Completed(txs[..|txs| - 1]), txs[|txs| - 1];
    if tx.relayStage == RELAY1 then front else front + [tx]
  }

  /** The relay-1 ones, each in the form it is relayed in. */
  function Debited(txs: seq<Transaction>): seq<Transaction>
  {
    if txs == [] then [] else
    var front, tx := Debited(txs[..|txs| - 1]), txs[|txs| - 1];
    if tx.relayStage == RELAY1 then front + [tx.(relayStage := RELAY2)] else front
  }

  // ---------------------------------------------------------------------------------------------
  // Counting lists
  // ---------------------------------------------------------------------------------------------

  lemma CountSnoc(k: Mark, txs: seq<Transaction>, tx: Transaction)
    ensures k.Count(txs + [tx]) == k.Count(txs) + k.Weight(tx)
  {
    assert (txs + [tx])[..|txs|] == txs;
  }

  lemma CountToSnoc(k: Mark, ts: seq<TxTo>, t: TxTo)
    ensures k.CountTo(ts + [t]) == k.CountTo(ts) + k.Weight(t.tx)
  {
    assert (ts + [t])[..|ts|] == ts;
  }

  lemma {:induction false} CountBoth(k: Mark, a: seq<Transaction>, b: seq<Transaction>)
    ensures k.Count(a + b) == k.Count(a) + k.Count(b)
    decreases |b|
  {
    if b == [] {
      assert a + b == a;
    } else {
      var front, tx := b[..|b| - 1], b[|b| - 1];
      CountBoth(k, a, front);
      CountSnoc(k, a + front, tx);
      assert a + front + [tx] == a + b;
    }
  }

  lemma {:induction false} CountTotal(k: Mark, txs: seq<Transaction>)
    ensures Total(multiset(txs), k.Weigh()) == k.Count(txs)
  {
    if txs != [] {
      CountTotal(k, txs[..|txs| - 1]);
      SnocMultiset(txs);
      TotalAdd(multiset(txs[..|txs| - 1]), k.Weigh(), txs[|txs| - 1]);
    }
  }

  lemma {:induction false} CountToTotal(k: Mark, ts: seq<TxTo>)
    ensures Total(multiset(ts), k.WeighTo()) == k.CountTo(ts)
  {
    if ts != [] {
      CountToTotal(k, ts[..|ts| - 1]);
      SnocMultiset(ts);
      TotalAdd(multiset(ts[..|ts| - 1]), k.WeighTo(), ts[|ts| - 1]);
    }
  }

  /** Packing splits what was taken. */
  lemma {:induction false} PackCount(k: Mark, loc: map<Address, int>, shardNum: int, self: int, txs: seq<Transaction>)
    requires shardNum > 0
    ensures k.Count(Stay(loc, shardNum, self, txs)) + k.CountTo(PassOn(loc, shardNum, self, txs)) == k.Count(txs)
  {
    if txs != [] {
      var front, tx := txs[..|txs| - 1], txs[|txs| - 1];
      PackCount(k, loc, shardNum, self, front);
      CountSnoc(k, Stay(loc, shardNum, self, front), tx);
      CountToSnoc(k, PassOn(loc, shardNum, self, front), TxTo(LocOf(loc, KeyAccount(tx), shardNum), tx));
    }
  }

  /** A repartition splits the pool. */
  lemma {:induction false} MigrateCount(k: Mark, moved: map<Address, int>, txs: seq<Transaction>)
    ensures k.Count(Kept(moved, txs)) + k.CountTo(Following(moved, txs)) == k.Count(txs)
  {
    if txs != [] {
      var front, tx := txs[..|txs| - 1], txs[|txs| - 1];
      MigrateCount(k, moved, front);
      CountSnoc(k, Kept(moved, front), tx);
      if KeyAccount(tx) in moved {
        CountToSnoc(k, Following(moved, front), TxTo(moved[KeyAccount(tx)], tx));
      }
    }
  }

  /** Turning pooled transactions into block transactions drops none and keeps their origins. */
  lemma {:induction false} ModifyCount(k: Mark, universe: set<Address>, loc: map<Address, int>, shardNum: int,
      self: int, txs: seq<Transaction>)
    requires shardNum > 0
    requires forall i :: 0 <= i < |txs| ==> Pooled(universe, txs[i]) && LocOf(loc, KeyAccount(txs[i]), shardNum) == self
    ensures k.Count(Modify(loc, shardNum, self, txs)) == k.Count(txs)
  {
    if txs != [] {
      var front, tx := txs[..|txs| - 1], txs[|txs| - 1];
      ModifyCount(k, universe, loc, shardNum, self, front);
      CountSnoc(k, Modify(loc, shardNum, self, front), Staged(loc, shardNum, tx));
      assert Pooled(universe, tx) && !Misplaced(loc, shardNum, self, tx);
      assert k.Weight(Staged(loc, shardNum, tx)) == k.Weight(tx);
    }
  }

  /** What a block sends on is what its relay-1 transactions become. */
  lemma {:induction false} RelayedCount(k: Mark, loc: map<Address, int>, shardNum: int, txs: seq<Transaction>)
    requires shardNum > 0
    ensures k.CountTo(Relayed(loc, shardNum, txs)) == k.Count(Debited(txs))
  {
    if txs != [] {
      var front, tx := txs[..|txs| - 1], txs[|txs| - 1];
      RelayedCount(k, loc, shardNum, front);
      if tx.relayStage == RELAY1 {
        CountToSnoc(k, Relayed(loc, shardNum, front), RelayedTx(loc, shardNum, tx));
        CountSnoc(k, Debited(front), tx.(relayStage := RELAY2));
      }
    }
  }

  /** An executed transaction completes or is relayed, under the same origin. */
  lemma {:induction false} CompletedCount(o: Transaction, txs: seq<Transaction>)
    requires forall tx :: tx in txs && tx.relayStage == RELAY1 ==> tx.rHash != NoHash
    ensures Whole(o).Count(Completed(txs)) + Whole(o).Count(Debited(txs)) == Whole(o).Count(txs)
  {
    if txs != [] {
      var front, tx := txs[..|txs| - 1], txs[|txs| - 1];
      assert forall x :: x in front ==> x in txs;
      CompletedCount(o, front);
      if tx.relayStage == RELAY1 {
        CountSnoc(Whole(o), Debited(front), tx.(relayStage := RELAY2));
        assert Origin(tx.(relayStage := RELAY2)) == Origin(tx);
      } else {
        CountSnoc(Whole(o), Completed(front), tx);
      }
    }
  }

  // ---------------------------------------------------------------------------------------------
  // One step
  // ---------------------------------------------------------------------------------------------

  ghost function HeldCount(k: Mark, sh: Shard): int
  {
    Total(sh.pool, k.Weigh()) + BlockCount(k, sh)
  }

  lemma OneHolderCount(c: Config, k: Mark, s: System, s': System, i: nat)
    requires c.Valid() && i < |s.shards| == |s'.shards| == c.shardNum
    requires forall j :: 0 <= j < |s.shards| && j != i ==> s'.shards[j] == s.shards[j]
    ensures Live(c, k, s') - OnWire(k, s')
      == Live(c, k, s) - OnWire(k, s) + HeldCount(k, s'.shards[i]) - HeldCount(k, s.shards[i])
  {
    OnePool(c, k, s, s', i);
    OneBlock(c, k, s, s', i);
  }

  lemma OnePool(c: Config, k: Mark, s: System, s': System, i: nat)
    requires c.Valid() && i < |s.shards| == |s'.shards| == c.shardNum
    requires forall j :: 0 <= j < |s.shards| && j != i ==> s'.shards[j] == s.shards[j]
    ensures InPools(c, k, s')
      == InPools(c, k, s) + Total(s'.shards[i].pool, k.Weigh()) - Total(s.shards[i].pool, k.Weigh())
  {
    ShardIdsCount(c.shardNum);
    SumUpdate<Int64>(ShardIds(c.shardNum), (j: Int64) => PoolAt(k, s, j), (j: Int64) => PoolAt(k, s', j), i as Int64);
  }

  lemma OneBlock(c: Config, k: Mark, s: System, s': System, i: nat)
    requires c.Valid() && i < |s.shards| == |s'.shards| == c.shardNum
    requires forall j :: 0 <= j < |s.shards| && j != i ==> s'.shards[j] == s.shards[j]
    ensures InProposals(c, k, s') == InProposals(c, k, s) + BlockCount(k, s'.shards[i]) - BlockCount(k, s.shards[i])
  {
    ShardIdsCount(c.shardNum);
    SumUpdate<Int64>(ShardIds(c.shardNum), (j: Int64) => BlockAt(k, s, j), (j: Int64) => BlockAt(k, s', j), i as Int64);
  }

  lemma SameHoldersCount(c: Config, k: Mark, s: System, s': System)
    requires c.Valid() && s'.shards == s.shards
    ensures Live(c, k, s') - OnWire(k, s') == Live(c, k, s) - OnWire(k, s)
  {
    SumCongruent(ShardIds(c.shardNum), (j: Int64) => PoolAt(k, s, j), (j: Int64) => PoolAt(k, s', j));
    SumCongruent(ShardIds(c.shardNum), (j: Int64) => BlockAt(k, s, j), (j: Int64) => BlockAt(k, s', j));
  }

  lemma TakenCount(k: Mark, pool: multiset<Transaction>, taken: seq<Transaction>)
    requires multiset(taken) <= pool
    ensures Total(pool - multiset(taken), k.Weigh()) == Total(pool, k.Weigh()) - k.Count(taken)
  {
    TotalUnion(pool - multiset(taken), multiset(taken), k.Weigh());
    assert pool - multiset(taken) + multiset(taken) == pool;
    CountTotal(k, taken);
  }

  lemma SentCount(k: Mark, txs: multiset<TxTo>, sent: seq<TxTo>)
    ensures Total(txs + multiset(sent), k.WeighTo()) == Total(txs, k.WeighTo()) + k.CountTo(sent)
  {
    TotalUnion(txs, multiset(sent), k.WeighTo());
    CountToTotal(k, sent);
  }

  lemma InjectCount(c: Config, k: Mark, s: System, s': System, tx: Transaction)
    requires c.Valid() && s'.shards == s.shards
    requires s'.txs == s.txs + multiset{TxTo(LocOf(s.partition, tx.sender, c.shardNum), tx)}
    ensures Live(c, k, s') == Live(c, k, s) + k.Weight(tx)
  {
    SameHoldersCount(c, k, s, s');
    TotalAdd(s.txs, k.WeighTo(), TxTo(LocOf(s.partition, tx.sender, c.shardNum), tx));
  }

  lemma DeliverTxCount(c: Config, k: Mark, s: System, t: TxTo)
    requires c.Valid() && |s.shards| == c.shardNum && 0 <= t.dest < c.shardNum && t in s.txs
    ensures Live(c, k, ApplyDeliverTx(c, s, t)) == Live(c, k, s)
  {
    OneHolderCount(c, k, s, ApplyDeliverTx(c, s, t), t.dest);
    TotalRemove(s.txs, k.WeighTo(), t);
    TotalAdd(s.shards[t.dest].pool, k.Weigh(), t.tx);
  }

  /** A leader's other steps touch neither pool nor proposed transactions nor the wire. */
  lemma SameTxsCount(c: Config, k: Mark, s: System, s': System, i: nat)
    requires c.Valid() && i < |s.shards| == |s'.shards| == c.shardNum && s'.txs == s.txs
    requires forall j :: 0 <= j < |s.shards| && j != i ==> s'.shards[j] == s.shards[j]
    requires s'.shards[i].pool == s.shards[i].pool && BlockCount(k, s'.shards[i]) == BlockCount(k, s.shards[i])
    ensures Live(c, k, s') == Live(c, k, s)
  {
    OneHolderCount(c, k, s, s', i);
  }

  lemma CaptureCount(c: Config, k: Mark, s: System, i: nat, all: seq<Transaction>)
    requires c.Valid() && i < |s.shards| == c.shardNum && multiset(all) <= s.shards[i].pool
    ensures Live(c, k, ApplyCapture(c, s, i, all)) == Live(c, k, s)
  {
    var s', moved := ApplyCapture(c, s, i, all), s.shards[i].meta.moved;
    CaptureShape(c, s, s', i, all);
    MigrateCount(k, moved, all);
    CapturedCount(c, k, s, s', i, all, Kept(moved, all), Following(moved, all));
  }

  lemma CapturedCount(c: Config, k: Mark, s: System, s': System, i: nat, all: seq<Transaction>, kept: seq<Transaction>,
      following: seq<TxTo>)
    requires c.Valid() && i < |s.shards| == |s'.shards| == c.shardNum && multiset(all) <= s.shards[i].pool
    requires forall j :: 0 <= j < |s.shards| && j != i ==> s'.shards[j] == s.shards[j]
    requires s'.shards[i].pool == s.shards[i].pool - multiset(all) + multiset(kept)
    requires s'.txs == s.txs + multiset(following)
    requires s'.shards[i].proposed == s.shards[i].proposed
    requires k.Count(kept) + k.CountTo(following) == k.Count(all)
    ensures Live(c, k, s') == Live(c, k, s)
  {
    OneHolderCount(c, k, s, s', i);
    TakenCount(k, s.shards[i].pool, all);
    CountTotal(k, kept);
    TotalUnion(s.shards[i].pool - multiset(all), multiset(kept), k.Weigh());
    SentCount(k, s.txs, following);
  }

  lemma ProposeTxsCount(c: Config, k: Mark, s: System, i: nat, taken: seq<Transaction>)
    requires c.Valid() && i < |s.shards| == |s.reported| == c.shardNum && Inv(c, s)
    requires Enabled(c, s, ProposeTxs(i, taken))
    ensures Live(c, k, ApplyProposeTxs(c, s, i, taken)) + k.Count(FailedBy(c, s, ProposeTxs(i, taken))) == Live(c, k, s)
  {
    hide Live, Modify, ApplyProposeTxs, Inv;
    var s', loc := ApplyProposeTxs(c, s, i, taken), s.shards[i].loc;
    var packed := Stay(loc, c.shardNum, i, taken);
    PackCount(k, loc, c.shardNum, i, taken);
    PackedCount(c, k, s, i, taken);
    ProposedShape(c, s, s', i, taken);
    ProposedExactly(c, s, i, taken);
    ProposedCount(c, k, s, s', i, taken, packed, PassOn(loc, c.shardNum, i, taken), Modify(loc, c.shardNum, i, packed),
      FailedBy(c, s, ProposeTxs(i, taken)));
  }

  lemma ProposedExactly(c: Config, s: System, i: nat, taken: seq<Transaction>)
    requires c.Valid() && i < |s.shards| == c.shardNum && s.shards[i].proposed.None?
    ensures var s', packed := ApplyProposeTxs(c, s, i, taken), Stay(s.shards[i].loc, c.shardNum, i, taken);
      if Executes(c, s.shards[i], i, taken)
      then s'.shards[i].proposed == Some(TxBlock(Modify(s.shards[i].loc, c.shardNum, i, packed)))
      else s'.shards[i].proposed == None
  {
  }

  lemma PackedCount(c: Config, k: Mark, s: System, i: nat, taken: seq<Transaction>)
    requires Inv(c, s) && i < |s.shards| && multiset(taken) <= s.shards[i].pool
    ensures var packed := Stay(s.shards[i].loc, c.shardNum, i, taken);
      k.Count(Modify(s.shards[i].loc, c.shardNum, i, packed)) == k.Count(packed)
  {
    Facts(c, s, i);
    var sh := s.shards[i];
    var packed := Stay(sh.loc, c.shardNum, i, taken);
    StayBelongs(sh.loc, c.shardNum, i, taken);
    forall j | 0 <= j < |packed|
      ensures Pooled(c.universe, packed[j])
    {
      assert packed[j] in sh.pool;
    }
    ModifyCount(k, c.universe, sh.loc, c.shardNum, i, packed);
  }

  lemma ProposedCount(c: Config, k: Mark, s: System, s': System, i: nat, taken: seq<Transaction>,
      packed: seq<Transaction>, passed: seq<TxTo>, block: seq<Transaction>, failed: seq<Transaction>)
    requires c.Valid() && i < |s.shards| == |s'.shards| == c.shardNum && multiset(taken) <= s.shards[i].pool
    requires forall j :: 0 <= j < |s.shards| && j != i ==> s'.shards[j] == s.shards[j]
    requires s.shards[i].proposed.None?
    requires k.Count(packed) + k.CountTo(passed) == k.Count(taken) && k.Count(block) == k.Count(packed)
    requires s'.txs == s.txs + multiset(passed) && s'.shards[i].pool == s.shards[i].pool - multiset(taken)
    requires (s'.shards[i].proposed == Some(TxBlock(block)) && failed == [])
          || (s'.shards[i].proposed == None && failed == packed)
    ensures Live(c, k, s') + k.Count(failed) == Live(c, k, s)
  {
    OneHolderCount(c, k, s, s', i);
    TakenCount(k, s.shards[i].pool, taken);
    SentCount(k, s.txs, passed);
  }

  lemma CommitTxsCount(c: Config, k: Mark, s: System, i: nat, txs: seq<Transaction>)
    requires c.Valid() && i < |s.shards| == c.shardNum && s.shards[i].proposed == Some(TxBlock(txs))
    requires ExecTxs(s.shards[i].accounts, s.shards[i].loc, c.shardNum, i, txs).Some?
    ensures Live(c, k, ApplyCommit(c, s, i)) + k.Count(txs) == Live(c, k, s) + k.Count(Debited(txs))
  {
    var s', sent := ApplyCommit(c, s, i), Relayed(s.shards[i].loc, c.shardNum, txs);
    CommittedShape(c, s, i, txs);
    OneHolderCount(c, k, s, s', i);
    SentCount(k, s.txs, sent);
    RelayedCount(k, s.shards[i].loc, c.shardNum, txs);
  }

  /** What is under way changes by what is injected and relayed, less what is executed and what fails. */
  lemma StepCount(c: Config, k: Mark, s: System, s': System, step: Step)
    requires c.Valid() && Sound(c, s, s', step)
    ensures Live(c, k, s') + k.Count(ExecutedBy(s, step)) + k.Count(FailedBy(c, s, step))
      == Live(c, k, s) + k.Count(InjectedBy(step)) + k.Count(Debited(ExecutedBy(s, step)))
  {
    if step.ProposeTxs? {
      ProposeTxsCount(c, k, s, step.at, step.taken);
    } else if step.Commit? {
      CommitCount(c, k, s, step.at);
    } else {
      QuietCount(c, k, s, step);
    }
  }

  lemma CommitCount(c: Config, k: Mark, s: System, i: nat)
    requires c.Valid() && Inv(c, s) && i < |s.shards| == c.shardNum && s.shards[i].proposed.Some?
    ensures Live(c, k, ApplyCommit(c, s, i)) + k.Count(ExecutedBy(s, Commit(i)))
      == Live(c, k, s) + k.Count(Debited(ExecutedBy(s, Commit(i))))
  {
    hide Live, ApplyCommit;
    if s.shards[i].proposed.value.TxBlock? {
      BlockExecutes(c, s, i);
      CommitTxsCount(c, k, s, i, s.shards[i].proposed.value.txs);
    } else {
      CommitMigrationCount(c, k, s, i);
    }
  }

  lemma BlockExecutes(c: Config, s: System, i: nat)
    requires Inv(c, s) && i < |s.shards| && s.shards[i].proposed.Some? && s.shards[i].proposed.value.TxBlock?
    ensures ExecTxs(s.shards[i].accounts, s.shards[i].loc, c.shardNum, i, s.shards[i].proposed.value.txs).Some?
  {
    Facts(c, s, i);
  }

  lemma CommitMigrationCount(c: Config, k: Mark, s: System, i: nat)
    requires c.Valid() && i < |s.shards| == c.shardNum && s.shards[i].proposed.Some?
    requires s.shards[i].proposed.value.MigrationBlock?
    ensures Live(c, k, ApplyCommit(c, s, i)) == Live(c, k, s)
  {
    hide Live;
    SameTxsCount(c, k, s, ApplyCommit(c, s, i), i);
  }

  lemma QuietCount(c: Config, k: Mark, s: System, step: Step)
    requires c.Valid() && |s.shards| == |s.reported| == c.shardNum && Enabled(c, s, step)
    requires !step.Commit? && !step.ProposeTxs?
    ensures Live(c, k, Apply(c, s, step)) == Live(c, k, s) + k.Count(InjectedBy(step))
  {
    hide Live;
    if step.Inject? || step.HandleReport? || step.CheckEpochs? || step.Repartition? {
      SupervisorCount(c, k, s, step);
    } else {
      LeaderCount(c, k, s, step);
    }
  }

  lemma SupervisorCount(c: Config, k: Mark, s: System, step: Step)
    requires c.Valid() && |s.shards| == |s.reported| == c.shardNum && Enabled(c, s, step)
    requires step.Inject? || step.HandleReport? || step.CheckEpochs? || step.Repartition?
    ensures Live(c, k, Apply(c, s, step)) == Live(c, k, s) + k.Count(InjectedBy(step))
  {
    hide Live;
    var s' := Apply(c, s, step);
    if step.Inject? {
      InjectCount(c, k, s, s', step.tx);
      CountSnoc(k, [], step.tx);
      assert [] + [step.tx] == [step.tx];
    } else {
      SameLive(c, k, s, s');
    }
  }

  lemma SameLive(c: Config, k: Mark, s: System, s': System)
    requires c.Valid() && s'.shards == s.shards && s'.txs == s.txs
    ensures Live(c, k, s') == Live(c, k, s)
  {
    SameHoldersCount(c, k, s, s');
  }

  lemma LeaderCount(c: Config, k: Mark, s: System, step: Step)
    requires c.Valid() && |s.shards| == |s.reported| == c.shardNum && Enabled(c, s, step)
    requires step.DeliverStart? || step.DeliverMigration? || step.DeliverTx? || step.Capture? || step.ProposeMigration?
    ensures Live(c, k, Apply(c, s, step)) == Live(c, k, s)
  {
    hide Live, ApplyDeliverTx, ApplyCapture;
    match step {
      case DeliverStart(t) => SameTxsCount(c, k, s, ApplyDeliverStart(c, s, t), t.dest);
      case DeliverMigration(m) => SameTxsCount(c, k, s, ApplyDeliverMigration(c, s, m), m.dest);
      case DeliverTx(t) => DeliverTxCount(c, k, s, t);
      case Capture(i, all) => CaptureCount(c, k, s, i, all);
      case ProposeMigration(i) => SameTxsCount(c, k, s, ApplyProposeMigration(c, s, i), i);
    }
  }

  // ---------------------------------------------------------------------------------------------
  // Whole runs
  // ---------------------------------------------------------------------------------------------

  lemma {:induction false} DebitedBoth(a: seq<Transaction>, b: seq<Transaction>)
    ensures Debited(a + b) == Debited(a) + Debited(b) && Completed(a + b) == Completed(a) + Completed(b)
    decreases |b|
  {
    if b == [] {
      assert a + b == a;
    } else {
      var front, tx := b[..|b| - 1], b[|b| - 1];
      DebitedBoth(a, front);
      assert (a + b)[..|a + b| - 1] == a + front;
    }
  }

  lemma NothingLive(c: Config, k: Mark, s: System)
    requires c.Valid() && Init(c, s)
    ensures Live(c, k, s) == 0
  {
    ShardIdsCount(c.shardNum);
    SumScaled(ShardIds(c.shardNum), (j: Int64) => PoolAt(k, s, j), 0);
    SumScaled(ShardIds(c.shardNum), (j: Int64) => BlockAt(k, s, j), 0);
  }

  lemma {:induction false} RunCount(c: Config, mark: Mark, states: seq<System>, steps: seq<Step>, k: nat)
    requires c.Valid() && Run(c, states, steps) && k <= |steps|
    ensures Live(c, mark, states[k]) + mark.Count(Executed(states, steps[..k]))
      + mark.Count(Failed(c, states, steps[..k]))
      == mark.Count(Injected(steps[..k])) + mark.Count(Debited(Executed(states, steps[..k])))
  {
    hide Live, Inv, Next, Sound;
    if k == 0 {
      NothingLive(c, mark, states[0]);
    } else {
      RunCount(c, mark, states, steps, k - 1);
      RunSound(c, states, steps, k);
      StepCount(c, mark, states[k - 1], states[k], steps[k - 1]);
      OneMore(c, mark, states, steps, k);
    }
  }

  lemma OneMore(c: Config, mark: Mark, states: seq<System>, steps: seq<Step>, k: nat)
    requires c.Valid() && |states| == |steps| + 1 && 0 < k <= |steps|
    ensures var s, step := states[k - 1], steps[k - 1];
      && mark.Count(Executed(states, steps[..k]))
        == mark.Count(Executed(states, steps[..k - 1])) + mark.Count(ExecutedBy(s, step))
      && mark.Count(Debited(Executed(states, steps[..k])))
        == mark.Count(Debited(Executed(states, steps[..k - 1]))) + mark.Count(Debited(ExecutedBy(s, step)))
      && mark.Count(Failed(c, states, steps[..k]))
        == mark.Count(Failed(c, states, steps[..k - 1])) + mark.Count(FailedBy(c, s, step))
      && mark.Count(Injected(steps[..k])) == mark.Count(Injected(steps[..k - 1])) + mark.Count(InjectedBy(step))
  {
    var s, step := states[k - 1], steps[k - 1];
    assert steps[..k][..k - 1] == steps[..k - 1];
    CountBoth(mark, Executed(states, steps[..k - 1]), ExecutedBy(s, step));
    DebitedBoth(Executed(states, steps[..k - 1]), ExecutedBy(s, step));
    CountBoth(mark, Debited(Executed(states, steps[..k - 1])), Debited(ExecutedBy(s, step)));
    CountBoth(mark, Failed(c, states, steps[..k - 1]), FailedBy(c, s, step));
    CountBoth(mark, Injected(steps[..k - 1]), InjectedBy(step));
  }

  /** The law of transactions, over every run: each injected transaction, as often as it was injected, is
      on the wire, in a pool, in a proposed block, completed, or lost with a failed proposal. None is
      dropped and none is doubled. */
  lemma TransactionsConserved(c: Config, states: seq<System>, steps: seq<Step>, k: nat, o: Transaction)
    requires c.Valid() && Run(c, states, steps) && k <= |steps|
    ensures Whole(o).Count(Injected(steps[..k]))
      == OnWire(Whole(o), states[k]) + InPools(c, Whole(o), states[k]) + InProposals(c, Whole(o), states[k])
       + Whole(o).Count(Completed(Executed(states, steps[..k]))) + Whole(o).Count(Failed(c, states, steps[..k]))
  {
    RunCount(c, Whole(o), states, steps, k);
    ExecutedCarryOrigins(c, states, steps, k);
    CompletedCount(o, Executed(states, steps[..k]));
  }

  lemma {:induction false} ExecutedCarryOrigins(c: Config, states: seq<System>, steps: seq<Step>, k: nat)
    requires Run(c, states, steps) && k <= |steps|
    ensures forall tx :: tx in Executed(states, steps[..k]) && tx.relayStage == RELAY1 ==> tx.rHash != NoHash
  {
    if k > 0 {
      ExecutedCarryOrigins(c, states, steps, k - 1);
      assert steps[..k][..k - 1] == steps[..k - 1];
      RunInv(c, states, steps, k - 1);
      BlockCarriesOrigins(c, states[k - 1], steps[k - 1]);
    }
  }

  lemma BlockCarriesOrigins(c: Config, s: System, step: Step)
    requires Inv(c, s)
    ensures forall tx :: tx in ExecutedBy(s, step) && tx.relayStage == RELAY1 ==> tx.rHash != NoHash
  {
    var txs := ExecutedBy(s, step);
    if txs != [] {
      Facts(c, s, step.at);
      forall j | 0 <= j < |txs|
        ensures txs[j].relayStage == RELAY1 ==> txs[j].rHash != NoHash
      {
        assert AtHome(c.universe, s.shards[step.at].loc, c.shardNum, step.at, txs[j]);
      }
    }
  }

  /** Every executed relay-1 transaction has exactly one relay-2 transaction: on the wire, in a pool, in
      a proposed block, executed, or lost with a failed proposal. There are no other relay-2
      transactions. */
  lemma RelaysConserved(c: Config, states: seq<System>, steps: seq<Step>, k: nat, t: Transaction)
    requires c.Valid() && Run(c, states, steps) && k <= |steps| && t.relayStage == RELAY2
    ensures Second(t).Count(Debited(Executed(states, steps[..k])))
      == OnWire(Second(t), states[k]) + InPools(c, Second(t), states[k]) + InProposals(c, Second(t), states[k])
       + Second(t).Count(Executed(states, steps[..k])) + Second(t).Count(Failed(c, states, steps[..k]))
  {
    RunCount(c, Second(t), states, steps, k);
    InjectedUndetermined(c, states, steps, k, t);
  }

  lemma {:induction false} InjectedUndetermined(c: Config, states: seq<System>, steps: seq<Step>, k: nat,
      t: Transaction)
    requires Run(c, states, steps) && k <= |steps|
    ensures Second(t).Count(Injected(steps[..k])) == 0
  {
    hide Next, Init;
    if k > 0 {
      InjectedUndetermined(c, states, steps, k - 1, t);
      assert steps[..k][..k - 1] == steps[..k - 1];
      assert StepAt(c, states, steps, k - 1);
      InjectsUndetermined(c, states[k - 1], states[k], steps[k - 1], t);
      CountBoth(Second(t), Injected(steps[..k - 1]), InjectedBy(steps[k - 1]));
    }
  }

  lemma InjectsUndetermined(c: Config, s: System, s': System, step: Step, t: Transaction)
    requires Next(c, s, s', step)
    ensures Second(t).Count(InjectedBy(step)) == 0
  {
  }
}
