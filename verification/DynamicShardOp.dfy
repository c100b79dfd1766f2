/** What a leader of a dynamically sharded system proposes
    (consensus/pbft/insideop/dynamicshardop.go): packing transactions that belong here, redirecting the
    others, and at a repartition sending accounts and transactions out before the migration block. */
module DynamicShardOps {
  import opened Types
  import opened Migration
  import opened Routing
  import opened ShardSystem
  import opened Chains
  import opened TxPools
  import opened TxBlockOps
  import opened MigrationOps

  const MIGRATED_TX_NUM: nat := 0x1000_0000
  const SUPERVISOR_SHARD: int := 0x7fff_ffff

  // ---------------------------------------------------------------------------------------------
  // Destinations in broker mode
  // ---------------------------------------------------------------------------------------------

  /** An ordinary transaction whose ends live in different shards goes back to the supervisor. */
  function DestByState(tx: Transaction, sender: int, recipient: int): int
  {
    if TxType(tx) == NormalTx then (if sender == recipient then sender else SUPERVISOR_SHARD)
    else if tx.brokerStage == SIGMA1 then sender
    else if tx.brokerStage == SIGMA2 then recipient
    else SUPERVISOR_SHARD
  }

  function BrokerDest(loc: map<Address, int>, n: int, tx: Transaction): int
    requires n > 0
  {
    DestByState(tx, LocOf(loc, tx.sender, n), LocOf(loc, tx.recipient, n))
  }

  /** At a repartition, an end that does not move counts as living here. */
  function MigratedDest(moved: map<Address, int>, self: int, tx: Transaction): int
  {
    DestByState(tx, if tx.sender in moved then moved[tx.sender] else self,
      if tx.recipient in moved then moved[tx.recipient] else self)
  }

  /** For a transaction that belongs here, the destination computed from the announced moves is the one
      the locations after the migration give. */
  lemma MigratedDestAgrees(loc: map<Address, int>, moved: map<Address, int>, n: int, self: int, tx: Transaction)
    requires n > 0 && BrokerDest(loc, n, tx) == self && self != SUPERVISOR_SHARD
    ensures MigratedDest(moved, self, tx) == BrokerDest(loc + moved, n, tx)
  {
  }

  // ---------------------------------------------------------------------------------------------
  // Splitting by destination
  // ---------------------------------------------------------------------------------------------

  /** The two ways in which broker mode finds a destination. */
  datatype Rule = ByLocation(loc: map<Address, int>, n: nat) | ByMoves(moved: map<Address, int>, here: int)
  {
    function Dest(tx: Transaction): int
    {
      match this
      case ByLocation(loc, n) => if n == 0 then SUPERVISOR_SHARD else BrokerDest(loc, n, tx)
      case ByMoves(moved, here) => MigratedDest(moved, here, tx)
    }
  }

  /** The transactions that stay, that go to other shards, and that go to the supervisor. */
  function Here(rule: Rule, self: int, txs: seq<Transaction>): seq<Transaction>
  {
    if txs == [] then [] else
    var front := Here(rule, self, txs[..|txs| - 1]);
    if rule.Dest(txs[|txs| - 1]) == self && self != SUPERVISOR_SHARD then front + [txs[|txs| - 1]] else front
  }

  function Elsewhere(rule: Rule, self: int, txs: seq<Transaction>): seq<TxTo>
  {
    if txs == [] then [] else
    var last := txs[|txs| - 1];
    var front := Elsewhere(rule, self, txs[..|txs| - 1]);
    if rule.Dest(last) == self
      || rule.Dest(last) == SUPERVISOR_SHARD then front else front + [TxTo(rule.Dest(last), last)]
  }

  function Back(rule: Rule, txs: seq<Transaction>): seq<Transaction>
  {
    if txs == [] then [] else
    var front := Back(rule, txs[..|txs| - 1]);
    if rule.Dest(txs[|txs| - 1]) == SUPERVISOR_SHARD then front + [txs[|txs| - 1]] else front
  }

  /** Each transaction goes one way, once. */
  lemma {:induction false} SplitConserves(rule: Rule, self: int, txs: seq<Transaction>)
    requires self != SUPERVISOR_SHARD
    ensures multiset(Here(rule, self, txs)) + multiset(TxsOf(Elsewhere(rule, self, txs))) + multiset(Back(rule, txs))
      == multiset(txs)
  {
    if txs != [] {
      SplitConserves(rule, self, txs[..|txs| - 1]);
      SnocMultiset(txs);
    }
  }

  lemma TxsOfSnoc(to: seq<TxTo>, t: TxTo)
    ensures multiset(TxsOf(to + [t])) == multiset(TxsOf(to)) + multiset{t.tx}
  {
    assert (to + [t])[..|to|] == to;
  }

  lemma {:induction false} PackConserves(loc: map<Address, int>, n: int, self: int, txs: seq<Transaction>)
    requires n > 0
    ensures multiset(Stay(loc, n, self, txs)) + multiset(TxsOf(PassOn(loc, n, self, txs))) == multiset(txs)
  {
    if txs != [] {
      var front, last := txs[..|txs| - 1], txs[|txs| - 1];
      PackConserves(loc, n, self, front);
      SnocMultiset(txs);
      hide LocOf;
      if LocOf(loc, KeyAccount(last), n) == self {
        assert multiset(Stay(loc, n, self, txs)) == multiset(Stay(loc, n, self, front)) + multiset{last};
      } else {
        TxsOfSnoc(PassOn(loc, n, self, front), TxTo(LocOf(loc, KeyAccount(last), n), last));
      }
    }
  }

  lemma {:induction false} MigrateConserves(moved: map<Address, int>, txs: seq<Transaction>)
    ensures multiset(Kept(moved, txs)) + multiset(TxsOf(Following(moved, txs))) == multiset(txs)
  {
    if txs != [] {
      MigrateConserves(moved, txs[..|txs| - 1]);
      SnocMultiset(txs);
    }
  }

  // Splitting a list taken in two goes, as the packing loop does.

  lemma {:induction false} StaySplits(loc: map<Address, int>, n: int, self: int, s: seq<Transaction>,
      t: seq<Transaction>)
    requires n > 0
    ensures Stay(loc, n, self, s + t) == Stay(loc, n, self, s) + Stay(loc, n, self, t)
    ensures PassOn(loc, n, self, s + t) == PassOn(loc, n, self, s) + PassOn(loc, n, self, t)
  {
    if t == [] {
      assert s + t == s;
    } else {
      assert (s + t)[..|s + t| - 1] == s + t[..|t| - 1];
      StaySplits(loc, n, self, s, t[..|t| - 1]);
    }
  }

  lemma {:induction false} HereSplits(rule: Rule, self: int, s: seq<Transaction>, t: seq<Transaction>)
    ensures Here(rule, self, s + t) == Here(rule, self, s) + Here(rule, self, t)
    ensures Elsewhere(rule, self, s + t) == Elsewhere(rule, self, s) + Elsewhere(rule, self, t)
    ensures Back(rule, s + t) == Back(rule, s) + Back(rule, t)
  {
    if t == [] {
      assert s + t == s;
    } else {
      assert (s + t)[..|s + t| - 1] == s + t[..|t| - 1];
      HereSplits(rule, self, s, t[..|t| - 1]);
    }
  }

  class DynamicShardOp {
    const amm: AccMigrateMetadata
    const chain: Chain
    const txPool: TxPool
    const tbo: RelayTxBlockOp
    const mbo: MigrationBlockOp
    const self: Int64
    const shardNum: nat

    ghost predicate Valid()
      reads this, chain, amm, mbo
    {
      && mbo.chain == chain && mbo.amm == amm && mbo.Valid() && mbo.self == self && mbo.shardNum == shardNum
        && tbo.c == chain
      && 0 <= self < shardNum <= SUPERVISOR_SHARD && InRange(chain.locations, shardNum)
    }

    constructor (amm: AccMigrateMetadata, chain: Chain, txPool: TxPool, mbo: MigrationBlockOp, self: Int64,
        shardNum: nat)
      requires mbo.Valid() && mbo.chain == chain && mbo.amm == amm && mbo.self == self && mbo.shardNum == shardNum
      requires 0 <= self < shardNum <= SUPERVISOR_SHARD && InRange(chain.locations, shardNum)
      ensures Valid() && this.chain == chain && this.amm == amm && this.txPool == txPool && this.mbo == mbo
    {
      this.amm := amm;
      this.chain := chain;
      this.txPool := txPool;
      this.mbo := mbo;
      this.self := self;
      this.shardNum := shardNum;
      tbo := new RelayTxBlockOp(chain);
    }

    // -------------------------------------------------------------------------------------------
    // Packing
    // -------------------------------------------------------------------------------------------

    /** Packs at most `size` transactions that belong here, taking transactions from the front of the
        pool until it has that many or the pool is empty; the others taken are sorted by destination. */
    method PackValidTxsInRelay(size: nat)
      returns (txsPacked: seq<Transaction>, txs2Shard: seq<seq<Transaction>>, ghost taken: seq<Transaction>)
      requires Valid()
      modifies txPool
      ensures taken + txPool.queue == old(txPool.queue)
      ensures txsPacked == Stay(chain.locations, shardNum, self, taken)
      ensures Sorted(txs2Shard, PassOn(chain.locations, shardNum, self, taken), shardNum)
      ensures |txsPacked| <= size && (|txsPacked| < size ==> txPool.queue == [])
    {
      txsPacked, taken := [], [];
      txs2Shard := EmptyLists(shardNum);
      var curCnt := 0;
      while curCnt < size
        invariant taken + txPool.queue == old(txPool.queue)
        invariant txsPacked == Stay(chain.locations, shardNum, self, taken) && curCnt == |txsPacked| <= size
        invariant Sorted(txs2Shard, PassOn(chain.locations, shardNum, self, taken), shardNum)
        decreases |txPool.queue|
      {
        var txs := txPool.PackTxs(size - curCnt);
        if |txs| == 0 {
          break;
        }
        var iterPackedTxs;
        iterPackedTxs, txs2Shard := SortOut(txs, PassOn(chain.locations, shardNum, self, taken), txs2Shard);
        StaySplits(chain.locations, shardNum, self, taken, txs);
        taken := taken + txs;
        curCnt := curCnt + txPool.GetTxListSize(iterPackedTxs);
        txsPacked := txsPacked + iterPackedTxs;
      }
    }

    /** Sorts `txs`, adding to the lists that already hold `to`. */
    method SortOut(txs: seq<Transaction>, ghost to: seq<TxTo>, txs2Shard: seq<seq<Transaction>>)
      returns (iterPackedTxs: seq<Transaction>, lists: seq<seq<Transaction>>)
      requires Valid() && Sorted(txs2Shard, to, shardNum)
      ensures iterPackedTxs == Stay(chain.locations, shardNum, self, txs) && |iterPackedTxs| <= |txs|
      ensures Sorted(lists, to + PassOn(chain.locations, shardNum, self, txs), shardNum)
    {
      var accountLoc := chain.GetAccountLocationsInTxs(txs);
      iterPackedTxs, lists := [], txs2Shard;
      ghost var loc, sent: seq<TxTo> := chain.locations, [];
      assert to + sent == to;
      for i := 0 to |txs|
        invariant iterPackedTxs == Stay(loc, shardNum, self, txs[..i]) && |iterPackedTxs| <= i
        invariant sent == PassOn(loc, shardNum, self, txs[..i]) && Sorted(lists, to + sent, shardNum)
      {
        assert txs[..i + 1][..i] == txs[..i];
        var tx := txs[i];
        assert tx in txs;
        var keyAcc := if tx.relayStage == RELAY2 then tx.recipient else tx.sender;
        var destShard := accountLoc[keyAcc];
        if destShard != self {
          SortedSnoc(lists, to + sent, shardNum, TxTo(destShard, tx));
          assert to + sent + [TxTo(destShard, tx)] == to + (sent + [TxTo(destShard, tx)]);
          sent := sent + [TxTo(destShard, tx)];
          lists := lists[destShard := lists[destShard] + [tx]];
        } else {
          iterPackedTxs := iterPackedTxs + [tx];
        }
      }
      assert txs[..|txs|] == txs;
    }

    /** The same in broker mode, where cross-shard transactions go back to the supervisor. */
    method PackValidTxsInBroker(size: nat)
      returns (txsPacked: seq<Transaction>, txs2Shard: seq<seq<Transaction>>, txs2Supervisor: seq<Transaction>,
        ghost taken: seq<Transaction>)
      requires Valid()
      modifies txPool
      ensures taken + txPool.queue == old(txPool.queue)
      ensures txsPacked == Here(ByLocation(chain.locations, shardNum), self, taken)
      ensures Sorted(txs2Shard, Elsewhere(ByLocation(chain.locations, shardNum), self, taken), shardNum)
      ensures txs2Supervisor == Back(ByLocation(chain.locations, shardNum), taken)
      ensures |txsPacked| <= size && (|txsPacked| < size ==> txPool.queue == [])
    {
      txsPacked, txs2Supervisor, taken := [], [], [];
      txs2Shard := EmptyLists(shardNum);
      var curCnt := 0;
      var rule := ByLocation(chain.locations, shardNum);
      assert forall tx :: 0 <= rule.Dest(tx) < shardNum || rule.Dest(tx) == SUPERVISOR_SHARD;
      while curCnt < size
        invariant taken + txPool.queue == old(txPool.queue)
        invariant txsPacked == Here(rule, self, taken) && curCnt == |txsPacked| <= size
        invariant txs2Supervisor == Back(rule, taken)
        invariant Sorted(txs2Shard, Elsewhere(rule, self, taken), shardNum)
        decreases |txPool.queue|
      {
        var txs := txPool.PackTxs(size - curCnt);
        if |txs| == 0 {
          break;
        }
        var iterPackedTxs, iterBack;
        iterPackedTxs, txs2Shard, iterBack := SplitByDest(rule, txs, Elsewhere(rule, self, taken), txs2Shard);
        HereSplits(rule, self, taken, txs);
        taken := taken + txs;
        curCnt := curCnt + |iterPackedTxs|;
        txsPacked := txsPacked + iterPackedTxs;
        txs2Supervisor := txs2Supervisor + iterBack;
      }
    }

    /** Splits `txs` three ways, adding to the lists that already hold `to`. */
    method SplitByDest(rule: Rule, txs: seq<Transaction>, ghost to: seq<TxTo>, txs2Shard: seq<seq<Transaction>>)
      returns (here: seq<Transaction>, lists: seq<seq<Transaction>>, back: seq<Transaction>)
      requires 0 <= self < shardNum <= SUPERVISOR_SHARD && Sorted(txs2Shard, to, shardNum)
      requires forall tx :: tx in txs ==> 0 <= rule.Dest(tx) < shardNum || rule.Dest(tx) == SUPERVISOR_SHARD
      ensures here == Here(rule, self, txs) && back == Back(rule, txs) && |here| <= |txs|
      ensures Sorted(lists, to + Elsewhere(rule, self, txs), shardNum)
    {
      here, back, lists := [], [], txs2Shard;
      ghost var sent: seq<TxTo> := [];
      assert to + sent == to;
      for i := 0 to |txs|
        invariant here == Here(rule, self, txs[..i]) && back == Back(rule, txs[..i]) && |here| <= i
        invariant sent == Elsewhere(rule, self, txs[..i]) && Sorted(lists, to + sent, shardNum)
      {
        assert txs[..i + 1][..i] == txs[..i];
        var tx := txs[i];
        var destShard := rule.Dest(tx);
        if destShard == SUPERVISOR_SHARD {
          back := back + [tx];
        } else if destShard == self {
          here := here + [tx];
        } else {
          SortedSnoc(lists, to + sent, shardNum, TxTo(destShard, tx));
          assert to + sent + [TxTo(destShard, tx)] == to + (sent + [TxTo(destShard, tx)]);
          sent := sent + [TxTo(destShard, tx)];
          lists := lists[destShard := lists[destShard] + [tx]];
        }
      }
      assert txs[..|txs|] == txs;
    }

    // -------------------------------------------------------------------------------------------
    // Migrating the pool
    // -------------------------------------------------------------------------------------------

    /** Transactions whose account moves follow it; the others go back into the pool. */
    method MigrateTxsInRelay() returns (tx2Shards: seq<seq<Transaction>>, ghost allTxs: seq<Transaction>)
      requires Valid() && InRange(amm.curModifiedMap, shardNum)
      modifies txPool
      ensures allTxs <= old(txPool.queue) && |allTxs| <= MIGRATED_TX_NUM
      ensures txPool.queue == old(txPool.queue)[|allTxs|..] + Kept(amm.curModifiedMap, allTxs)
      ensures Sorted(tx2Shards, Following(amm.curModifiedMap, allTxs), shardNum)
      ensures |old(txPool.queue)| <= MIGRATED_TX_NUM ==> allTxs == old(txPool.queue)
    {
      var txs := txPool.PackTxs(MIGRATED_TX_NUM);
      allTxs := txs;
      assert txPool.queue == old(txPool.queue)[|txs|..];
      var addBackTxs := [];
      tx2Shards := EmptyLists(shardNum);
      var moved := amm.curModifiedMap;
      for i := 0 to |txs|
        invariant txPool.queue == old(txPool.queue)[|txs|..] && addBackTxs == Kept(moved, txs[..i])
        invariant Sorted(tx2Shards, Following(moved, txs[..i]), shardNum)
      {
        assert txs[..i + 1][..i] == txs[..i];
        var tx := txs[i];
        var keyAcc := if tx.relayStage == RELAY2 then tx.recipient else tx.sender;
        if keyAcc in moved {
          SortedSnoc(tx2Shards, Following(moved, txs[..i]), shardNum, TxTo(moved[keyAcc], tx));
          tx2Shards := tx2Shards[moved[keyAcc] := tx2Shards[moved[keyAcc]] + [tx]];
        } else {
          addBackTxs := addBackTxs + [tx];
        }
      }
      assert txs[..|txs|] == txs;
      txPool.AddTxs(addBackTxs);
    }

    method MigrateTxsInBroker()
      returns (tx2Shards: seq<seq<Transaction>>, tx2Supervisor: seq<Transaction>, ghost allTxs: seq<Transaction>)
      requires Valid() && InRange(amm.curModifiedMap, shardNum)
      modifies txPool
      ensures allTxs <= old(txPool.queue) && |allTxs| <= MIGRATED_TX_NUM
      ensures txPool.queue == old(txPool.queue)[|allTxs|..] + Here(ByMoves(amm.curModifiedMap, self), self, allTxs)
      ensures Sorted(tx2Shards, Elsewhere(ByMoves(amm.curModifiedMap, self), self, allTxs), shardNum)
      ensures tx2Supervisor == Back(ByMoves(amm.curModifiedMap, self), allTxs)
      ensures |old(txPool.queue)| <= MIGRATED_TX_NUM ==> allTxs == old(txPool.queue)
    {
      var txs := txPool.PackTxs(MIGRATED_TX_NUM);
      allTxs := txs;
      assert txPool.queue == old(txPool.queue)[|txs|..];
      var rule := ByMoves(amm.curModifiedMap, self);
      var none := EmptyLists(shardNum);
      var addBackTxs;
      addBackTxs, tx2Shards, tx2Supervisor := SplitByDest(rule, txs, [], none);
      assert [] + Elsewhere(rule, self, txs) == Elsewhere(rule, self, txs);
      txPool.AddTxs(addBackTxs);
    }

    // -------------------------------------------------------------------------------------------
    // Proposing
    // -------------------------------------------------------------------------------------------

    /** A transaction block, unless a repartition is under way. Then the accounts and the transactions
        of this shard are sent out, once, and a migration block is built as soon as all shards' states
        are in. `taken` is what came out of the pool. */
    method BuildProposal(size: nat, tag: nat)
      returns (b: Option<Block>, migrations: seq<MigrationMsg>, out: seq<seq<Transaction>>,
        ghost taken: seq<Transaction>, ghost ms: seq<Migrated>)
      requires Valid() && InRange(amm.curModifiedMap, shardNum)
      modifies txPool
      ensures !amm.migrationReady ==>
        && migrations == [] && taken + txPool.queue == old(txPool.queue)
        && Sorted(out, PassOn(chain.locations, shardNum, self, taken), shardNum)
        && b == Generated(chain.Value(), self, shardNum,
          Modify(chain.locations, shardNum, self, Stay(chain.locations, shardNum, self, taken)), [], tag)
      ensures amm.migrationReady && self in amm.migratedAccountStates ==>
        migrations == [] && out == [] && txPool.queue == old(txPool.queue)
      ensures amm.migrationReady && self !in amm.migratedAccountStates ==>
        && migrations
          == SentMessages(amm.curModifiedMap, chain.locations, chain.curHeader.stateRoot, shardNum, self, amm.epoch,
            shardNum)
        && taken <= old(txPool.queue) && txPool.queue == old(txPool.queue)[|taken|..] + Kept(amm.curModifiedMap, taken)
        && Sorted(out, Following(amm.curModifiedMap, taken), shardNum)
      ensures amm.migrationReady && |amm.migratedAccountStates| != shardNum ==> b == None
      ensures amm.migrationReady && |amm.migratedAccountStates| == shardNum ==>
        && b == Generated(chain.Value(), self, shardNum, [], ms, tag)
        && (DisjointSources(amm.migratedAccountStates) ==> Lists(ms, HandOver(amm.Value())))
    {
      migrations, out, taken, ms := [], [], [], [];
      if !amm.migrationReady {
        var txs;
        txs, out, taken := PackValidTxsInRelay(size);
        b := tbo.BuildTxBlockProposal(txs, tag);
        return;
      }
      if self !in amm.migratedAccountStates {
        migrations := mbo.MigrateAccounts();
        out, taken := MigrateTxsInRelay();
      }
      b, ms := mbo.BuildMigrationProposal(tag);
    }
  }
}
