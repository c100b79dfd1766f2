/** Transaction blocks (consensus/pbft/insideop/txblockop/relaytxblockop.go, brokertxblockop.go): what
    goes into a block and what a committed block reports and sends on. */
module TxBlockOps {
  import opened Types
  import opened Routing
  import opened Chains

  // ---------------------------------------------------------------------------------------------
  // Sorting transactions by destination
  // ---------------------------------------------------------------------------------------------

  /** What of `to` goes to shard `d`, in order. */
  function ForShard(to: seq<TxTo>, d: int): seq<Transaction>
  {
    if to == [] then [] else
    var front := ForShard(to[..|to| - 1], d);
    if to[|to| - 1].dest == d then front + [to[|to| - 1].tx] else front
  }

  /** One list for every shard, holding exactly what goes there. */
  ghost predicate Sorted(lists: seq<seq<Transaction>>, to: seq<TxTo>, n: int)
  {
    |lists| == n && forall d :: 0 <= d < n ==> lists[d] == ForShard(to, d)
  }

  ghost predicate DestsInRange(to: seq<TxTo>, n: int)
  {
    forall i :: 0 <= i < |to| ==> 0 <= to[i].dest < n
  }

  lemma ForShardSnoc(to: seq<TxTo>, t: TxTo, d: int)
    ensures ForShard(to + [t], d) == if t.dest == d then ForShard(to, d) + [t.tx] else ForShard(to, d)
  {
    assert (to + [t])[..|to|] == to;
  }

  lemma SortedSnoc(lists: seq<seq<Transaction>>, to: seq<TxTo>, n: int, t: TxTo)
    requires Sorted(lists, to, n) && 0 <= t.dest < n
    ensures Sorted(lists[t.dest := lists[t.dest] + [t.tx]], to + [t], n)
  {
    forall d | 0 <= d < n
      ensures lists[t.dest := lists[t.dest] + [t.tx]][d] == ForShard(to + [t], d)
    {
      ForShardSnoc(to, t, d);
    }
  }

  /** Sending the lists is sending each transaction to its destination, once. */
  lemma {:induction false} ForShardCounts(to: seq<TxTo>, d: int, tx: Transaction)
    ensures multiset(ForShard(to, d))[tx] == multiset(to)[TxTo(d, tx)]
  {
    if to != [] {
      ForShardCounts(to[..|to| - 1], d, tx);
      SnocMultiset(to);
    }
  }

  function TxsOf(to: seq<TxTo>): seq<Transaction>
  {
    if to == [] then [] else TxsOf(to[..|to| - 1]) + [to[|to| - 1].tx]
  }

  function EmptyLists(n: nat): (lists: seq<seq<Transaction>>)
    ensures Sorted(lists, [], n)
  {
    seq(n, _ => [])
  }

  // ---------------------------------------------------------------------------------------------
  // By stage
  // ---------------------------------------------------------------------------------------------

  function WithStage(txs: seq<Transaction>, stage: nat): seq<Transaction>
  {
    if txs == [] then [] else
    var front := WithStage(txs[..|txs| - 1], stage);
    if txs[|txs| - 1].relayStage == stage then front + [txs[|txs| - 1]] else front
  }

  /** Every transaction of a valid stage is in exactly one of the three lists. */
  lemma {:induction false} StagesConserve(txs: seq<Transaction>)
    requires forall i :: 0 <= i < |txs| ==> txs[i].relayStage <= RELAY2
    ensures multiset(WithStage(txs, UNDETERMINED)) + multiset(WithStage(txs, RELAY1))
      + multiset(WithStage(txs, RELAY2)) == multiset(txs)
  {
    if txs != [] {
      StagesConserve(txs[..|txs| - 1]);
      SnocMultiset(txs);
    }
  }

  lemma {:induction false} WithStageAll(txs: seq<Transaction>, stage: nat)
    ensures forall i :: 0 <= i < |WithStage(txs, stage)| ==>
      WithStage(txs, stage)[i].relayStage == stage && WithStage(txs, stage)[i] in txs
  {
    if txs != [] {
      WithStageAll(txs[..|txs| - 1], stage);
      assert forall tx :: tx in txs[..|txs| - 1] ==> tx in txs;
    }
  }

  /** Relaying a block's relay-1 transactions is relaying the block. */
  lemma {:induction false} RelayedOfStage(loc: map<Address, int>, n: int, txs: seq<Transaction>)
    requires n > 0
    ensures Relayed(loc, n, WithStage(txs, RELAY1)) == Relayed(loc, n, txs)
  {
    if txs != [] {
      var front, last := txs[..|txs| - 1], txs[|txs| - 1];
      RelayedOfStage(loc, n, front);
      if last.relayStage == RELAY1 {
        assert WithStage(txs, RELAY1)[..|WithStage(txs, RELAY1)| - 1] == WithStage(front, RELAY1);
      }
    }
  }

  /** Every transaction that packing lets through has its sender here unless it is a relay-2
      transaction, so none of them is dropped when relay stages are set. */
  lemma {:induction false} NoneDropped(loc: map<Address, int>, n: int, self: int, txs: seq<Transaction>)
    requires n > 0
    ensures |Modify(loc, n, self, Stay(loc, n, self, txs))| == |Stay(loc, n, self, txs)|
  {
    if txs != [] {
      var front, last := txs[..|txs| - 1], txs[|txs| - 1];
      NoneDropped(loc, n, self, front);
      if LocOf(loc, KeyAccount(last), n) == self {
        assert (Stay(loc, n, self, front) + [last])[..|Stay(loc, n, self, front)|] == Stay(loc, n, self, front);
      }
    }
  }

  /** A transaction is dropped exactly when it is of undetermined stage and its sender lives elsewhere. */
  lemma {:induction false} DroppedExactlyWhen(loc: map<Address, int>, n: int, self: int, txs: seq<Transaction>)
    requires n > 0
    ensures |Modify(loc, n, self, txs)| <= |txs|
    ensures |Modify(loc, n, self, txs)| == |txs| <==>
      forall i :: 0 <= i < |txs| ==> txs[i].relayStage == UNDETERMINED ==> LocOf(loc, txs[i].sender, n) == self
  {
    if txs != [] {
      var front := txs[..|txs| - 1];
      DroppedExactlyWhen(loc, n, self, front);
      assert forall i :: 0 <= i < |front| ==> front[i] == txs[i];
    }
  }

  // ---------------------------------------------------------------------------------------------
  // Relay blocks
  // ---------------------------------------------------------------------------------------------

  /** What the leader tells the supervisor about a committed block. */
  datatype RelayBlockInfo = RelayBlockInfo(inner: seq<Transaction>, relay1: seq<Transaction>, relay2: seq<Transaction>,
    shard: int, epoch: int)

  /** Setting relay stages fails only on a location below zero. */
  predicate Locatable(loc: map<Address, int>, n: int, tx: Transaction)
    requires n > 0
  {
    tx.relayStage == UNDETERMINED ==> LocOf(loc, tx.sender, n) >= 0 && LocOf(loc, tx.recipient, n) >= 0
  }

  class RelayTxBlockOp {
    const c: Chain

    constructor (c: Chain)
      ensures this.c == c
    {
      this.c := c;
    }

    method ModifyTxRelayOpt(txs: seq<Transaction>) returns (r: Option<seq<Transaction>>)
      requires c.shardNum > 0
      ensures r.Some? <==> forall i :: 0 <= i < |txs| ==> Locatable(c.locations, c.shardNum, txs[i])
      ensures r.Some? ==> r.value == Modify(c.locations, c.shardNum, c.shardID, txs)
    {
      var accountLocations := c.GetAccountLocationsInTxs(txs);
      var modifiedTxs := [];
      for i := 0 to |txs|
        invariant modifiedTxs == Modify(c.locations, c.shardNum, c.shardID, txs[..i])
        invariant forall j :: 0 <= j < i ==> Locatable(c.locations, c.shardNum, txs[j])
      {
        assert txs[..i + 1][..i] == txs[..i];
        var tx := txs[i];
        assert tx in txs;
        if tx.relayStage != UNDETERMINED {
          modifiedTxs := modifiedTxs + [tx];
          continue;
        }
        var senderID, recipientID := accountLocations[tx.sender], accountLocations[tx.recipient];
        if senderID < 0 || recipientID < 0 {
          return None;
        }
        if senderID != c.shardID {
          continue;
        }
        if senderID == recipientID {
          modifiedTxs := modifiedTxs + [tx];
          continue;
        }
        modifiedTxs := modifiedTxs + [tx.(relayStage := RELAY1, rHash := HashOf(tx))];
      }
      assert txs[..|txs|] == txs;
      return Some(modifiedTxs);
    }

    method BuildTxBlockProposal(txs: seq<Transaction>, tag: nat) returns (b: Option<Block>)
      requires c.shardNum > 0
      requires forall i :: 0 <= i < |txs| ==> Locatable(c.locations, c.shardNum, txs[i])
      ensures b == Generated(c.Value(), c.shardID, c.shardNum, Modify(c.locations, c.shardNum, c.shardID, txs), [], tag)
    {
      var mTxs := ModifyTxRelayOpt(txs);
      b := c.GenerateBlock(mTxs.value, [], tag);
    }

    method SplitTxs(txs: seq<Transaction>)
      returns (innerTxs: seq<Transaction>, r1Txs: seq<Transaction>, r2Txs: seq<Transaction>)
      ensures innerTxs == WithStage(txs, UNDETERMINED) && r1Txs == WithStage(txs, RELAY1)
      ensures r2Txs == WithStage(txs, RELAY2)
    {
      innerTxs, r1Txs, r2Txs := [], [], [];
      for i := 0 to |txs|
        invariant innerTxs == WithStage(txs[..i], UNDETERMINED)
        invariant r1Txs == WithStage(txs[..i], RELAY1)
        invariant r2Txs == WithStage(txs[..i], RELAY2)
      {
        assert txs[..i + 1][..i] == txs[..i];
        var tx := txs[i];
        if tx.relayStage == UNDETERMINED {
          innerTxs := innerTxs + [tx];
        } else if tx.relayStage == RELAY1 {
          r1Txs := r1Txs + [tx];
        } else if tx.relayStage == RELAY2 {
          r2Txs := r2Txs + [tx];
        }
      }
      assert txs[..|txs|] == txs;
    }

    method SendRelayedTxs(blockTxs: seq<Transaction>, r1Txs: seq<Transaction>)
      returns (relayedTxs: seq<seq<Transaction>>)
      requires c.shardNum > 0 && r1Txs == WithStage(blockTxs, RELAY1)
      requires DestsInRange(Relayed(c.locations, c.shardNum, r1Txs), c.shardNum)
      ensures Sorted(relayedTxs, Relayed(c.locations, c.shardNum, blockTxs), c.shardNum)
    {
      WithStageAll(blockTxs, RELAY1);
      RelayedOfStage(c.locations, c.shardNum, blockTxs);
      relayedTxs := SortRelayed(c, blockTxs, r1Txs);
    }

    /** Adds the block; the leader also reports its transactions to the supervisor and sends every
        relay-1 transaction on, as relay-2, to where its recipient lives. */
    method BlockCommitAndDeliver(isLeader: bool, b: Block)
      returns (ok: bool, info: Option<RelayBlockInfo>, relayedTxs: seq<seq<Transaction>>)
      requires c.shardNum > 0 && b.migrated == []
      requires DestsInRange(Relayed(c.locations, c.shardNum, b.txs), c.shardNum)
      modifies c
      ensures ok == Added(old(c.Value()), c.shardID, c.shardNum, b).Some?
      ensures c.Value() == if ok then Added(old(c.Value()), c.shardID, c.shardNum, b).value else old(c.Value())
      ensures !(ok && isLeader) ==> info == None && relayedTxs == []
      ensures ok && isLeader ==>
        && info == Some(RelayBlockInfo(WithStage(b.txs, UNDETERMINED), WithStage(b.txs, RELAY1),
          WithStage(b.txs, RELAY2), c.shardID, old(c.epochID)))
        && Sorted(relayedTxs, Relayed(old(c.locations), c.shardNum, b.txs), c.shardNum)
    {
      info, relayedTxs := None, [];
      ok := c.AddBlock(b);
      if !ok || !isLeader {
        return;
      }
      var innerTxs, r1Txs, r2Txs := SplitTxs(b.txs);
      info := Some(RelayBlockInfo(innerTxs, r1Txs, r2Txs, c.shardID, c.epochID));
      RelayedOfStage(c.locations, c.shardNum, b.txs);
      relayedTxs := SendRelayedTxs(b.txs, r1Txs);
    }
  }

  /** The loop both kinds of blocks use to send relay-1 transactions on. */
  method SortRelayed(c: Chain, blockTxs: seq<Transaction>, r1Txs: seq<Transaction>)
    returns (relayedTxs: seq<seq<Transaction>>)
    requires c.shardNum > 0 && forall i :: 0 <= i < |r1Txs| ==> r1Txs[i] in blockTxs && r1Txs[i].relayStage == RELAY1
    requires DestsInRange(Relayed(c.locations, c.shardNum, r1Txs), c.shardNum)
    ensures Sorted(relayedTxs, Relayed(c.locations, c.shardNum, r1Txs), c.shardNum)
  {
    var accountLocations := c.GetAccountLocationsInTxs(blockTxs);
    relayedTxs := EmptyLists(c.shardNum);
    for i := 0 to |r1Txs|
      invariant Sorted(relayedTxs, Relayed(c.locations, c.shardNum, r1Txs[..i]), c.shardNum)
    {
      assert r1Txs[..i + 1][..i] == r1Txs[..i];
      var tx := r1Txs[i];
      var shardID := accountLocations[tx.recipient];
      RelayedInRange(c.locations, c.shardNum, r1Txs, i);
      SortedSnoc(relayedTxs, Relayed(c.locations, c.shardNum, r1Txs[..i]), c.shardNum,
        RelayedTx(c.locations, c.shardNum, tx));
      relayedTxs := relayedTxs[shardID := relayedTxs[shardID] + [tx.(relayStage := RELAY2)]];
    }
    assert r1Txs[..|r1Txs|] == r1Txs;
  }

  lemma {:induction false} RelayedInRange(loc: map<Address, int>, n: int, txs: seq<Transaction>, i: nat)
    requires n > 0 && i < |txs| && txs[i].relayStage == RELAY1 && DestsInRange(Relayed(loc, n, txs), n)
    ensures 0 <= LocOf(loc, txs[i].recipient, n) < n
  {
    var front, last := txs[..|txs| - 1], txs[|txs| - 1];
    if i == |txs| - 1 {
      assert Relayed(loc, n, txs)[|Relayed(loc, n, txs)| - 1] == RelayedTx(loc, n, last);
    } else {
      assert forall k :: 0 <= k < |Relayed(loc, n, front)| ==> Relayed(loc, n, txs)[k] == Relayed(loc, n, front)[k];
      RelayedInRange(loc, n, front, i);
    }
  }

  // ---------------------------------------------------------------------------------------------
  // Broker blocks
  // ---------------------------------------------------------------------------------------------

  datatype BrokerKind = Inner | Broker1 | Broker2 | Relay1 | Relay2 | Invalid

  /** Relay transactions occur as the fallback of the static broker committee. */
  function KindOf(tx: Transaction): BrokerKind
  {
    if TxType(tx) == RelayTx then (if tx.relayStage == RELAY1 then Relay1 else Relay2)
    else if tx.brokerStage == RAW then Inner
    else if tx.brokerStage == SIGMA1 then Broker1
    else if tx.brokerStage == SIGMA2 then Broker2
    else Invalid
  }

  function OfKind(txs: seq<Transaction>, kind: BrokerKind): seq<Transaction>
  {
    if txs == [] then [] else
    var front := OfKind(txs[..|txs| - 1], kind);
    if KindOf(txs[|txs| - 1]) == kind then front + [txs[|txs| - 1]] else front
  }

  lemma {:induction false} OfKindAll(txs: seq<Transaction>, kind: BrokerKind)
    ensures forall i :: 0 <= i < |OfKind(txs, kind)| ==>
      KindOf(OfKind(txs, kind)[i]) == kind && OfKind(txs, kind)[i] in txs
  {
    if txs != [] {
      OfKindAll(txs[..|txs| - 1], kind);
      assert forall tx :: tx in txs[..|txs| - 1] ==> tx in txs;
    }
  }

  lemma {:induction false} KindsConserve(txs: seq<Transaction>)
    ensures multiset(OfKind(txs, Inner)) + multiset(OfKind(txs, Broker1)) + multiset(OfKind(txs, Broker2))
      + multiset(OfKind(txs, Relay1)) + multiset(OfKind(txs, Relay2)) + multiset(OfKind(txs, Invalid)) == multiset(txs)
  {
    if txs != [] {
      KindsConserve(txs[..|txs| - 1]);
      SnocMultiset(txs);
    }
  }

  datatype BrokerBlockInfo = BrokerBlockInfo(
    inner: seq<Transaction>, broker1: seq<Transaction>, broker2: seq<Transaction>, relay1: seq<Transaction>,
      relay2: seq<Transaction>, shard: int, epoch: int)

  function BrokerInfo(txs: seq<Transaction>, shard: int, epoch: int): BrokerBlockInfo
  {
    BrokerBlockInfo(OfKind(txs, Inner), OfKind(txs, Broker1), OfKind(txs, Broker2), OfKind(txs, Relay1),
      OfKind(txs, Relay2), shard, epoch)
  }

  /** What the report of a block says of each transaction: it is under the first halves exactly when it is
      no relay transaction and at the first stage, as often as in the block; likewise for the others. */
  lemma {:induction false} ReportExactly(txs: seq<Transaction>, shard: int, epoch: int, tx: Transaction)
    ensures var info, count := BrokerInfo(txs, shard, epoch), multiset(txs)[tx];
      && multiset(info.inner)[tx] == (if TxType(tx) != RelayTx && tx.brokerStage == RAW then count else 0)
      && multiset(info.broker1)[tx] == (if TxType(tx) != RelayTx && tx.brokerStage == SIGMA1 then count else 0)
      && multiset(info.broker2)[tx] == (if TxType(tx) != RelayTx && tx.brokerStage == SIGMA2 then count else 0)
      && multiset(info.relay1)[tx] == (if TxType(tx) == RelayTx && tx.relayStage == RELAY1 then count else 0)
      && multiset(info.relay2)[tx] == (if TxType(tx) == RelayTx && tx.relayStage != RELAY1 then count else 0)
      && info.shard == shard && info.epoch == epoch
  {
    if txs != [] {
      ReportExactly(txs[..|txs| - 1], shard, epoch, tx);
      SnocMultiset(txs);
    }
  }

  /** The same of a relay block's report: by stage. */
  lemma {:induction false} WithStageExactly(txs: seq<Transaction>, stage: nat, tx: Transaction)
    ensures multiset(WithStage(txs, stage))[tx] == if tx.relayStage == stage then multiset(txs)[tx] else 0
  {
    if txs != [] {
      WithStageExactly(txs[..|txs| - 1], stage, tx);
      SnocMultiset(txs);
    }
  }

  class BrokerTxBlockOp {
    const c: Chain

    constructor (c: Chain)
      ensures this.c == c
    {
      this.c := c;
    }

    method BuildTxBlockProposal(txs: seq<Transaction>, tag: nat) returns (b: Option<Block>)
      requires c.shardNum > 0
      ensures b == Generated(c.Value(), c.shardID, c.shardNum, txs, [], tag)
    {
      b := c.GenerateBlock(txs, [], tag);
    }

    method SplitTxs(txs: seq<Transaction>)
      returns (inner: seq<Transaction>, b1: seq<Transaction>, b2: seq<Transaction>, r1: seq<Transaction>,
        r2: seq<Transaction>)
      ensures inner == OfKind(txs, Inner) && b1 == OfKind(txs, Broker1) && b2 == OfKind(txs, Broker2)
      ensures r1 == OfKind(txs, Relay1) && r2 == OfKind(txs, Relay2)
    {
      inner, b1, b2, r1, r2 := [], [], [], [], [];
      for i := 0 to |txs|
        invariant inner == OfKind(txs[..i], Inner) && b1 == OfKind(txs[..i], Broker1) && b2 == OfKind(txs[..i], Broker2)
        invariant r1 == OfKind(txs[..i], Relay1) && r2 == OfKind(txs[..i], Relay2)
      {
        assert txs[..i + 1][..i] == txs[..i];
        var tx := txs[i];
        if TxType(tx) == RelayTx {
          if tx.relayStage == RELAY1 {
            r1 := r1 + [tx];
          } else {
            r2 := r2 + [tx];
          }
          continue;
        }
        if tx.brokerStage == RAW {
          inner := inner + [tx];
        } else if tx.brokerStage == SIGMA1 {
          b1 := b1 + [tx];
        } else if tx.brokerStage == SIGMA2 {
          b2 := b2 + [tx];
        }
      }
      assert txs[..|txs|] == txs;
    }

    method BlockCommitAndDeliver(isLeader: bool, b: Block)
      returns (ok: bool, info: Option<BrokerBlockInfo>, relayedTxs: seq<seq<Transaction>>)
      requires c.shardNum > 0 && b.migrated == []
      requires DestsInRange(Relayed(c.locations, c.shardNum, OfKind(b.txs, Relay1)), c.shardNum)
      modifies c
      ensures ok == Added(old(c.Value()), c.shardID, c.shardNum, b).Some?
      ensures c.Value() == if ok then Added(old(c.Value()), c.shardID, c.shardNum, b).value else old(c.Value())
      ensures !(ok && isLeader) ==> info == None && relayedTxs == []
      ensures ok && isLeader ==> info == Some(BrokerInfo(b.txs, c.shardID, old(c.epochID)))
      ensures ok && isLeader && OfKind(b.txs, Relay1) == [] ==> relayedTxs == []
      ensures ok && isLeader && OfKind(b.txs, Relay1) != [] ==>
        Sorted(relayedTxs, Relayed(old(c.locations), c.shardNum, OfKind(b.txs, Relay1)), c.shardNum)
    {
      info, relayedTxs := None, [];
      ok := c.AddBlock(b);
      if !ok || !isLeader {
        return;
      }
      var inner, b1, b2, r1, r2 := SplitTxs(b.txs);
      info := Some(BrokerBlockInfo(inner, b1, b2, r1, r2, c.shardID, c.epochID));
      if |r1| > 0 {
        OfKindAll(b.txs, Relay1);
        relayedTxs := SortRelayed(c, b.txs, r1);
      }
    }
  }
}
