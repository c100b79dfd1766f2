/** The supervisor of the dynamic relay system (supervisor/committee/clparelay.go, partitionrunner.go):
    the epoch barrier, learning the graph from block reports, repartitioning, injecting. Its methods are
    the supervisor steps of `ShardSystem`. */
module ClpaRelay {
  import opened Types
  import opened Graphs
  import opened Clpa
  import opened ClpaStates
  import opened Migration
  import opened Routing
  import opened ShardSystem
  import opened TxBlockOps
  import opened Committees

  class PartitionRunner {
    const state: CLPAState
    var epochSynced: bool
    var supervisorEpoch: nat
    var shardEpoch: seq<nat>

    constructor (state: CLPAState, shardNum: nat)
      ensures this.state == state && !epochSynced && supervisorEpoch == 0 && shardEpoch == seq(shardNum, _ => 0)
    {
      this.state := state;
      epochSynced := false;
      supervisorEpoch := 0;
      shardEpoch := seq(shardNum, _ => 0);
    }

    /** The barrier opens when every shard has reported the supervisor's epoch, and stays open. */
    method CheckEpochSyncAndMark() returns (synced: bool)
      modifies `epochSynced
      ensures synced == epochSynced
        == (old(epochSynced) || forall i :: 0 <= i < |shardEpoch| ==> shardEpoch[i] == supervisorEpoch)
    {
      if epochSynced {
        return true;
      }
      for i := 0 to |shardEpoch|
        invariant !epochSynced && forall j :: 0 <= j < i ==> shardEpoch[j] == supervisorEpoch
      {
        if shardEpoch[i] != supervisorEpoch {
          return false;
        }
      }
      epochSynced := true;
      return true;
    }
  }

  function Ends(txs: seq<Transaction>): set<Address>
  {
    if txs == [] then {} else Ends(txs[..|txs| - 1]) + {txs[|txs| - 1].sender, txs[|txs| - 1].recipient}
  }

  function WithEdges(edges: Edges, txs: seq<Transaction>): Edges
  {
    if txs == [] then edges else
    var front, last := WithEdges(edges, txs[..|txs| - 1]), txs[|txs| - 1];
    Listed(Listed(front, last.sender, last.recipient), last.recipient, last.sender)
  }

  /** No transaction of a report is a self-loop, so the graph never gets one. */
  lemma {:induction false} EdgesLoopFree(edges: Edges, txs: seq<Transaction>)
    requires NoSelfLoops(edges) && forall i :: 0 <= i < |txs| ==> txs[i].sender != txs[i].recipient
    ensures NoSelfLoops(WithEdges(edges, txs))
  {
    if txs != [] {
      EdgesLoopFree(edges, txs[..|txs| - 1]);
      AddEdgeKeepsLoopFree(WithEdges(edges, txs[..|txs| - 1]), txs[|txs| - 1].sender, txs[|txs| - 1].recipient);
    }
  }

  /** Every transaction of a report adds its two entries. */
  lemma {:induction false} EdgesCount(edges: Edges, txs: seq<Transaction>)
    ensures Entries(WithEdges(edges, txs)) == Entries(edges) + 2 * |txs|
  {
    if txs != [] {
      EdgesCount(edges, txs[..|txs| - 1]);
      EdgeAddsTwoEntries(WithEdges(edges, txs[..|txs| - 1]), txs[|txs| - 1].sender, txs[|txs| - 1].recipient);
    }
  }

  /** New vertices get their default shard, which is what the supervisor assumed before. */
  lemma SeenPartition(before: Partition, after: Partition, n: int, seen: set<Address>)
    requires n > 0 && after.Keys == before.Keys + seen && forall a :: LocOf(after, a, n) == LocOf(before, a, n)
    ensures after == SeeVertices(before, n, seen)
  {
    forall a | a in after
      ensures after[a] == SeeVertices(before, n, seen)[a]
    {
      assert LocOf(after, a, n) == after[a];
    }
  }

  lemma DiffIsMoves(ret: map<Vertex, int>, before: Partition, after: Partition)
    requires ExactDiff(ret, before, after)
    ensures ret == Moves(before, after)
  {
  }

  class CLPARelayCommittee {
    const runner: PartitionRunner
    const state: CLPAState
    const shardNum: nat
    var unsentTxNum: int
    var stopCnt: nat

    ghost predicate Valid()
      reads this, runner, state, state.netGraph
    {
      && runner.state == state && state.Valid() && state.shardNum == shardNum && |runner.shardEpoch| == shardNum
    }

    constructor (state: CLPAState, shardNum: nat, txNumber: int)
      requires state.Valid() && state.shardNum == shardNum
      ensures Valid() && this.state == state && fresh(runner) && unsentTxNum == txNumber
      ensures !runner.epochSynced && runner.supervisorEpoch == 0 && stopCnt == 0
    {
      runner := new PartitionRunner(state, shardNum);
      this.state := state;
      this.shardNum := shardNum;
      unsentTxNum := txNumber;
      stopCnt := 0;
    }

    /** Takes over a newer shard epoch and learns the edges of the block's ordinary and relay-2
        transactions. No account the supervisor knows changes its place. */
    method HandleMsg(bInfo: RelayBlockInfo) returns (ok: bool)
      requires Valid() && 0 <= bInfo.shard && 0 <= bInfo.epoch
      modifies this, runner, state, state.netGraph
      ensures Valid() && ok == (bInfo.shard < shardNum)
      ensures runner.epochSynced == old(runner.epochSynced) && runner.supervisorEpoch == old(runner.supervisorEpoch)
      ensures !ok ==> runner.shardEpoch == old(runner.shardEpoch) && state.partitionMap == old(state.partitionMap)
      ensures !ok ==> state.netGraph.edgeSet == old(state.netGraph.edgeSet) && stopCnt == old(stopCnt)
      ensures unsentTxNum == old(unsentTxNum)
      ensures ok ==>
        stopCnt == StopCount(old(stopCnt), unsentTxNum, |bInfo.inner| + |bInfo.relay1| + |bInfo.relay2|)
      ensures ok ==> runner.shardEpoch == old(runner.shardEpoch)[bInfo.shard :=
                if old(runner.shardEpoch)[bInfo.shard] < bInfo.epoch then bInfo.epoch
                  else old(runner.shardEpoch)[bInfo.shard]]
      ensures ok ==>
        state.partitionMap == SeeVertices(old(state.partitionMap), shardNum, Ends(bInfo.inner) + Ends(bInfo.relay2))
      ensures ok ==>
        state.netGraph.edgeSet == WithEdges(WithEdges(old(state.netGraph.edgeSet), bInfo.inner), bInfo.relay2)
    {
      if bInfo.shard >= shardNum {
        return false;
      }
      if runner.shardEpoch[bInfo.shard] < bInfo.epoch {
        runner.shardEpoch := runner.shardEpoch[bInfo.shard := bInfo.epoch];
      }
      if unsentTxNum <= 0 && |bInfo.inner| + |bInfo.relay1| + |bInfo.relay2| == 0 {
        stopCnt := stopCnt + 1;
      } else if unsentTxNum <= 0 {
        stopCnt := 0;
      }
      AddEdges(bInfo.inner);
      AddEdges(bInfo.relay2);
      SeenPartition(old(state.partitionMap), state.partitionMap, shardNum, Ends(bInfo.inner) + Ends(bInfo.relay2));
      return true;
    }

    method AddEdges(txs: seq<Transaction>)
      requires state.Valid()
      modifies state, state.netGraph
      ensures state.Valid() && state.netGraph.edgeSet == WithEdges(old(state.netGraph.edgeSet), txs)
      ensures state.partitionMap.Keys == old(state.partitionMap.Keys) + Ends(txs)
      ensures forall a ::
        LocOf(state.partitionMap, a, state.shardNum) == LocOf(old(state.partitionMap), a, state.shardNum)
    {
      for i := 0 to |txs|
        invariant state.Valid() && state.netGraph.edgeSet == WithEdges(old(state.netGraph.edgeSet), txs[..i])
        invariant state.partitionMap.Keys == old(state.partitionMap.Keys) + Ends(txs[..i])
        invariant forall a ::
          LocOf(state.partitionMap, a, state.shardNum) == LocOf(old(state.partitionMap), a, state.shardNum)
      {
        assert txs[..i + 1][..i] == txs[..i];
        state.AddEdge(txs[i].sender, txs[i].recipient);
      }
      assert txs[..|txs|] == txs;
    }

    /** Runs the partitioner and announces, under the next epoch, exactly the accounts whose shard has
        changed. The barrier closes. */
    method Repartition() returns (cr: StartMsg)
      requires Valid()
      modifies this, runner, state
      ensures Valid()
      ensures cr == StartMsg(old(runner.supervisorEpoch) + 1, Moves(old(state.partitionMap), state.partitionMap))
      ensures runner.supervisorEpoch == old(runner.supervisorEpoch) + 1 && !runner.epochSynced
      ensures runner.shardEpoch == old(runner.shardEpoch)
      ensures state.partitionMap.Keys == old(state.partitionMap.Keys)
      ensures forall a :: a in state.partitionMap ==> 0 <= state.partitionMap[a] < shardNum
      ensures stopCnt == 0 && unsentTxNum == old(unsentTxNum)
    {
      hide Exact, Legal, Replayed, StaysInhabited, NoSelfLoops, CrossEntries, MovesOf, ExactDiff, IsMin, Symmetric;
      var modifiedMap, _, moves, _ := state.CLPAPartition();
      DiffIsMoves(modifiedMap, old(state.partitionMap), state.partitionMap);
      runner.supervisorEpoch := runner.supervisorEpoch + 1;
      cr := StartMsg(runner.supervisorEpoch, modifiedMap);
      runner.epochSynced := false;
      stopCnt := 0;
    }

    /** Waits for the barrier; then repartitions if the epoch has lasted long enough, else injects
        transactions at their senders' shards. */
    method SendTxsAndConsensus(epochOver: bool, txs: seq<Transaction>)
      returns (cr: Option<StartMsg>, shardTxs: seq<seq<Transaction>>)
      requires Valid()
      modifies this, runner, state
      ensures Valid()
      ensures var open' := old(runner.epochSynced) || forall i :: 0 <= i < shardNum ==>
        old(runner.shardEpoch)[i] == old(runner.supervisorEpoch);
        && (!open' ==>
          cr == None && shardTxs == [] && state.partitionMap == old(state.partitionMap)
            && runner.supervisorEpoch == old(runner.supervisorEpoch))
        && (open' && epochOver ==>
              (shardTxs == []
                && cr == Some(StartMsg(old(runner.supervisorEpoch) + 1,
                  Moves(old(state.partitionMap), state.partitionMap)))))
        && (open' && !epochOver ==>
              (cr == None && state.partitionMap == old(state.partitionMap)
               && Sorted(shardTxs, Directed(txs, SenderLocs(state.partitionMap, shardNum, txs), shardNum), shardNum)))
        && runner.epochSynced == (open' && !epochOver) && runner.shardEpoch == old(runner.shardEpoch)
        && runner.supervisorEpoch == old(runner.supervisorEpoch) + (if open' && epochOver then 1 else 0)
        && unsentTxNum == old(unsentTxNum) - (if open' && !epochOver then |txs| else 0)
        && stopCnt == (if open' && epochOver then 0 else old(stopCnt))
    {
      cr, shardTxs := None, [];
      var synced := runner.CheckEpochSyncAndMark();
      if !synced {
        return;
      }
      if epochOver {
        var start := Repartition();
        cr := Some(start);
        return;
      }
      var locs := Locate(txs);
      shardTxs := PackShardTxs(txs, locs, shardNum);
      unsentTxNum := unsentTxNum - |txs|;
    }

    method ShouldStop() returns (stop: bool)
      ensures stop == (stopCnt >= shardNum * STOP_THRESHOLD_PER_SHARD)
    {
      stop := stopCnt >= shardNum * STOP_THRESHOLD_PER_SHARD;
    }

    method Locate(txs: seq<Transaction>) returns (locs: seq<int>)
      requires Valid()
      ensures locs == SenderLocs(state.partitionMap, shardNum, txs)
    {
      locs := [];
      for i := 0 to |txs|
        invariant locs == SenderLocs(state.partitionMap, shardNum, txs[..i])
      {
        assert txs[..i + 1][..i] == txs[..i];
        locs := locs + [state.GetVertexLocation(txs[i].sender)];
      }
      assert txs[..|txs|] == txs;
    }
  }

  function SenderLocs(p: Partition, n: nat, txs: seq<Transaction>): (locs: seq<int>)
    requires n > 0
    ensures |locs| == |txs|
  {
    if txs == [] then [] else SenderLocs(p, n, txs[..|txs| - 1]) + [LocOf(p, txs[|txs| - 1].sender, n)]
  }

  /** The neighbours of `v` in the order the transactions are reported; one with itself counts twice. */
  function Neighbours(txs: seq<Transaction>, v: Address): seq<Address>
  {
    if txs == [] then [] else
    var front, last := Neighbours(txs[..|txs| - 1], v), txs[|txs| - 1];
    front + (if last.sender == v then [last.recipient] else []) + (if last.recipient == v then [last.sender] else [])
  }

  /** A vertex's list grows by its neighbours in the order they are reported. */
  lemma {:induction false} EdgesInOrder(edges: Edges, txs: seq<Transaction>, v: Address)
    ensures Adj(WithEdges(edges, txs), v) == Adj(edges, v) + Neighbours(txs, v)
  {
    if txs != [] {
      EdgesInOrder(edges, txs[..|txs| - 1], v);
    }
  }

  // ---------------------------------------------------------------------------------------------
  // What the supervisor sends is what the shard system injects
  // ---------------------------------------------------------------------------------------------

  /** The transactions injected one after another. */
  ghost function InjectedAll(c: Config, s: ShardSystem.System, txs: seq<Transaction>): ShardSystem.System
    requires c.Valid() && |s.shards| == |s.reported| == c.shardNum && AllInjectable(c, s, txs)
    ensures var s' := InjectedAll(c, s, txs);
      && |s'.shards| == |s'.reported| == c.shardNum && s'.synced && s'.partition == s.partition
    decreases |txs|
  {
    if txs == [] then s else
    assert Injectable(c, txs[|txs| - 1]);
    assert forall tx :: tx in txs[..|txs| - 1] ==> tx in txs;
    Apply(c, InjectedAll(c, s, txs[..|txs| - 1]), Inject(txs[|txs| - 1]))
  }

  predicate Injectable(c: Config, tx: Transaction)
  {
    Pooled(c.universe, tx) && tx.relayStage == UNDETERMINED
  }

  predicate AllInjectable(c: Config, s: ShardSystem.System, txs: seq<Transaction>)
  {
    s.synced && forall tx :: tx in txs ==> Injectable(c, tx)
  }

  lemma NoneDirected(p: Partition, n: nat)
    requires n > 0
    ensures Directed([], SenderLocs(p, n, []), n) == []
  {
  }

  lemma DirectedMore(p: Partition, n: nat, txs: seq<Transaction>)
    requires n > 0 && InRange(p, n) && txs != []
    ensures var front, last := txs[..|txs| - 1], txs[|txs| - 1];
      Directed(txs, SenderLocs(p, n, txs), n)
        == Directed(front, SenderLocs(p, n, front), n) + [TxTo(LocOf(p, last.sender, n), last)]
  {
    var locs := SenderLocs(p, n, txs);
    assert locs[..|locs| - 1] == SenderLocs(p, n, txs[..|txs| - 1]);
    assert 0 <= LocOf(p, txs[|txs| - 1].sender, n) < n;
  }

  lemma InjectApplied(c: Config, s: ShardSystem.System, tx: Transaction)
    requires c.Valid() && |s.shards| == |s.reported| == c.shardNum && s.synced && Injectable(c, tx)
    ensures Enabled(c, s, Inject(tx))
    ensures Apply(c, s, Inject(tx)) == s.(txs := s.txs + multiset{TxTo(LocOf(s.partition, tx.sender, c.shardNum), tx)})
  {
  }

  /** What the supervisor puts on the wire for a batch is what injecting the batch puts there, each
      transaction at its sender's shard, and injecting changes nothing else. */
  lemma {:induction false} BatchIsInjected(c: Config, s: ShardSystem.System, txs: seq<Transaction>)
    requires c.Valid() && |s.shards| == |s.reported| == c.shardNum && AllInjectable(c, s, txs)
    requires InRange(s.partition, c.shardNum)
    ensures InjectedAll(c, s, txs)
      == s.(txs := s.txs + multiset(Directed(txs, SenderLocs(s.partition, c.shardNum, txs), c.shardNum)))
    decreases |txs|
  {
    hide Apply, Enabled, Directed, SenderLocs;
    var locs := SenderLocs(s.partition, c.shardNum, txs);
    if txs == [] {
      NoneDirected(s.partition, c.shardNum);
      assert s.txs + multiset([]) == s.txs;
    } else {
      var front, last := txs[..|txs| - 1], txs[|txs| - 1];
      assert forall tx :: tx in front ==> tx in txs;
      BatchIsInjected(c, s, front);
      InjectApplied(c, InjectedAll(c, s, front), last);
      DirectedMore(s.partition, c.shardNum, txs);
    }
  }
}
