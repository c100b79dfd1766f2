/** The label propagation itself (pkg/partition/clpa.go): the partition, the counts and weights it
    keeps, and the main loop. Scores are not computed: whether a neighbouring shard beats the best one
    so far is left open, so what is proved holds for any scoring. */
module ClpaStates {
  import opened Types
  import opened Sums
  import opened Graphs
  import opened Clpa

  const UPDATE_THRESHOLD: nat := 50

  function VerticesAt(p: Partition, k: int): set<Vertex>
  {
    set v | v in p && p[v] == k
  }

  ghost predicate Counts(counts: seq<int>, p: Partition, n: int)
  {
    && |counts| == n
    && (forall v :: v in p ==> 0 <= p[v] < n)
    && forall k :: 0 <= k < n ==> counts[k] == |VerticesAt(p, k)|
  }

  ghost predicate IsMin(m: int, s: seq<int>)
  {
    m in s && forall x :: x in s ==> m <= x
  }

  lemma VerticesMove(p: Partition, v: Vertex, to: int, k: int)
    requires v in p && to != p[v]
    ensures |VerticesAt(p[v := to], k)|
      == |VerticesAt(p, k)| + (if k == to then 1 else 0) - (if k == p[v] then 1 else 0)
  {
    if k == to {
      assert VerticesAt(p[v := to], k) == VerticesAt(p, k) + {v};
    } else if k == p[v] {
      assert VerticesAt(p, k) == VerticesAt(p[v := to], k) + {v};
    } else {
      assert VerticesAt(p[v := to], k) == VerticesAt(p, k);
    }
  }

  lemma VerticesAdd(p: Partition, v: Vertex, to: int, k: int)
    requires v !in p
    ensures |VerticesAt(p[v := to], k)| == |VerticesAt(p, k)| + (if k == to then 1 else 0)
  {
    if k == to {
      assert VerticesAt(p[v := to], k) == VerticesAt(p, k) + {v};
    } else {
      assert VerticesAt(p[v := to], k) == VerticesAt(p, k);
    }
  }

  lemma CountsMove(counts: seq<int>, p: Partition, n: int, v: Vertex, to: int)
    requires Counts(counts, p, n) && v in p && 0 <= to < n && to != p[v]
    ensures Counts(counts[p[v] := counts[p[v]] - 1][to := counts[to] + 1], p[v := to], n)
  {
    hide VerticesAt;
    forall k | 0 <= k < n
      ensures |VerticesAt(p[v := to], k)|
        == |VerticesAt(p, k)| + (if k == to then 1 else 0) - (if k == p[v] then 1 else 0)
    {
      VerticesMove(p, v, to, k);
    }
  }

  lemma CountsAdd(counts: seq<int>, p: Partition, n: int, v: Vertex, to: int)
    requires Counts(counts, p, n) && v !in p && 0 <= to < n
    ensures Counts(counts[to := counts[to] + 1], p[v := to], n)
  {
    hide VerticesAt;
    forall k | 0 <= k < n
      ensures |VerticesAt(p[v := to], k)| == |VerticesAt(p, k)| + (if k == to then 1 else 0)
    {
      VerticesAdd(p, v, to, k);
    }
  }

  /** The tallies hold the lists of the vertices `done`. */
  ghost predicate Tallied(crossEdge: seq<int>, interEdge: seq<int>, edges: Edges, p: Partition, n: int,
      done: set<Vertex>)
    requires n > 0
  {
    && |crossEdge| == |interEdge| == n
    && (forall k :: 0 <= k < n ==> crossEdge[k] == Sum(done, (v: Vertex) => CrossOf(edges, p, n, k, v)))
    && (forall k :: 0 <= k < n ==> interEdge[k] == Sum(done, (v: Vertex) => InnerOf(edges, p, n, k, v)))
  }

  lemma TallyOne(crossEdge: seq<int>, interEdge: seq<int>, cross: seq<int>, inter: seq<int>, edges: Edges, p: Partition,
      n: int, done: set<Vertex>, v: Vertex)
    requires n > 0 && Tallied(crossEdge, interEdge, edges, p, n, done) && v !in done
    requires |cross| == |inter| == n
    requires forall k :: 0 <= k < n ==> cross[k] == crossEdge[k] + CrossOf(edges, p, n, k, v)
    requires forall k :: 0 <= k < n ==> inter[k] == interEdge[k] + InnerOf(edges, p, n, k, v)
    ensures Tallied(cross, inter, edges, p, n, done + {v})
  {
    assert done + {v} - {v} == done;
    forall k | 0 <= k < n
      ensures cross[k] == Sum(done + {v}, (x: Vertex) => CrossOf(edges, p, n, k, x))
      ensures inter[k] == Sum(done + {v}, (x: Vertex) => InnerOf(edges, p, n, k, x))
    {
      SumRemove(done + {v}, (x: Vertex) => CrossOf(edges, p, n, k, x), v);
      SumRemove(done + {v}, (x: Vertex) => InnerOf(edges, p, n, k, x), v);
    }
  }

  lemma TallyComplete(crossEdge: seq<int>, interEdge: seq<int>, edges: Edges, p: Partition, n: int)
    requires n > 0 && Tallied(crossEdge, interEdge, edges, p, n, edges.Keys)
    ensures forall k :: 0 <= k < n ==> crossEdge[k] == Cross(edges, p, n, k)
    ensures forall k :: 0 <= k < n ==> interEdge[k] == Inner(edges, p, n, k)
  {
  }

  function MovesOf(moves: seq<Move>, v: Vertex): nat
  {
    if moves == [] then 0 else MovesOf(moves[..|moves| - 1], v) + if moves[|moves| - 1].v == v then 1 else 0
  }

  /** The accounts whose shard differs, each with its new shard. */
  ghost predicate ExactDiff(ret: map<Vertex, int>, before: Partition, after: Partition)
  {
    && (forall v :: v in ret <==> v in before && v in after && before[v] != after[v])
    && forall v :: v in ret ==> ret[v] == after[v]
  }

  class CLPAState {
    const netGraph: Graph
    const shardNum: int
    const maxIterations: nat
    var partitionMap: Partition
    var shardWeight: seq<int>
    var vertexNumInShard: seq<int>
    var minShardWeight: int
    var crossShardEdgeNum: int

    ghost predicate Valid()
      reads this, netGraph
    {
      && netGraph.Valid() && shardNum > 0
      && partitionMap.Keys == netGraph.vertexSet
      && Counts(vertexNumInShard, partitionMap, shardNum)
      && |shardWeight| == shardNum && IsMin(minShardWeight, shardWeight)
    }

    constructor (maxIterations: nat, shardNum: int)
      requires shardNum > 0
      ensures Valid() && fresh(netGraph) && partitionMap == map[]
      ensures this.shardNum == shardNum && this.maxIterations == maxIterations
    {
      netGraph := new Graph();
      this.shardNum := shardNum;
      this.maxIterations := maxIterations;
      partitionMap := map[];
      shardWeight := seq(shardNum, _ => 0);
      vertexNumInShard := seq(shardNum, _ => 0);
      minShardWeight := 0;
      crossShardEdgeNum := 0;
      new;
      assert shardWeight[0] == 0;
      forall k | 0 <= k < shardNum
        ensures |VerticesAt(partitionMap, k)| == 0
      {
        assert VerticesAt(partitionMap, k) == {};
      }
    }

    /** A vertex seen for the first time goes to its default shard. */
    method AddEdge(u: Vertex, v: Vertex)
      requires Valid()
      modifies this, netGraph
      ensures Valid()
      ensures netGraph.vertexSet == old(netGraph.vertexSet) + {u, v}
      ensures netGraph.edgeSet == Listed(Listed(old(netGraph.edgeSet), u, v), v, u)
      ensures forall x :: LocOf(partitionMap, x, shardNum) == LocOf(old(partitionMap), x, shardNum)
      ensures unchanged(`shardWeight, `minShardWeight, `crossShardEdgeNum)
    {
      if u !in netGraph.vertexSet {
        AddVertex(u);
      }
      if v !in netGraph.vertexSet {
        AddVertex(v);
      }
      netGraph.AddEdge(u, v);
    }

    method AddVertex(v: Vertex)
      requires Valid()
      modifies this, netGraph
      ensures Valid()
      ensures netGraph.vertexSet == old(netGraph.vertexSet) + {v} && netGraph.edgeSet == old(netGraph.edgeSet)
      ensures partitionMap == if v in old(partitionMap) then old(partitionMap)
        else old(partitionMap)[v := DefaultAccountLoc(v, shardNum)]
      ensures unchanged(`shardWeight, `minShardWeight, `crossShardEdgeNum)
    {
      netGraph.AddVertex(v);
      if v !in partitionMap {
        var loc := DefaultAccountLoc(v, shardNum);
        CountsAdd(vertexNumInShard, partitionMap, shardNum, v, loc);
        partitionMap := partitionMap[v := loc];
        vertexNumInShard := vertexNumInShard[loc := vertexNumInShard[loc] + 1];
      }
    }

    function GetVertexLocation(v: Vertex): int
      requires shardNum > 0
      reads this
    {
      LocOf(partitionMap, v, shardNum)
    }

    /** The full recompute. */
    method ComputeEdges2Shard()
      requires Valid()
      modifies `shardWeight, `minShardWeight, `crossShardEdgeNum
      ensures Valid()
      ensures Exact(shardWeight, netGraph.edgeSet, partitionMap, shardNum) && IsMin(minShardWeight, shardWeight)
      ensures crossShardEdgeNum == CrossEntries(netGraph.edgeSet, partitionMap, shardNum)
    {
      var crossEdge, interEdge := CountEdges();
      crossShardEdgeNum := 0;
      for i := 0 to shardNum
        invariant crossShardEdgeNum == CrossBelow(netGraph.edgeSet, partitionMap, shardNum, i)
      {
        crossShardEdgeNum := crossShardEdgeNum + crossEdge[i];
      }
      CrossBelowIsAll(netGraph.edgeSet, partitionMap, shardNum);
      shardWeight := seq(shardNum,
        i requires 0 <= i < |crossEdge| && |crossEdge| == |interEdge| => 2 * crossEdge[i] + interEdge[i]);
      minShardWeight := Min(shardWeight);
    }

    method CountEdges() returns (crossEdge: seq<int>, interEdge: seq<int>)
      requires Valid()
      ensures |crossEdge| == |interEdge| == shardNum
      ensures forall k :: 0 <= k < shardNum ==> crossEdge[k] == Cross(netGraph.edgeSet, partitionMap, shardNum, k)
      ensures forall k :: 0 <= k < shardNum ==> interEdge[k] == Inner(netGraph.edgeSet, partitionMap, shardNum, k)
    {
      crossEdge, interEdge := seq(shardNum, _ => 0), seq(shardNum, _ => 0);
      hide Counts, Symmetric;
      var todo := netGraph.edgeSet.Keys;
      ghost var done: set<Vertex> := {};
      while todo != {}
        invariant todo + done == netGraph.edgeSet.Keys && todo !! done
        invariant Tallied(crossEdge, interEdge, netGraph.edgeSet, partitionMap, shardNum, done)
      {
        var v := AnyOf(todo);
        todo := todo - {v};
        var cross, inter := CountList(v, crossEdge, interEdge);
        TallyOne(crossEdge, interEdge, cross, inter, netGraph.edgeSet, partitionMap, shardNum, done, v);
        crossEdge, interEdge := cross, inter;
        done := done + {v};
      }
      assert done == netGraph.edgeSet.Keys;
      TallyComplete(crossEdge, interEdge, netGraph.edgeSet, partitionMap, shardNum);
    }

    method CountList(v: Vertex, crossEdge: seq<int>, interEdge: seq<int>) returns (cross: seq<int>, inter: seq<int>)
      requires Valid() && v in netGraph.edgeSet && |crossEdge| == |interEdge| == shardNum
      ensures |cross| == |inter| == shardNum
      ensures forall k :: 0 <= k < shardNum ==>
        cross[k] == crossEdge[k] + CrossOf(netGraph.edgeSet, partitionMap, shardNum, k, v)
      ensures forall k :: 0 <= k < shardNum ==>
        inter[k] == interEdge[k] + InnerOf(netGraph.edgeSet, partitionMap, shardNum, k, v)
    {
      cross, inter := crossEdge, interEdge;
      var vShard := GetVertexLocation(v);
      var lst := netGraph.edgeSet[v];
      for i := 0 to |lst|
        invariant 0 <= vShard < |crossEdge| == |interEdge|
        invariant cross
          == crossEdge[vShard := crossEdge[vShard] + i - CountAt(lst[..i], partitionMap, shardNum, vShard)]
        invariant inter == interEdge[vShard := interEdge[vShard] + CountAt(lst[..i], partitionMap, shardNum, vShard)]
      {
        assert lst[..i + 1][..i] == lst[..i];
        var uShard := GetVertexLocation(lst[i]);
        if vShard != uShard {
          cross := cross[vShard := cross[vShard] + 1];
        } else {
          inter := inter[vShard := inter[vShard] + 1];
        }
      }
      assert lst[..|lst|] == lst;
    }

    /** The incremental update after `v` has left shard `from`. */
    method ChangeShardRecompute(v: Vertex, from: int)
      requires Valid() && v in netGraph.edgeSet && v in partitionMap && 0 <= from < shardNum
      modifies `shardWeight, `minShardWeight
      ensures Valid() && IsMin(minShardWeight, shardWeight)
      ensures shardWeight
        == Adjusted(old(shardWeight), netGraph.edgeSet[v], partitionMap, shardNum, from, partitionMap[v])
    {
      var newShard := GetVertexLocation(v);
      assert 0 <= newShard < shardNum;
      hide Counts, Symmetric;
      var lst := netGraph.edgeSet[v];
      for i := 0 to |lst|
        invariant |shardWeight| == shardNum
        invariant shardWeight == Adjusted(old(shardWeight), lst[..i], partitionMap, shardNum, from, newShard)
      {
        assert lst[..i + 1][..i] == lst[..i];
        var uShard := GetVertexLocation(lst[i]);
        if uShard != newShard && uShard != from {
          shardWeight := shardWeight[newShard := shardWeight[newShard] + 2];
          shardWeight := shardWeight[from := shardWeight[from] - 2];
        } else if uShard == newShard {
          shardWeight := shardWeight[from := shardWeight[from] - 2];
        } else {
          shardWeight := shardWeight[newShard := shardWeight[newShard] + 2];
        }
      }
      assert lst[..|lst|] == lst;
      minShardWeight := Min(shardWeight);
    }

    /** The best neighbouring shard, or the present one. Each neighbouring shard is looked at once; what
        makes one better than another is left open. */
    method ChooseShard(v: Vertex) returns (best: int)
      requires Valid() && v in partitionMap
      ensures best == partitionMap[v] || (0 <= best < shardNum && NeighbourIn(netGraph.edgeSet, partitionMap, v, best))
    {
      var now := GetVertexLocation(v);
      var computed: set<nat> := {};
      best := now;
      var lst := Adj(netGraph.edgeSet, v);
      for i := 0 to |lst|
        invariant best == now || (0 <= best < shardNum && NeighbourIn(netGraph.edgeSet, partitionMap, v, best))
      {
        var u := lst[i];
        ListedHasList(netGraph.edgeSet, v, u);
        var uShard := GetVertexLocation(u);
        if uShard == now {
          continue;
        }
        if uShard !in computed {
          computed := computed + {uShard};
          var better: bool := *;
          if better {
            best := uShard;
          }
        }
      }
    }

    /** Moves `v` to shard `to` and brings the counts and weights up to date. */
    method MoveVertex(v: Vertex, to: int)
      requires Valid() && Movable(netGraph.edgeSet, shardNum, partitionMap, v, to)
      modifies this
      ensures Valid() && partitionMap == old(partitionMap)[v := to]
      ensures shardWeight
        == Adjusted(old(shardWeight), netGraph.edgeSet[v], partitionMap, shardNum, old(partitionMap)[v], to)
    {
      var now := GetVertexLocation(v);
      CountsMove(vertexNumInShard, partitionMap, shardNum, v, to);
      partitionMap := partitionMap[v := to];
      vertexNumInShard := vertexNumInShard[now := vertexNumInShard[now] - 1];
      vertexNumInShard := vertexNumInShard[to := vertexNumInShard[to] + 1];
      ChangeShardRecompute(v, now);
    }

    /** Runs label propagation. `moves` records the moves made, `kept` the weights the loop has kept
        incrementally when it ends. As every state of the loop does (`Progress`), they equal those of a
        recompute exactly when no vertex moved is its own neighbour. */
    method CLPAPartition() returns (ret: map<Vertex, int>, crossNum: int, ghost moves: seq<Move>, ghost kept: seq<int>)
      requires Valid()
      modifies this
      ensures Valid()
      ensures Legal(netGraph.edgeSet, old(partitionMap), shardNum, moves)
      ensures partitionMap == Replayed(old(partitionMap), moves)
      ensures forall v :: MovesOf(moves, v) <= UPDATE_THRESHOLD
      ensures StaysInhabited(old(partitionMap), partitionMap)
      ensures ExactDiff(ret, old(partitionMap), partitionMap)
      ensures Exact(shardWeight, netGraph.edgeSet, partitionMap, shardNum) && IsMin(minShardWeight, shardWeight)
      ensures Exact(kept, netGraph.edgeSet, partitionMap, shardNum) <==> LoopFreeMoves(netGraph.edgeSet, moves)
      ensures NoSelfLoops(netGraph.edgeSet) ==> Exact(kept, netGraph.edgeSet, partitionMap, shardNum)
      ensures crossNum == CrossEntries(netGraph.edgeSet, partitionMap, shardNum)
    {
      ComputeEdges2Shard();
      var originalLoc, updateTimes := partitionMap, map[];
      ghost var weights := shardWeight;
      Unmoved(netGraph.edgeSet, partitionMap, shardNum, weights);
      hide MovedSince, Counts, Symmetric, Kept, Exact, Refined, LoopFreeMoves, NoSelfLoops, Legal, Returned;
      ret, updateTimes, moves := Propagate(partitionMap, weights);
      kept := shardWeight;
      KeptInTheEnd(netGraph.edgeSet, shardNum, partitionMap, kept, originalLoc, weights, moves, ret, updateTimes);
      Recorded(netGraph.edgeSet, originalLoc, shardNum, moves, partitionMap, ret, updateTimes);
      ret := Prune(originalLoc, partitionMap, ret);
      ComputeEdges2Shard();
      crossNum := crossShardEdgeNum;
    }

    /** All iterations of the loop. */
    method Propagate(ghost start: Partition, ghost weights: seq<int>)
      returns (ret: map<Vertex, int>, updateTimes: map<Vertex, nat>, ghost moves: seq<Move>)
      requires Valid()
      requires Progress(netGraph.edgeSet, shardNum, partitionMap, shardWeight, start, weights, [], map[], map[])
      requires partitionMap.Keys == netGraph.vertexSet
      modifies this
      ensures Valid()
      ensures Progress(netGraph.edgeSet, shardNum, partitionMap, shardWeight, start, weights, moves, ret, updateTimes)
    {
      hide *;
      ret, updateTimes, moves := map[], map[], [];
      for iteration := 0 to maxIterations
        invariant Valid()
        invariant Progress(netGraph.edgeSet, shardNum, partitionMap, shardWeight, start, weights, moves, ret,
          updateTimes)
        invariant partitionMap.Keys == netGraph.vertexSet
      {
        ret, updateTimes, moves := Sweep(start, weights, moves, ret, updateTimes);
      }
    }

    /** Every vertex once. */
    method Sweep(ghost start: Partition, ghost weights: seq<int>, ghost moves: seq<Move>, ret: map<Vertex, int>,
        updateTimes: map<Vertex, nat>)
      returns (ret': map<Vertex, int>, updateTimes': map<Vertex, nat>, ghost moves': seq<Move>)
      requires Valid()
      requires Progress(netGraph.edgeSet, shardNum, partitionMap, shardWeight, start, weights, moves, ret, updateTimes)
      requires partitionMap.Keys == netGraph.vertexSet
      modifies this
      ensures Valid()
      ensures Progress(netGraph.edgeSet, shardNum, partitionMap, shardWeight, start, weights, moves', ret',
        updateTimes')
      ensures partitionMap.Keys == netGraph.vertexSet
    {
      hide *;
      var todo := netGraph.vertexSet;
      ret', updateTimes', moves' := ret, updateTimes, moves;
      while todo != {}
        invariant todo <= partitionMap.Keys == netGraph.vertexSet
        invariant Valid()
        invariant Progress(netGraph.edgeSet, shardNum, partitionMap, shardWeight, start, weights, moves', ret',
          updateTimes')
      {
        var v := AnyOf(todo);
        todo := todo - {v};
        ghost var chosen;
        ret', updateTimes', moves', chosen := Consider(v, start, weights, moves', ret', updateTimes');
      }
    }

    /** One vertex's turn in the loop. It moves exactly when it has not moved too often, a different shard is
        chosen for it, and its present shard holds more than this one. */
    method Consider(v: Vertex, ghost start: Partition, ghost weights: seq<int>, ghost moves: seq<Move>,
        ret: map<Vertex, int>, updateTimes: map<Vertex, nat>)
      returns (ret': map<Vertex, int>, updateTimes': map<Vertex, nat>, ghost moves': seq<Move>, ghost chosen: int)
      requires Valid()
      requires Progress(netGraph.edgeSet, shardNum, partitionMap, shardWeight, start, weights, moves, ret, updateTimes)
      requires v in partitionMap
      modifies this
      ensures Valid()
      ensures Progress(netGraph.edgeSet, shardNum, partitionMap, shardWeight, start, weights, moves', ret',
        updateTimes')
      ensures partitionMap.Keys == old(partitionMap.Keys)
      ensures chosen == old(partitionMap)[v] || NeighbourIn(netGraph.edgeSet, old(partitionMap), v, chosen)
      ensures var now := old(partitionMap)[v];
        var goes := TimesIn(updateTimes, v) < UPDATE_THRESHOLD && chosen != now
          && |VerticesAt(old(partitionMap), now)| > 1;
        && partitionMap == (if goes then old(partitionMap)[v := chosen] else old(partitionMap))
        && moves' == (if goes then moves + [Move(v, chosen)] else moves)
    {
      hide *;
      ret', updateTimes', moves' := ret, updateTimes, moves;
      chosen := partitionMap[v];
      var times := TimesIn(updateTimes, v);
      if times >= UPDATE_THRESHOLD {
        return;
      }
      var best;
      best, chosen := Candidate(v);
      if partitionMap[v] != best {
        ret' := ret[v := best];
        updateTimes' := updateTimes[v := times + 1];
        moves' := moves + [Move(v, best)];
        Relocate(v, best, start, weights, moves, ret, updateTimes);
      }
    }

    /** The shard to move `v` to: the one chosen, unless `v` is alone in its shard. */
    method Candidate(v: Vertex) returns (best: int, ghost chosen: int)
      requires Valid() && v in partitionMap
      ensures chosen == partitionMap[v] || NeighbourIn(netGraph.edgeSet, partitionMap, v, chosen)
      ensures best == if |VerticesAt(partitionMap, partitionMap[v])| > 1 then chosen else partitionMap[v]
      ensures best != partitionMap[v] ==>
        Movable(netGraph.edgeSet, shardNum, partitionMap, v, best) && |shardWeight| == shardNum
    {
      best := ChooseShard(v);
      chosen := best;
      if vertexNumInShard[partitionMap[v]] <= 1 {
        best := partitionMap[v];
      }
    }

    method Relocate(v: Vertex, to: int, ghost start: Partition, ghost weights: seq<int>, ghost moves: seq<Move>,
        ghost ret: map<Vertex, int>, ghost updateTimes: map<Vertex, nat>)
      requires Valid()
      requires Progress(netGraph.edgeSet, shardNum, partitionMap, shardWeight, start, weights, moves, ret, updateTimes)
      requires Movable(netGraph.edgeSet, shardNum, partitionMap, v, to) && |shardWeight| == shardNum
      requires TimesIn(updateTimes, v) < UPDATE_THRESHOLD
      modifies this
      ensures Valid()
      ensures Progress(netGraph.edgeSet, shardNum, partitionMap, shardWeight, start, weights, moves + [Move(v, to)],
        ret[v := to], updateTimes[v := TimesIn(updateTimes, v) + 1])
      ensures partitionMap == old(partitionMap)[v := to]
    {
      hide *;
      ProgressMore(netGraph.edgeSet, shardNum, partitionMap, shardWeight, start, weights, moves, ret, updateTimes, v,
        to);
      MoveVertex(v, to);
    }
  }

  /** `v` may go to shard `to`: it has neighbours and does not leave its shard empty. */
  ghost predicate Movable(edges: Edges, n: int, p: Partition, v: Vertex, to: int)
  {
    v in p && v in edges && 0 <= p[v] < n && 0 <= to < n && to != p[v] && |VerticesAt(p, p[v])| > 1
  }

  predicate NeighbourIn(edges: Edges, p: Partition, v: Vertex, k: int)
  {
    v in edges && exists u :: u in edges[v] && u in p && p[u] == k
  }

  /** What the loop has recorded for return: the present shard of every vertex that ever moved. */
  ghost predicate Returned(start: Partition, p: Partition, ret: map<Vertex, int>)
  {
    && (forall v :: v in ret ==> v in p && ret[v] == p[v])
    && (forall v :: v in p && v !in ret ==> v in start && start[v] == p[v])
  }

  /** What the loop has made of `start`: the moves, what is recorded of them, and how often each vertex
      has moved. */
  ghost predicate MovedSince(edges: Edges, start: Partition, n: int, moves: seq<Move>, p: Partition,
      ret: map<Vertex, int>, updateTimes: map<Vertex, nat>)
    requires n > 0
  {
    && Legal(edges, start, n, moves) && p == Replayed(start, moves)
    && Returned(start, p, ret) && StaysInhabited(start, p)
    && forall v :: MovesOf(moves, v) == TimesIn(updateTimes, v) <= UPDATE_THRESHOLD
  }

  function TimesIn(updateTimes: map<Vertex, nat>, v: Vertex): nat
  {
    if v in updateTimes then updateTimes[v] else 0
  }

  /** The state of the loop: what has been moved since `start` and `weights`, how often, and what is to
      be returned. */
  ghost predicate Progress(edges: Edges, n: int, p: Partition, stored: seq<int>, start: Partition, weights: seq<int>,
      moves: seq<Move>, ret: map<Vertex, int>, updateTimes: map<Vertex, nat>)
  {
    && 0 < n == |weights| && p.Keys == start.Keys
    && MovedSince(edges, start, n, moves, p, ret, updateTimes)
    && stored == Kept(weights, edges, start, n, moves)
    && Refined(edges, n, p, stored, start, weights, moves)
  }

  /** Given exact weights to begin with, the weights kept are those a recompute of the present partition
      would yield exactly when no vertex moved is its own neighbour. */
  ghost predicate Refined(edges: Edges, n: int, p: Partition, stored: seq<int>, start: Partition, weights: seq<int>,
      moves: seq<Move>)
    requires n > 0
  {
    Symmetric(edges) && Exact(weights, edges, start, n) ==>
      (Exact(stored, edges, p, n) <==> LoopFreeMoves(edges, moves))
  }

  lemma KeptRefined(edges: Edges, n: int, p: Partition, stored: seq<int>, start: Partition, weights: seq<int>,
      moves: seq<Move>)
    requires 0 < n == |weights| && Legal(edges, start, n, moves) && p == Replayed(start, moves)
    requires stored == Kept(weights, edges, start, n, moves)
    ensures Refined(edges, n, p, stored, start, weights, moves)
  {
    if Symmetric(edges) && Exact(weights, edges, start, n) {
      KeptExactlyWhen(weights, edges, start, n, moves);
    }
  }

  lemma KeptInTheEnd(edges: Edges, n: int, p: Partition, kept: seq<int>, start: Partition, weights: seq<int>,
      moves: seq<Move>, ret: map<Vertex, int>, updateTimes: map<Vertex, nat>)
    requires Progress(edges, n, p, kept, start, weights, moves, ret, updateTimes)
    requires Symmetric(edges) && Exact(weights, edges, start, n)
    ensures Exact(kept, edges, p, n) <==> LoopFreeMoves(edges, moves)
    ensures NoSelfLoops(edges) ==> Exact(kept, edges, p, n)
  {
    hide Exact, Symmetric, MovedSince, Kept;
  }

  lemma ProgressMore(edges: Edges, n: int, p: Partition, stored: seq<int>, start: Partition, weights: seq<int>,
      moves: seq<Move>, ret: map<Vertex, int>, updateTimes: map<Vertex, nat>, v: Vertex, to: int)
    requires Progress(edges, n, p, stored, start, weights, moves, ret, updateTimes)
    requires Movable(edges, n, p, v, to)
    requires TimesIn(updateTimes, v) < UPDATE_THRESHOLD && |stored| == n
    ensures Progress(edges, n, p[v := to], Adjusted(stored, edges[v], p[v := to], n, p[v], to), start, weights,
              moves + [Move(v, to)], ret[v := to], updateTimes[v := TimesIn(updateTimes, v) + 1])
  {
    hide Kept, Adjusted, Legal, Replayed, Returned, StaysInhabited, VerticesAt, MovesOf, Refined;
    OneMoreMove(edges, start, n, moves, p, ret, updateTimes, v, to);
    OneMoreKept(weights, edges, start, n, moves, p, v, to);
    KeptRefined(edges, n, p[v := to], Adjusted(stored, edges[v], p[v := to], n, p[v], to), start, weights,
      moves + [Move(v, to)]);
  }

  lemma Unmoved(edges: Edges, p: Partition, n: int, weights: seq<int>)
    requires 0 < n == |weights|
    ensures Progress(edges, n, p, weights, p, weights, [], map[], map[])
  {
    forall v | v in p
      ensures Inhabited(p, p[v])
    {
    }
  }

  lemma Recorded(edges: Edges, start: Partition, n: int, moves: seq<Move>, p: Partition, ret: map<Vertex, int>,
      updateTimes: map<Vertex, nat>)
    requires n > 0 && MovedSince(edges, start, n, moves, p, ret, updateTimes)
    ensures Legal(edges, start, n, moves) && p == Replayed(start, moves) && Returned(start, p, ret)
    ensures StaysInhabited(start, p)
    ensures forall v :: MovesOf(moves, v) <= UPDATE_THRESHOLD
  {
  }

  lemma OneMoreMove(edges: Edges, start: Partition, n: int, moves: seq<Move>, p: Partition, ret: map<Vertex, int>,
      updateTimes: map<Vertex, nat>, v: Vertex, to: int)
    requires n > 0 && MovedSince(edges, start, n, moves, p, ret, updateTimes)
    requires Movable(edges, n, p, v, to)
    requires MovesOf(moves, v) < UPDATE_THRESHOLD
    ensures MovedSince(edges, start, n, moves + [Move(v, to)], p[v := to], ret[v := to],
      updateTimes[v := MovesOf(moves, v) + 1])
  {
    hide StaysInhabited, Legal, MovesOf, Replayed, VerticesAt, Returned;
    StillInhabited(start, p, v, to);
    ReturnedMore(start, p, ret, v, to);
    LegalMore(edges, start, n, moves, p, v, to);
    TimesMore(moves, updateTimes, v, to);
  }

  lemma ReturnedMore(start: Partition, p: Partition, ret: map<Vertex, int>, v: Vertex, to: int)
    requires Returned(start, p, ret)
    ensures Returned(start, p[v := to], ret[v := to])
  {
  }

  lemma LegalMore(edges: Edges, start: Partition, n: int, moves: seq<Move>, p: Partition, v: Vertex, to: int)
    requires n > 0 && Legal(edges, start, n, moves) && p == Replayed(start, moves)
    requires v in p && v in edges && 0 <= p[v] < n && 0 <= to < n && to != p[v]
    ensures Legal(edges, start, n, moves + [Move(v, to)]) && Replayed(start, moves + [Move(v, to)]) == p[v := to]
  {
    assert (moves + [Move(v, to)])[..|moves|] == moves;
  }

  lemma TimesMore(moves: seq<Move>, updateTimes: map<Vertex, nat>, v: Vertex, to: int)
    requires forall x :: MovesOf(moves, x) == TimesIn(updateTimes, x)
    ensures var times := updateTimes[v := MovesOf(moves, v) + 1];
      forall x :: MovesOf(moves + [Move(v, to)], x) == TimesIn(times, x)
    ensures forall x :: x != v ==> MovesOf(moves + [Move(v, to)], x) == MovesOf(moves, x)
  {
    assert (moves + [Move(v, to)])[..|moves|] == moves;
  }

  lemma OneMoreKept(weights: seq<int>, edges: Edges, start: Partition, n: int, moves: seq<Move>, p: Partition,
      v: Vertex, to: int)
    requires 0 < n == |weights| && Legal(edges, start, n, moves) && p == Replayed(start, moves)
    requires v in p && v in edges && 0 <= p[v] < n && 0 <= to < n && to != p[v]
    ensures Legal(edges, start, n, moves + [Move(v, to)]) && Replayed(start, moves + [Move(v, to)]) == p[v := to]
    ensures Kept(weights, edges, start, n, moves + [Move(v, to)])
      == Adjusted(Kept(weights, edges, start, n, moves), edges[v], p[v := to], n, p[v], to)
  {
    assert (moves + [Move(v, to)])[..|moves|] == moves;
  }

  ghost predicate Inhabited(p: Partition, k: int)
  {
    exists u :: u in p && p[u] == k
  }

  ghost predicate StaysInhabited(start: Partition, p: Partition)
  {
    forall v :: v in start ==> Inhabited(p, start[v])
  }

  /** A vertex that leaves a shard with at least two leaves one behind. */
  lemma StillInhabited(start: Partition, p: Partition, v: Vertex, to: int)
    requires v in p && |VerticesAt(p, p[v])| > 1 && StaysInhabited(start, p)
    ensures StaysInhabited(start, p[v := to])
  {
    var rest := VerticesAt(p, p[v]) - {v};
    assert |VerticesAt(p, p[v])| <= |rest| + 1;
    var w :| w in rest;
    var p' := p[v := to];
    forall x | x in start
      ensures Inhabited(p', start[x])
    {
      var u :| u in p && p[u] == start[x];
      var stay := if u == v then w else u;
      assert stay in p' && p'[stay] == start[x];
    }
  }

  /** Accounts that came back to where they were are not returned. */
  method Prune(originalLoc: Partition, p: Partition, ret: map<Vertex, int>) returns (pruned: map<Vertex, int>)
    requires Returned(originalLoc, p, ret) && p.Keys == originalLoc.Keys
    ensures ExactDiff(pruned, originalLoc, p)
  {
    pruned := ret;
    var todo := originalLoc.Keys;
    while todo != {}
      invariant todo <= originalLoc.Keys
      invariant forall v :: v in pruned <==> v in ret && (v in todo || originalLoc[v] != p[v])
      invariant forall v :: v in pruned ==> pruned[v] == p[v]
    {
      var acc := AnyOf(todo);
      todo := todo - {acc};
      var found := if acc in pruned then pruned[acc] else 0;
      if found == originalLoc[acc] {
        pruned := pruned - {acc};
      }
    }
  }

  /** Cross-shard entries of the first `m` shards; half of that is the number of cross-shard edges. */
  ghost function CrossBelow(edges: Edges, p: Partition, n: int, m: nat): int
    requires n > 0
  {
    if m == 0 then 0 else CrossBelow(edges, p, n, m - 1) + Cross(edges, p, n, m - 1)
  }

  function OwnCross(edges: Edges, p: Partition, n: int, m: int, v: Vertex): int
    requires n > 0
  {
    if 0 <= LocOf(p, v, n) < m then CrossOf(edges, p, n, LocOf(p, v, n), v) else 0
  }

  lemma {:induction false} CrossBelowShares(edges: Edges, p: Partition, n: int, m: nat)
    requires n > 0
    ensures CrossBelow(edges, p, n, m) == Sum(edges.Keys, (v: Vertex) => OwnCross(edges, p, n, m, v))
  {
    if m == 0 {
      SumScaled(edges.Keys, (v: Vertex) => OwnCross(edges, p, n, 0, v), 0);
    } else {
      CrossBelowShares(edges, p, n, m - 1);
      SumPlus(edges.Keys, (v: Vertex) => OwnCross(edges, p, n, m - 1, v), (v: Vertex) => CrossOf(edges, p, n, m - 1, v),
        (v: Vertex) => OwnCross(edges, p, n, m, v));
    }
  }

  /** Counted shard by shard or list by list, the cross-shard entries are the same. */
  lemma CrossBelowIsAll(edges: Edges, p: Partition, n: int)
    requires n > 0 && forall v :: v in edges ==> 0 <= LocOf(p, v, n) < n
    ensures CrossBelow(edges, p, n, n) == CrossEntries(edges, p, n)
  {
    CrossBelowShares(edges, p, n, n);
    SumCongruent(edges.Keys, (v: Vertex) => OwnCross(edges, p, n, n, v),
      (v: Vertex) => CrossOf(edges, p, n, LocOf(p, v, n), v));
  }

  method Min(s: seq<int>) returns (m: int)
    requires s != []
    ensures IsMin(m, s)
  {
    m := s[0];
    for i := 1 to |s|
      invariant m in s && forall k :: 0 <= k < i ==> m <= s[k]
    {
      if s[i] < m {
        m := s[i];
      }
    }
  }
}
