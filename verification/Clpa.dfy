/** Shard weights under label propagation (pkg/partition/clpa.go). All weights are doubled, which makes
    them integers: an edge between two shards counts 2 for each of them, an edge inside a shard 2 for
    that shard (1 for each end). */
module Clpa {
  import opened Types
  import opened Sums
  import opened Graphs

  type Partition = map<Vertex, int>

  // ---------------------------------------------------------------------------------------------
  // The weights the full recompute defines
  // ---------------------------------------------------------------------------------------------

  /** How many entries of a list lie in shard `k`. */
  function CountAt(s: seq<Vertex>, p: Partition, n: int, k: int): nat
    requires n > 0
    ensures CountAt(s, p, n, k) <= |s|
  {
    if s == [] then 0 else CountAt(s[..|s| - 1], p, n, k) + if LocOf(p, s[|s| - 1], n) == k then 1 else 0
  }

  /** What the list of `v` adds to shard `k`: the entries leading elsewhere, and those staying. */
  function CrossOf(edges: Edges, p: Partition, n: int, k: int, v: Vertex): int
    requires n > 0
  {
    if LocOf(p, v, n) == k then |Adj(edges, v)| - CountAt(Adj(edges, v), p, n, k) else 0
  }

  function InnerOf(edges: Edges, p: Partition, n: int, k: int, v: Vertex): int
    requires n > 0
  {
    if LocOf(p, v, n) == k then CountAt(Adj(edges, v), p, n, k) else 0
  }

  ghost function Cross(edges: Edges, p: Partition, n: int, k: int): int
    requires n > 0
  {
    Sum(edges.Keys, (v: Vertex) => CrossOf(edges, p, n, k, v))
  }

  ghost function Inner(edges: Edges, p: Partition, n: int, k: int): int
    requires n > 0
  {
    Sum(edges.Keys, (v: Vertex) => InnerOf(edges, p, n, k, v))
  }

  /** Twice the weight of shard `k`. */
  ghost function Weight(edges: Edges, p: Partition, n: int, k: int): int
    requires n > 0
  {
    2 * Cross(edges, p, n, k) + Inner(edges, p, n, k)
  }

  ghost predicate Exact(weights: seq<int>, edges: Edges, p: Partition, n: int)
    requires n > 0
  {
    |weights| == n && forall k :: 0 <= k < n ==> weights[k] == Weight(edges, p, n, k)
  }

  /** Both parts of a vertex's share at once. */
  function ShareOf(edges: Edges, p: Partition, n: int, k: int, v: Vertex): int
    requires n > 0
  {
    2 * CrossOf(edges, p, n, k, v) + InnerOf(edges, p, n, k, v)
  }

  lemma WeightIsShares(edges: Edges, p: Partition, n: int, k: int)
    requires n > 0
    ensures Weight(edges, p, n, k) == Sum(edges.Keys, (v: Vertex) => ShareOf(edges, p, n, k, v))
  {
    var cross := (v: Vertex) => CrossOf(edges, p, n, k, v);
    var twice := (v: Vertex) => 2 * CrossOf(edges, p, n, k, v);
    SumPlus(edges.Keys, cross, cross, twice);
    SumPlus(edges.Keys, twice, (v: Vertex) => InnerOf(edges, p, n, k, v), (v: Vertex) => ShareOf(edges, p, n, k, v));
  }

  // ---------------------------------------------------------------------------------------------
  // Moving one vertex
  // ---------------------------------------------------------------------------------------------

  predicate At(p: Partition, n: int, v: Vertex, k: int)
    requires n > 0
  {
    LocOf(p, v, n) == k
  }

  /** Relocating `v` moves its occurrences in a list from the old count to the new. */
  lemma {:induction false} CountMoves(s: seq<Vertex>, p: Partition, n: int, v: Vertex, to: int, k: int)
    requires n > 0
    ensures CountAt(s, p[v := to], n, k)
      == CountAt(s, p, n, k) + (if to == k then multiset(s)[v] else 0) - (if At(p, n, v, k) then multiset(s)[v] else 0)
  {
    if s != [] {
      CountMoves(s[..|s| - 1], p, n, v, to, k);
      assert s == s[..|s| - 1] + [s[|s| - 1]];
    }
  }

  function TimesAt(s: seq<Vertex>, p: Partition, n: int, k: int, x: Vertex): int
    requires n > 0
  {
    if At(p, n, x, k) then multiset(s)[x] else 0
  }

  /** Counting a list entry by entry is counting it vertex by vertex. */
  lemma {:induction false} CountByVertex(s: seq<Vertex>, p: Partition, n: int, k: int, vs: set<Vertex>)
    requires n > 0 && forall u :: u in s ==> u in vs
    ensures CountAt(s, p, n, k) == Sum(vs, (x: Vertex) => TimesAt(s, p, n, k, x))
  {
    if s == [] {
      SumScaled(vs, (x: Vertex) => TimesAt(s, p, n, k, x), 0);
    } else {
      var front, last := s[..|s| - 1], s[|s| - 1];
      assert s == front + [last];
      CountByVertex(front, p, n, k, vs);
      SumUpdate(vs, (x: Vertex) => TimesAt(front, p, n, k, x), (x: Vertex) => TimesAt(s, p, n, k, x), last);
    }
  }

  /** What the lists of the other vertices in shard `k` hold of `v` is what the list of `v` holds of
      them. */
  function HoldsOf(edges: Edges, p: Partition, n: int, k: int, v: Vertex, x: Vertex): int
    requires n > 0
  {
    if x != v && At(p, n, x, k) then Times(edges, x, v) else 0
  }

  lemma NeighboursListBack(edges: Edges, p: Partition, n: int, k: int, v: Vertex)
    requires n > 0 && Symmetric(edges) && v in edges
    ensures Sum(edges.Keys, (x: Vertex) => HoldsOf(edges, p, n, k, v, x))
      == CountAt(edges[v], p, n, k) - if At(p, n, v, k) then Times(edges, v, v) else 0
  {
    var s := edges[v];
    var held := (x: Vertex) => HoldsOf(edges, p, n, k, v, x);
    var times := (x: Vertex) => TimesAt(s, p, n, k, x);
    forall u | u in s
      ensures u in edges.Keys
    {
      ListedHasList(edges, v, u);
    }
    CountByVertex(s, p, n, k, edges.Keys);
    SumRemove(edges.Keys, held, v);
    SumRemove(edges.Keys, times, v);
    SumCongruent(edges.Keys - {v}, held, times);
  }

  /** 1 for the shard left, -1 for the shard entered. */
  function Leaves(p: Partition, n: int, v: Vertex, to: int, k: int): int
    requires n > 0
  {
    (if At(p, n, v, k) then 1 else 0) - (if to == k then 1 else 0)
  }

  /** The share of another vertex changes by the occurrences of `v` in its list. */
  lemma OtherShareMoves(edges: Edges, p: Partition, n: int, v: Vertex, to: int, k: int, x: Vertex)
    requires n > 0 && x != v
    ensures ShareOf(edges, p[v := to], n, k, x) == ShareOf(edges, p, n, k, x)
      + Leaves(p, n, v, to, k) * HoldsOf(edges, p, n, k, v, x)
  {
    CountMoves(Adj(edges, x), p, n, v, to, k);
  }

  lemma Distributes(c: int, a: int, b: int)
    ensures c * (a + b) == c * a + c * b
  {
  }

  lemma {:induction false} SumTimes<T(!new)>(s: set<T>, f: T -> int, g: T -> int, c: int)
    requires forall x :: x in s ==> g(x) == c * f(x)
    ensures Sum(s, g) == c * Sum(s, f)
    decreases |s|
  {
    if s != {} {
      var x :| x in s;
      SumRemove(s, f, x);
      SumRemove(s, g, x);
      SumTimes(s - {x}, f, g, c);
      Distributes(c, f(x), Sum(s - {x}, f));
    }
  }

  lemma OtherSharesMove(edges: Edges, p: Partition, n: int, v: Vertex, to: int, k: int, others: set<Vertex>)
    requires n > 0 && v !in others
    ensures Sum(others, (x: Vertex) => ShareOf(edges, p[v := to], n, k, x))
      == Sum(others, (x: Vertex) => ShareOf(edges, p, n, k, x))
         + Leaves(p, n, v, to, k) * Sum(others, (x: Vertex) => HoldsOf(edges, p, n, k, v, x))
  {
    var c := Leaves(p, n, v, to, k);
    var share, share' := (x: Vertex) => ShareOf(edges, p, n, k, x), (x: Vertex) => ShareOf(edges, p[v := to], n, k, x);
    var held := (x: Vertex) => HoldsOf(edges, p, n, k, v, x);
    var scaled := (x: Vertex) => c * HoldsOf(edges, p, n, k, v, x);
    forall x | x in others
      ensures share'(x) == share(x) + scaled(x)
    {
      OtherShareMoves(edges, p, n, v, to, k, x);
    }
    SumPlus(others, share, scaled, share');
    SumTimes(others, held, scaled, c);
  }

  /** How the weight of a shard changes when `v` moves. */
  lemma WeightMoves(edges: Edges, p: Partition, n: int, v: Vertex, to: int, k: int)
    requires n > 0 && Symmetric(edges) && v in edges
    ensures Weight(edges, p[v := to], n, k) == Weight(edges, p, n, k)
        + ShareOf(edges, p[v := to], n, k, v) - ShareOf(edges, p, n, k, v)
        + Leaves(p, n, v, to, k) * (CountAt(edges[v], p, n, k) - if At(p, n, v, k) then Times(edges, v, v) else 0)
  {
    WeightIsShares(edges, p, n, k);
    WeightIsShares(edges, p[v := to], n, k);
    NeighboursListBack(edges, p, n, k, v);
    OtherSharesMove(edges, p, n, v, to, k, edges.Keys - {v});
    SumRemove(edges.Keys, (x: Vertex) => ShareOf(edges, p, n, k, x), v);
    SumRemove(edges.Keys, (x: Vertex) => ShareOf(edges, p[v := to], n, k, x), v);
    SumRemove(edges.Keys, (x: Vertex) => HoldsOf(edges, p, n, k, v, x), v);
  }

  // ---------------------------------------------------------------------------------------------
  // The incremental form refines the recompute
  // ---------------------------------------------------------------------------------------------

  /** What the incremental update makes of the weights, going through the list of the moved vertex;
      `p` already has it at its new place. */
  function Adjusted(weights: seq<int>, s: seq<Vertex>, p: Partition, n: int, from: int, to: int): (r: seq<int>)
    requires n > 0 && 0 <= from < |weights| && 0 <= to < |weights|
    ensures |r| == |weights|
  {
    if s == [] then weights else
    var w := Adjusted(weights, s[..|s| - 1], p, n, from, to);
    var shard := LocOf(p, s[|s| - 1], n);
    if shard != to && shard != from then (var w' := w[to := w[to] + 2]; w'[from := w'[from] - 2])
    else if shard == to then w[from := w[from] - 2]
    else w[to := w[to] + 2]
  }

  lemma {:induction false} AdjustedTotals(weights: seq<int>, s: seq<Vertex>, p: Partition, n: int, from: int, to: int)
    requires n > 0 && 0 <= from < |weights| && 0 <= to < |weights| && from != to
    ensures var w := Adjusted(weights, s, p, n, from, to);
      && w[from] == weights[from] - 2 * (|s| - CountAt(s, p, n, from))
      && w[to] == weights[to] + 2 * (|s| - CountAt(s, p, n, to))
      && forall k :: 0 <= k < |weights| && k != from && k != to ==> w[k] == weights[k]
  {
    if s != [] {
      AdjustedTotals(weights, s[..|s| - 1], p, n, from, to);
    }
  }

  /** Moving `v` changes the distance between the stored and the true weight of a shard by its
      self-loop entries, at the shard left and at the shard entered, and nowhere else. */
  lemma DriftLaw(weights: seq<int>, edges: Edges, p: Partition, n: int, v: Vertex, to: int, k: int)
    requires 0 < n == |weights| && Symmetric(edges) && v in edges && 0 <= k < n
    requires 0 <= LocOf(p, v, n) < n && 0 <= to < n && LocOf(p, v, n) != to
    ensures var from := LocOf(p, v, n);
      Adjusted(weights, edges[v], p[v := to], n, from, to)[k] - Weight(edges, p[v := to], n, k)
      == weights[k] - Weight(edges, p, n, k) - if k == from || k == to then Times(edges, v, v) else 0
  {
    AdjustedTotals(weights, edges[v], p[v := to], n, LocOf(p, v, n), to);
    TrueChange(edges, p, n, v, to, k);
  }

  lemma TrueChange(edges: Edges, p: Partition, n: int, v: Vertex, to: int, k: int)
    requires n > 0 && Symmetric(edges) && v in edges && LocOf(p, v, n) != to
    ensures var s, p' := edges[v], p[v := to];
      Weight(edges, p', n, k) == Weight(edges, p, n, k)
        + (if k == to then 2 * (|s| - CountAt(s, p', n, k)) + Times(edges, v, v)
           else if k == LocOf(p, v, n) then Times(edges, v, v) - 2 * (|s| - CountAt(s, p', n, k))
           else 0)
  {
    WeightMoves(edges, p, n, v, to, k);
    CountMoves(edges[v], p, n, v, to, k);
    hide Weight, CountAt, Symmetric;
    if k == to {
      assert Leaves(p, n, v, to, k) == -1;
    } else if k == LocOf(p, v, n) {
      assert Leaves(p, n, v, to, k) == 1;
    } else {
      assert Leaves(p, n, v, to, k) == 0;
    }
  }

  /** From exact weights, the incremental update yields the weights of the recompute exactly when the
      moved vertex has no self-loop. */
  lemma IncrementalExactlyWhen(weights: seq<int>, edges: Edges, p: Partition, n: int, v: Vertex, to: int)
    requires n > 0 && Exact(weights, edges, p, n) && Symmetric(edges) && v in edges
    requires 0 <= LocOf(p, v, n) < n && 0 <= to < n && LocOf(p, v, n) != to
    ensures Exact(Adjusted(weights, edges[v], p[v := to], n, LocOf(p, v, n), to), edges, p[v := to], n)
      <==> v !in edges[v]
  {
    var w := Adjusted(weights, edges[v], p[v := to], n, LocOf(p, v, n), to);
    if v !in edges[v] {
      forall k | 0 <= k < n
        ensures w[k] == Weight(edges, p[v := to], n, k)
      {
        DriftLaw(weights, edges, p, n, v, to, k);
      }
    } else {
      DriftLaw(weights, edges, p, n, v, to, to);
      assert w[to] != Weight(edges, p[v := to], n, to);
    }
  }

  datatype Move = Move(v: Vertex, to: int)

  function Replayed(p: Partition, moves: seq<Move>): Partition
  {
    if moves == [] then p else
    var last := moves[|moves| - 1];
    Replayed(p, moves[..|moves| - 1])[last.v := last.to]
  }

  /** Each move takes a vertex with neighbours from a shard to a different one. */
  ghost predicate Legal(edges: Edges, p: Partition, n: int, moves: seq<Move>)
    requires n > 0
    decreases |moves|
  {
    moves != [] ==>
      && var front, last := moves[..|moves| - 1], moves[|moves| - 1];
      && Legal(edges, p, n, front)
      && last.v in edges && 0 <= LocOf(Replayed(p, front), last.v, n) < n && 0 <= last.to < n
      && LocOf(Replayed(p, front), last.v, n) != last.to
  }

  /** The stored weights after a sequence of moves, each followed by the incremental update. */
  ghost function Kept(weights: seq<int>, edges: Edges, p: Partition, n: int, moves: seq<Move>): (r: seq<int>)
    requires 0 < n == |weights| && Legal(edges, p, n, moves)
    ensures |r| == n
    decreases |moves|
  {
    if moves == [] then weights else
    var front, last := moves[..|moves| - 1], moves[|moves| - 1];
    Adjusted(Kept(weights, edges, p, n, front), edges[last.v], Replayed(p, moves), n,
      LocOf(Replayed(p, front), last.v, n), last.to)
  }

  /** No vertex moved is its own neighbour. */
  predicate LoopFreeMoves(edges: Edges, moves: seq<Move>)
  {
    forall m :: m in moves ==> m.v !in Adj(edges, m.v)
  }

  /** The weights stored nowhere exceed those of the recompute. */
  ghost predicate NoneAbove(weights: seq<int>, edges: Edges, p: Partition, n: int)
    requires n > 0
  {
    |weights| == n && forall k :: 0 <= k < n ==> weights[k] <= Weight(edges, p, n, k)
  }

  /** Self-loops only ever push the stored weights down, so one that has drifted stays so. */
  lemma OneMoreExactlyWhen(weights: seq<int>, edges: Edges, p: Partition, n: int, v: Vertex, to: int)
    requires n > 0 && NoneAbove(weights, edges, p, n) && Symmetric(edges) && v in edges
    requires 0 <= LocOf(p, v, n) < n && 0 <= to < n && LocOf(p, v, n) != to
    ensures var w := Adjusted(weights, edges[v], p[v := to], n, LocOf(p, v, n), to);
      && NoneAbove(w, edges, p[v := to], n)
      && (Exact(w, edges, p[v := to], n) <==> Exact(weights, edges, p, n) && v !in edges[v])
  {
    hide Weight, Symmetric, Adjusted;
    var w := Adjusted(weights, edges[v], p[v := to], n, LocOf(p, v, n), to);
    forall k | 0 <= k < n
      ensures w[k] - Weight(edges, p[v := to], n, k)
        == weights[k] - Weight(edges, p, n, k) - if k == LocOf(p, v, n) || k == to then Times(edges, v, v) else 0
    {
      DriftLaw(weights, edges, p, n, v, to, k);
    }
    assert v in edges[v] <==> Times(edges, v, v) > 0;
    if Exact(w, edges, p[v := to], n) {
      assert w[to] == Weight(edges, p[v := to], n, to);
      forall k | 0 <= k < n
        ensures weights[k] == Weight(edges, p, n, k)
      {
        assert w[k] == Weight(edges, p[v := to], n, k);
      }
    }
  }

  /** After any sequence of moves the incrementally kept weights equal those of a full recompute on the
      final partition exactly when no vertex moved is its own neighbour. */
  lemma {:induction false} KeptExactlyWhen(weights: seq<int>, edges: Edges, p: Partition, n: int, moves: seq<Move>)
    requires n > 0 && Exact(weights, edges, p, n) && Symmetric(edges) && Legal(edges, p, n, moves)
    ensures NoneAbove(Kept(weights, edges, p, n, moves), edges, Replayed(p, moves), n)
    ensures Exact(Kept(weights, edges, p, n, moves), edges, Replayed(p, moves), n) <==> LoopFreeMoves(edges, moves)
    decreases |moves|
  {
    if moves != [] {
      var front, last := moves[..|moves| - 1], moves[|moves| - 1];
      KeptExactlyWhen(weights, edges, p, n, front);
      OneMoreExactlyWhen(Kept(weights, edges, p, n, front), edges, Replayed(p, front), n, last.v, last.to);
      assert moves == front + [last];
      assert LoopFreeMoves(edges, moves) <==> LoopFreeMoves(edges, front) && last.v !in edges[last.v];
    }
  }

  /** In particular they do if the graph has no self-loop. */
  lemma {:induction false} IncrementalRefinesRecompute(weights: seq<int>, edges: Edges, p: Partition, n: int,
      moves: seq<Move>)
    requires n > 0 && Exact(weights, edges, p, n) && Symmetric(edges) && NoSelfLoops(edges) && Legal(edges, p, n, moves)
    ensures Exact(Kept(weights, edges, p, n, moves), edges, Replayed(p, moves), n)
    decreases |moves|
  {
    KeptExactlyWhen(weights, edges, p, n, moves);
  }

  // ---------------------------------------------------------------------------------------------
  // What the weights add up to
  // ---------------------------------------------------------------------------------------------

  ghost function WeightsBelow(edges: Edges, p: Partition, n: int, m: nat): int
    requires n > 0
  {
    if m == 0 then 0 else WeightsBelow(edges, p, n, m - 1) + Weight(edges, p, n, m - 1)
  }

  function OwnShare(edges: Edges, p: Partition, n: int, m: int, v: Vertex): int
    requires n > 0
  {
    if 0 <= LocOf(p, v, n) < m then ShareOf(edges, p, n, LocOf(p, v, n), v) else 0
  }

  lemma {:induction false} SharesBelow(edges: Edges, p: Partition, n: int, m: nat)
    requires n > 0
    ensures WeightsBelow(edges, p, n, m) == Sum(edges.Keys, (v: Vertex) => OwnShare(edges, p, n, m, v))
  {
    if m == 0 {
      SumScaled(edges.Keys, (v: Vertex) => OwnShare(edges, p, n, 0, v), 0);
    } else {
      SharesBelow(edges, p, n, m - 1);
      WeightIsShares(edges, p, n, m - 1);
      SumPlus(edges.Keys, (v: Vertex) => OwnShare(edges, p, n, m - 1, v), (v: Vertex) => ShareOf(edges, p, n, m - 1, v),
              (v: Vertex) => OwnShare(edges, p, n, m, v));
    }
  }

  /** Entries of all lists, two for every edge, and those that lead to another shard. */
  ghost function Entries(edges: Edges): int
  {
    Sum(edges.Keys, (v: Vertex) => |Adj(edges, v)|)
  }

  ghost function CrossEntries(edges: Edges, p: Partition, n: int): int
    requires n > 0
  {
    Sum(edges.Keys, (v: Vertex) => CrossOf(edges, p, n, LocOf(p, v, n), v))
  }

  /** The weights of all shards add up to the edges plus the cross-shard edges (all doubled). */
  lemma WeightsAddUp(edges: Edges, p: Partition, n: int)
    requires n > 0 && forall v :: v in edges ==> 0 <= LocOf(p, v, n) < n
    ensures WeightsBelow(edges, p, n, n) == Entries(edges) + CrossEntries(edges, p, n)
  {
    SharesBelow(edges, p, n, n);
    SumPlus(edges.Keys, (v: Vertex) => |Adj(edges, v)|, (v: Vertex) => CrossOf(edges, p, n, LocOf(p, v, n), v),
            (v: Vertex) => OwnShare(edges, p, n, n, v));
  }

  /** Adding an edge adds its two entries. */
  lemma EdgeAddsTwoEntries(edges: Edges, u: Vertex, v: Vertex)
    ensures Entries(Listed(Listed(edges, u, v), v, u)) == Entries(edges) + 2
  {
    EntryAdded(edges, u, v);
    EntryAdded(Listed(edges, u, v), v, u);
  }

  lemma EntryAdded(edges: Edges, u: Vertex, v: Vertex)
    ensures Entries(Listed(edges, u, v)) == Entries(edges) + 1
  {
    var after := Listed(edges, u, v);
    var size, size' := (x: Vertex) => |Adj(edges, x)|, (x: Vertex) => |Adj(after, x)|;
    assert after.Keys == edges.Keys + {u};
    SumRemove(after.Keys, size', u);
    assert after.Keys - {u} == edges.Keys - {u};
    SumCongruent(edges.Keys - {u}, size, size');
    if u in edges {
      SumRemove(edges.Keys, size, u);
    } else {
      assert edges.Keys - {u} == edges.Keys;
    }
  }
}
