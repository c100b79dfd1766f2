/** What the committees share (supervisor/committee/committee.go, staticbroker.go): sorting transactions
    by shard. */
module Committees {
  import opened Types
  import opened Routing
  import opened TxBlockOps

  const STOP_THRESHOLD_PER_SHARD: nat := 5

  /** How a block with `txs` transactions counts towards stopping: only after the last injection, empty ones
      in a row. */
  function StopCount(count: nat, unsent: int, txs: nat): nat
  {
    if unsent > 0 then count else if txs == 0 then count + 1 else 0
  }

  function StopCounts(count: nat, unsent: int, sizes: seq<nat>): nat
  {
    if sizes == [] then count
      else StopCount(StopCounts(count, unsent, sizes[..|sizes| - 1]), unsent, sizes[|sizes| - 1])
  }

  /** After the last injection the count is the number of empty blocks since the last one that was not
      empty; before, nothing counts. */
  lemma {:induction false} StopCountsEmptyTail(count: nat, unsent: int, sizes: seq<nat>, tail: nat)
    requires tail <= |sizes| && forall i :: |sizes| - tail <= i < |sizes| ==> sizes[i] == 0
    requires tail < |sizes| ==> sizes[|sizes| - tail - 1] > 0
    ensures StopCounts(count, unsent, sizes) == if unsent > 0 then count else if tail == |sizes| then count + tail
      else tail
  {
    if unsent > 0 {
      if sizes != [] {
        var front := sizes[..|sizes| - 1];
        NoneCounts(count, unsent, front);
      }
    } else if tail > 0 {
      StopCountsEmptyTail(count, unsent, sizes[..|sizes| - 1], tail - 1);
    }
  }

  lemma {:induction false} NoneCounts(count: nat, unsent: int, sizes: seq<nat>)
    requires unsent > 0
    ensures StopCounts(count, unsent, sizes) == count
  {
    if sizes != [] {
      NoneCounts(count, unsent, sizes[..|sizes| - 1]);
    }
  }

  /** The transactions with the shard each is meant for; one without a valid shard is left out. */
  function Directed(txs: seq<Transaction>, locs: seq<int>, n: int): seq<TxTo>
    requires |txs| == |locs|
  {
    if txs == [] then [] else
    var front, loc := Directed(txs[..|txs| - 1], locs[..|locs| - 1], n), locs[|locs| - 1];
    if 0 <= loc < n then front + [TxTo(loc, txs[|txs| - 1])] else front
  }

  method PackShardTxs(txs: seq<Transaction>, locs: seq<int>, shardNumber: nat) returns (shardTxs: seq<seq<Transaction>>)
    requires |txs| == |locs|
    ensures Sorted(shardTxs, Directed(txs, locs, shardNumber), shardNumber)
  {
    shardTxs := EmptyLists(shardNumber);
    for i := 0 to |txs|
      invariant Sorted(shardTxs, Directed(txs[..i], locs[..i], shardNumber), shardNumber)
    {
      assert txs[..i + 1][..i] == txs[..i] && locs[..i + 1][..i] == locs[..i];
      var shardID := locs[i];
      if shardID < 0 || shardID >= shardNumber {
        continue;
      }
      SortedSnoc(shardTxs, Directed(txs[..i], locs[..i], shardNumber), shardNumber, TxTo(shardID, txs[i]));
      shardTxs := shardTxs[shardID := shardTxs[shardID] + [txs[i]]];
    }
    assert txs[..|txs|] == txs && locs[..|locs|] == locs;
  }

  /** A transaction is sent to shard `d` as often as it stands in the list with that shard, and to no
      invalid one. */
  lemma {:induction false} DirectedExactly(txs: seq<Transaction>, locs: seq<int>, n: int, t: TxTo)
    requires |txs| == |locs|
    ensures multiset(Directed(txs, locs, n))[t]
      == if 0 <= t.dest < n then multiset(seq(|txs|, i requires 0 <= i < |txs| => TxTo(locs[i], txs[i])))[t] else 0
  {
    var pairs := seq(|txs|, i requires 0 <= i < |txs| => TxTo(locs[i], txs[i]));
    if txs != [] {
      var front, fronts := txs[..|txs| - 1], locs[..|locs| - 1];
      DirectedExactly(front, fronts, n, t);
      assert pairs
        == seq(|front|, i requires 0 <= i < |front| => TxTo(fronts[i], front[i]))
          + [TxTo(locs[|txs| - 1], txs[|txs| - 1])];
    }
  }

  /** With valid shards nothing is lost, and each transaction goes to its own shard. */
  lemma {:induction false} DirectedKeepsAll(txs: seq<Transaction>, locs: seq<int>, n: int)
    requires |txs| == |locs| && forall i :: 0 <= i < |locs| ==> 0 <= locs[i] < n
    ensures TxsOf(Directed(txs, locs, n)) == txs
    ensures |Directed(txs, locs, n)| == |txs|
    ensures forall i :: 0 <= i < |txs| ==> Directed(txs, locs, n)[i] == TxTo(locs[i], txs[i])
  {
    if txs != [] {
      var sent := Directed(txs[..|txs| - 1], locs[..|locs| - 1], n);
      DirectedKeepsAll(txs[..|txs| - 1], locs[..|locs| - 1], n);
      assert txs == txs[..|txs| - 1] + [txs[|txs| - 1]];
      assert Directed(txs, locs, n) == sent + [TxTo(locs[|locs| - 1], txs[|txs| - 1])];
    }
  }
}
