/** The transaction pool (pkg/core/txpool/queue/queue.go), packing by number of transactions. */
module TxPools {
  import opened Types

  class TxPool {
    var queue: seq<Transaction>

    constructor ()
      ensures queue == []
    {
      queue := [];
    }

    method AddTxs(txs: seq<Transaction>)
      modifies this
      ensures queue == old(queue) + txs
    {
      queue := queue + txs;
    }

    /** First in, first out: the oldest `limit` transactions, or all if there are fewer. */
    method PackTxs(limit: nat) returns (packed: seq<Transaction>)
      modifies this
      ensures packed + queue == old(queue)
      ensures |packed| <= limit && (|packed| < limit ==> queue == [])
    {
      var length := |queue|;
      if length > limit {
        length := limit;
      }
      packed := queue[..length];
      queue := queue[length..];
    }

    function GetTxListSize(txs: seq<Transaction>): nat
    {
      |txs|
    }
  }
}
