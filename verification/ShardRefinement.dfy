/** What a leader's chain, pool and block builders do is what the steps of `ShardSystem` say: proposing
    and committing transaction blocks, and sending accounts out. Migration blocks are in
    `MigrationOps.CommitRefinesStep`. */
module ShardRefinement {
  import opened Types
  import opened Execution
  import opened Migration
  import opened Routing
  import opened ShardSystem
  import opened Chains

  /** The shard of the system state stands for the leader's chain and pool. */
  ghost predicate Represents(ch: ChainState, queue: seq<Transaction>, sh: Shard)
  {
    && ch.header.stateRoot in ch.states && ch.header.stateRoot == sh.accounts && ch.locations == sh.loc
    && multiset(queue) == sh.pool
  }

  lemma OutcomeIsExecution(ch: ChainState, i: int, n: int, txs: seq<Transaction>)
    requires n > 0 && ch.header.stateRoot in ch.states
    ensures var m := ExecTxs(ch.header.stateRoot, ch.locations, n, i, txs);
      Outcome(ch, i, n, txs, []) == if m.Some? then Some(ClearEmpty(m.value)) else None
    ensures RelocateAll(ch.locations, []) == ch.locations
  {
    if ExecTxs(ch.header.stateRoot, ch.locations, n, i, txs).Some? {
      assert InstallAll(ExecTxs(ch.header.stateRoot, ch.locations, n, i, txs).value, i, []).Some?;
    }
  }

  /** The transactions taken from the pool's queue, packed and generated into a block, are the step
      `ProposeTxs`: there is a block exactly when the step leaves a proposal, with the same
      transactions, and what is passed on is what the step puts on the wire. */
  lemma ProposeRefinesStep(c: Config, s: System, i: nat, ch: ChainState, queue: seq<Transaction>,
      queue': seq<Transaction>, taken: seq<Transaction>, tag: nat, b: Option<Block>)
    requires c.Valid() && i < |s.shards| == |s.reported| == c.shardNum && Represents(ch, queue, s.shards[i])
    requires s.shards[i].proposed.None? && !s.shards[i].meta.ready
    requires taken + queue' == queue
    requires b
      == Generated(ch, i, c.shardNum, Modify(ch.locations, c.shardNum, i, Stay(ch.locations, c.shardNum, i, taken)), [],
        tag)
    ensures Enabled(c, s, ProposeTxs(i, taken))
    ensures var s' := ApplyProposeTxs(c, s, i, taken);
      && |s'.shards| == c.shardNum && Represents(ch, queue', s'.shards[i])
      && s'.shards[i].proposed == (match b case None => None case Some(block) => Some(TxBlock(block.txs)))
      && s'.txs == s.txs + multiset(PassOn(ch.locations, c.shardNum, i, taken))
  {
    var block := Modify(ch.locations, c.shardNum, i, Stay(ch.locations, c.shardNum, i, taken));
    OutcomeIsExecution(ch, i, c.shardNum, block);
    assert multiset(taken) + multiset(queue') == multiset(queue);
  }

  /** Adding the proposed block to the chain is the step `Commit`: it succeeds, and the chain then stands
      at the accounts of the step; the relay-2 transactions sent are those of the step. */
  lemma CommitRefinesStep(c: Config, s: System, i: nat, ch: ChainState, queue: seq<Transaction>, txs: seq<Transaction>,
      tag: nat, b: Block)
    requires c.Valid() && i < |s.shards| == c.shardNum && Represents(ch, queue, s.shards[i])
    requires s.shards[i].proposed == Some(TxBlock(txs))
    requires Generated(ch, i, c.shardNum, txs, [], tag) == Some(b)
    ensures var ch', s' := Added(ch, i, c.shardNum, b), ApplyCommit(c, s, i);
      && ch'.Some? && |s'.shards| == c.shardNum && s'.shards[i].proposed.None?
      && Represents(ch'.value, queue, s'.shards[i])
      && s'.txs == s.txs + multiset(Relayed(ch.locations, c.shardNum, b.txs))
  {
    OutcomeIsExecution(ch, i, c.shardNum, txs);
  }

  /** Sending out the messages built from the chain's accounts and the transactions of moved accounts is
      the step `Capture`. */
  lemma CaptureRefinesStep(c: Config, s: System, i: nat, ch: ChainState, queue: seq<Transaction>,
      queue': seq<Transaction>, all: seq<Transaction>, sent: seq<MigrationMsg>)
    requires c.Valid() && i < |s.shards| == c.shardNum && Represents(ch, queue, s.shards[i])
    requires all <= queue && queue' == queue[|all|..] + Kept(s.shards[i].meta.moved, all)
    requires sent
      == SentMessages(s.shards[i].meta.moved, ch.locations, ch.header.stateRoot, c.shardNum, i, s.shards[i].meta.epoch,
        c.shardNum)
    ensures var s' := ApplyCapture(c, s, i, all);
      && |s'.shards| == c.shardNum && Represents(ch, queue', s'.shards[i])
      && s'.migrations == s.migrations + multiset(sent)
      && s'.txs == s.txs + multiset(Following(s.shards[i].meta.moved, all))
      && s'.shards[i].snapshot == ch.header.stateRoot && s'.shards[i].captured == s.shards[i].meta.epoch
  {
    hide SentMessages, Kept, Following;
    assert queue == all + queue[|all|..];
    assert multiset(queue) == multiset(all) + multiset(queue[|all|..]);
    assert multiset(queue') == multiset(queue[|all|..]) + multiset(Kept(s.shards[i].meta.moved, all));
  }
}
