/** Exactly which steps of `ShardSystem` keep the value in the system, and a run for each of the two
    ways it changes. */
module ShardLeaks {
  import opened Types
  import opened Execution
  import opened Routing
  import opened ShardSystem
  import opened ShardInvariant
  import opened ShardValue
  import opened ShardSafety

  /** What a leader could check before it acts: the block it commits leaves no account empty; the block
      it packs executes, or holds no relay-2 value. */
  ghost predicate KeepsValue(c: Config, s: System, step: Step)
    requires c.Valid() && |s.shards| == |s.reported| == c.shardNum && Enabled(c, s, step)
  {
    match step
    case Commit(i) => s.shards[i].proposed.value.TxBlock? ==> LeavesNoneEmpty(c, s.shards[i], i)
    case ProposeTxs(i, taken) =>
      Executes(c, s.shards[i], i, taken) || InValues(Stay(s.shards[i].loc, c.shardNum, i, taken)) == 0
    case _ => true
  }

  ghost predicate LeavesNoneEmpty(c: Config, sh: Shard, i: nat)
    requires c.Valid() && sh.proposed.Some? && sh.proposed.value.TxBlock?
  {
    match ExecTxs(sh.accounts, sh.loc, c.shardNum, i, sh.proposed.value.txs)
    case None => true
    case Some(m) => Emptied(c.universe, m) == {}
  }

  predicate Executes(c: Config, sh: Shard, i: nat, taken: seq<Transaction>)
    requires c.shardNum > 0
  {
    ExecTxs(sh.accounts, sh.loc, c.shardNum, i, Modify(sh.loc, c.shardNum, i, Stay(sh.loc, c.shardNum, i, taken))).Some?
  }

  // ---------------------------------------------------------------------------------------------
  // One step
  // ---------------------------------------------------------------------------------------------

  /** Proposing a transaction block keeps the value exactly when the block packed executes or brings in
      nothing. */
  lemma ProposeKeepsValueExactlyWhen(c: Config, s: System, i: nat, taken: seq<Transaction>)
    requires c.Valid() && i < |s.shards| == |s.reported| == c.shardNum && Inv(c, s)
    requires Enabled(c, s, ProposeTxs(i, taken))
    ensures Supply(c, ApplyProposeTxs(c, s, i, taken)) == Supply(c, s) <==> KeepsValue(c, s, ProposeTxs(i, taken))
  {
    hide Inv, Supply, ApplyProposeTxs, Executes, Stay, InValues;
    ProposeTxsValue(c, s, i, taken);
    LostExactlyWhen(c, s, i, taken);
  }

  lemma LostExactlyWhen(c: Config, s: System, i: nat, taken: seq<Transaction>)
    requires c.Valid() && i < |s.shards| == c.shardNum
    ensures ApplyProposeTxs(c, s, i, taken).lost
      == s.lost + if Executes(c, s.shards[i], i, taken) then 0
        else InValues(Stay(s.shards[i].loc, c.shardNum, i, taken))
  {
  }

  /** Committing a transaction block keeps the value exactly when it leaves no account empty. */
  lemma CommitKeepsValueExactlyWhen(c: Config, s: System, i: nat)
    requires Inv(c, s) && Enabled(c, s, Commit(i)) && s.shards[i].proposed.value.TxBlock?
    requires Supply(c, s) < UINT256
    ensures Supply(c, ApplyCommit(c, s, i)) == Supply(c, s) <==> LeavesNoneEmpty(c, s.shards[i], i)
  {
    CommitTxsValue(c, s, i);
    BlockValue(c, s, i, s.shards[i].proposed.value.txs);
    ClearedExactly(c, s, i);
  }

  lemma ClearedExactly(c: Config, s: System, i: nat)
    requires c.Valid() && i < |s.shards| == c.shardNum && s.shards[i].proposed.Some?
    requires s.shards[i].proposed.value.TxBlock?
    requires ExecTxs(s.shards[i].accounts, s.shards[i].loc, c.shardNum, i, s.shards[i].proposed.value.txs).Some?
    ensures ApplyCommit(c, s, i).cleared == s.cleared <==> LeavesNoneEmpty(c, s.shards[i], i)
  {
  }

  /** A step keeps the value exactly when its guard holds. */
  lemma StepKeepsValueExactlyWhen(c: Config, s: System, s': System, step: Step)
    requires Sound(c, s, s', step) && Supply(c, s) < UINT256
    ensures Supply(c, s') == Supply(c, s) <==> KeepsValue(c, s, step)
  {
    if step.ProposeTxs? {
      ProposeKeepsValueExactlyWhen(c, s, step.at, step.taken);
    } else if step.Commit? {
      if s.shards[step.at].proposed.value.TxBlock? {
        CommitKeepsValueExactlyWhen(c, s, step.at);
      } else {
        CommitMigrationValue(c, s, step.at);
      }
    } else {
      QuietStepValue(c, s, step);
    }
  }

  // ---------------------------------------------------------------------------------------------
  // Whole runs
  // ---------------------------------------------------------------------------------------------

  ghost predicate GuardHolds(c: Config, states: seq<System>, steps: seq<Step>, k: nat)
    requires Run(c, states, steps) && k < |steps|
  {
    assert StepAt(c, states, steps, k);
    KeepsValue(c, states[k], steps[k])
  }

  /** Value is conserved up to every state of a run exactly when every step taken had its guard. */
  lemma {:induction false} ValueConservedExactlyWhen(c: Config, states: seq<System>, steps: seq<Step>, k: nat)
    requires c.Valid() && Run(c, states, steps) && k < |states| && Supply(c, states[0]) < UINT256
    ensures (forall j :: 0 <= j <= k ==> Supply(c, states[j]) == Supply(c, states[0]))
      <==> (forall j :: 0 <= j < k ==> GuardHolds(c, states, steps, j))
  {
    hide Inv, Next, Supply, GuardHolds, Run, Sound;
    if k > 0 {
      ValueConservedExactlyWhen(c, states, steps, k - 1);
      if Supply(c, states[k - 1]) == Supply(c, states[0]) {
        RunSound(c, states, steps, k);
        OneStep(c, states, steps, k);
      }
    }
  }

  lemma OneStep(c: Config, states: seq<System>, steps: seq<Step>, k: nat)
    requires Run(c, states, steps) && 0 < k < |states| && Sound(c, states[k - 1], states[k], steps[k - 1])
    requires Supply(c, states[k - 1]) < UINT256
    ensures Supply(c, states[k]) == Supply(c, states[k - 1]) <==> GuardHolds(c, states, steps, k - 1)
  {
    StepKeepsValueExactlyWhen(c, states[k - 1], states[k], steps[k - 1]);
  }
}
