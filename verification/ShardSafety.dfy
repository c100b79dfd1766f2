/** What holds over every run of the dynamic relay system. */
module ShardSafety {
  import opened Types
  import opened Sums
  import opened Execution
  import opened Migration
  import opened Routing
  import opened ShardSystem
  import opened ShardInvariant
  import opened ShardSteps
  import opened ShardHandOver
  import opened ShardValue

  ghost predicate Run(c: Config, states: seq<System>, steps: seq<Step>)
  {
    && c.Valid()
    && |states| == |steps| + 1
    && Init(c, states[0])
    && forall k :: 0 <= k < |steps| ==> StepAt(c, states, steps, k)
  }

  ghost predicate StepAt(c: Config, states: seq<System>, steps: seq<Step>, k: nat)
    requires |states| == |steps| + 1 && k < |steps|
  {
    Next(c, states[k], states[k + 1], steps[k])
  }

  /** A step from a state that satisfies the invariant. */
  ghost predicate Sound(c: Config, s: System, s': System, step: Step)
  {
    Inv(c, s) && Next(c, s, s', step)
  }

  lemma StepKeepsInv(c: Config, s: System, s': System, step: Step)
    requires Sound(c, s, s', step)
    ensures Inv(c, s')
  {
    if step.Commit? {
      CommitKeepsInv(c, s, step.at);
    } else if step.Inject? || step.HandleReport? || step.CheckEpochs? || step.Repartition? {
      SupervisorKeepsInv(c, s, step);
    } else if step.DeliverStart? || step.DeliverMigration? || step.DeliverTx? {
      DeliveryKeepsInv(c, s, step);
    } else {
      LeaderKeepsInv(c, s, step);
    }
  }

  lemma SupervisorKeepsInv(c: Config, s: System, step: Step)
    requires Inv(c, s) && Enabled(c, s, step)
    requires step.Inject? || step.HandleReport? || step.CheckEpochs? || step.Repartition?
    ensures Inv(c, Apply(c, s, step))
  {
    match step {
      case Inject(tx) => InjectKeepsInv(c, s, tx);
      case HandleReport(r, seen) => HandleReportKeepsInv(c, s, r, seen);
      case CheckEpochs => CheckEpochsKeepsInv(c, s);
      case Repartition(target) => RepartitionKeepsInv(c, s, target);
    }
  }

  lemma DeliveryKeepsInv(c: Config, s: System, step: Step)
    requires Inv(c, s) && Enabled(c, s, step)
    requires step.DeliverStart? || step.DeliverMigration? || step.DeliverTx?
    ensures Inv(c, Apply(c, s, step))
  {
    match step {
      case DeliverStart(t) => DeliverStartKeepsInv(c, s, t);
      case DeliverMigration(m) => DeliverMigrationKeepsInv(c, s, m);
      case DeliverTx(t) => DeliverTxKeepsInv(c, s, t);
    }
  }

  lemma LeaderKeepsInv(c: Config, s: System, step: Step)
    requires Inv(c, s) && Enabled(c, s, step)
    requires step.ProposeTxs? || step.Capture? || step.ProposeMigration?
    ensures Inv(c, Apply(c, s, step))
  {
    match step {
      case ProposeTxs(i, taken) => ProposeTxsKeepsInv(c, s, i, taken);
      case Capture(i, all) => CaptureKeepsInv(c, s, i, all);
      case ProposeMigration(i) => ProposeMigrationKeepsInv(c, s, i);
    }
  }

  lemma CommitKeepsInv(c: Config, s: System, i: nat)
    requires Inv(c, s) && Enabled(c, s, Commit(i))
    ensures Inv(c, ApplyCommit(c, s, i))
  {
    if s.shards[i].proposed.value.TxBlock? {
      CommitTxsKeepsInv(c, s, i);
    } else {
      CommitMigrationKeepsInv(c, s, i);
    }
  }

  lemma {:induction false} RunInv(c: Config, states: seq<System>, steps: seq<Step>, k: nat)
    requires Run(c, states, steps) && k < |states|
    ensures Inv(c, states[k])
    decreases k, 1
  {
    if k == 0 {
      InitInv(c, states[0]);
    } else {
      RunSound(c, states, steps, k);
      StepKeepsInv(c, states[k - 1], states[k], steps[k - 1]);
    }
  }

  lemma {:induction false} RunSound(c: Config, states: seq<System>, steps: seq<Step>, k: nat)
    requires Run(c, states, steps) && 0 < k < |states|
    ensures Sound(c, states[k - 1], states[k], steps[k - 1])
    decreases k, 0
  {
    RunInv(c, states, steps, k - 1);
    hide Inv, Next;
    assert StepAt(c, states, steps, k - 1);
  }

  // ---------------------------------------------------------------------------------------------
  // Epochs and locations
  // ---------------------------------------------------------------------------------------------

  /** Reported shard epoch <= chain epoch <= leader's migration epoch <= supervisor epoch, and they
      lie within one of each other. */
  lemma EpochsInStep(c: Config, states: seq<System>, steps: seq<Step>, k: nat, i: nat)
    requires Run(c, states, steps) && k < |states| && i < c.shardNum
    ensures var s := states[k];
      && i < |s.shards| == |s.reported|
      && s.reported[i] <= s.shards[i].epoch <= s.shards[i].meta.epoch <= s.epoch <= s.reported[i] + 1
  {
    RunInv(c, states, steps, k);
    Facts(c, states[k], i);
  }

  /** When the barrier is open every leader's migration state is reset, nothing of the epoch is still
      on its way, and every shard's locations are the supervisor's partition. */
  lemma LocationAgreement(c: Config, states: seq<System>, steps: seq<Step>, k: nat, i: nat)
    requires Run(c, states, steps) && k < |states| && i < c.shardNum && states[k].synced
    ensures var s := states[k];
      && i < |s.shards|
      && s.shards[i].epoch == s.shards[i].meta.epoch == s.epoch
      && !s.shards[i].meta.ready && s.shards[i].meta.got == map[] && s.shards[i].meta.moved == map[]
      && s.migrations == multiset{} && s.starts == multiset{}
      && forall a :: LocOf(s.shards[i].loc, a, c.shardNum) == LocOf(s.partition, a, c.shardNum)
  {
    RunInv(c, states, steps, k);
    OpenBarrier(c, states[k]);
    Facts(c, states[k], i);
  }

  /** No start is ever rejected, and the leader it reaches holds no states of an earlier epoch. */
  lemma StartAccepted(c: Config, states: seq<System>, steps: seq<Step>, k: nat, t: StartTo)
    requires Run(c, states, steps) && k < |states| && t in states[k].starts
    ensures var s := states[k];
      && t.dest < |s.shards|
      && t.msg.epoch == s.shards[t.dest].meta.epoch + 1
      && s.shards[t.dest].meta.got == map[]
  {
    RunInv(c, states, steps, k);
    assert StartOk(c, states[k], t);
    Facts(c, states[k], t.dest);
  }

  /** No migration message is ever rejected. */
  lemma MigrationAccepted(c: Config, states: seq<System>, steps: seq<Step>, k: nat, m: MigrationMsg)
    requires Run(c, states, steps) && k < |states| && m in states[k].migrations
    ensures var s := states[k];
      && 0 <= m.dest < |s.shards|
      && Addressed(m, m.dest, c.shardNum) && m.epoch >= s.shards[m.dest].meta.epoch
  {
    RunInv(c, states, steps, k);
    assert TravellingOk(c, states[k], m);
    Facts(c, states[k], m.dest);
  }

  // ---------------------------------------------------------------------------------------------
  // Hand-over
  // ---------------------------------------------------------------------------------------------

  /** A leader that has sent its accounts out proposes nothing but the migration block until that
      block commits, and its moved accounts stay as it sent them. */
  lemma FrozenUntilMigrated(c: Config, states: seq<System>, steps: seq<Step>, k: nat, i: nat, a: Address)
    requires Run(c, states, steps) && k < |states| && i < c.shardNum && |states[k].shards| == c.shardNum
    requires states[k].shards[i].epoch < states[k].shards[i].captured
    ensures var sh := states[k].shards[i];
      && (sh.proposed.Some? ==> sh.proposed.value.MigrationBlock?)
      && (a in states[k].moved && LocOf(states[k].before, a, c.shardNum) == i ==>
        BalanceOf(sh.accounts, a) == BalanceOf(sh.snapshot, a) && NonceOf(sh.accounts, a) == NonceOf(sh.snapshot, a))
  {
    RunInv(c, states, steps, k);
    Facts(c, states[k], i);
  }

  /** When a shard commits its migration block, each account moved to it has exactly one source, and
      the balance and nonce installed are those the source holds at that moment. */
  lemma HandedOverExactly(c: Config, states: seq<System>, steps: seq<Step>, k: nat, i: nat, a: Address)
    requires Run(c, states, steps) && k < |steps| && steps[k] == Commit(i)
    requires i < |states[k].shards| && states[k].shards[i].proposed.Some?
    requires states[k].shards[i].proposed.value.MigrationBlock?
    requires a in states[k].moved && states[k].moved[a] == i
    ensures HandedOver(c, states[k], states[k + 1], i, a)
  {
    RunSound(c, states, steps, k + 1);
    SoundHandOver(c, states[k], states[k + 1], i, a);
  }

  lemma SoundHandOver(c: Config, s: System, s': System, i: nat, a: Address)
    requires Sound(c, s, s', Commit(i))
    requires i < |s.shards| && s.shards[i].proposed.Some? && s.shards[i].proposed.value.MigrationBlock?
    requires a in s.moved && s.moved[a] == i
    ensures HandedOver(c, s, s', i, a)
  {
    CommittingFacts(c, s, i);
    SourcesDisjoint(c, s, i);
    CommitHandsOver(c, s, s', i, a);
  }

  ghost predicate HandedOver(c: Config, s: System, s': System, i: nat, a: Address)
    requires c.shardNum > 0
  {
    var src := LocOf(s.before, a, c.shardNum);
    && 0 <= src < |s.shards| && src != i && i < |s.shards| == |s'.shards|
    && DisjointSources(s.shards[i].meta.got)
    && (forall p :: p in s.shards[i].meta.got && a in s.shards[i].meta.got[p] ==> p == src)
    && a in s'.shards[i].accounts
    && s'.shards[i].accounts[a] == Account(BalanceOf(s.shards[src].accounts, a), NonceOf(s.shards[src].accounts, a))
  }

  lemma CommitHandsOver(c: Config, s: System, s': System, i: nat, a: Address)
    requires c.Valid() && Committing(c, s, i) && s' == ApplyCommit(c, s, i)
    requires DisjointSources(s.shards[i].meta.got)
    requires a in s.moved && s.moved[a] == i
    ensures HandedOver(c, s, s', i, a)
  {
    InstalledAt(c, s, i, a);
    HandOverExact(c, s, i, a);
    NothingCleared(c, s, i);
  }

  // ---------------------------------------------------------------------------------------------
  // Conservation of value
  // ---------------------------------------------------------------------------------------------

  lemma StepValue(c: Config, s: System, s': System, step: Step)
    requires Sound(c, s, s', step)
    requires Supply(c, s) < UINT256
    ensures Supply(c, s') + s'.lost == Supply(c, s) + s.lost + INIT_BALANCE * (s'.cleared - s.cleared)
  {
    if step.Commit? {
      CommitValue(c, s, step.at);
    } else if step.ProposeTxs? {
      ProposeTxsValue(c, s, step.at, step.taken);
      ProposedShape(c, s, s', step.at, step.taken);
    } else {
      QuietStepValue(c, s, step);
      QuietStep(c, s, step);
    }
  }

  lemma QuietStep(c: Config, s: System, step: Step)
    requires c.Valid() && |s.shards| == |s.reported| == c.shardNum && Enabled(c, s, step)
    requires !step.Commit? && !step.ProposeTxs?
    ensures Apply(c, s, step).cleared == s.cleared && Apply(c, s, step).lost == s.lost
  {
  }

  lemma QuietStepValue(c: Config, s: System, step: Step)
    requires Inv(c, s) && Enabled(c, s, step)
    requires !step.Commit? && !step.ProposeTxs?
    ensures Supply(c, Apply(c, s, step)) == Supply(c, s)
  {
    match step {
      case Inject(tx) => InjectValue(c, s, tx);
      case HandleReport(r, seen) => HandleReportValue(c, s, r, seen);
      case CheckEpochs => CheckEpochsValue(c, s);
      case Repartition(target) => RepartitionValue(c, s, target);
      case DeliverStart(t) => DeliverStartValue(c, s, t);
      case DeliverMigration(m) => DeliverMigrationValue(c, s, m);
      case DeliverTx(t) => DeliverTxValue(c, s, t);
      case Capture(i, all) => CaptureValue(c, s, i, all);
      case ProposeMigration(i) => ProposeMigrationValue(c, s, i);
    }
  }

  lemma CommitValue(c: Config, s: System, i: nat)
    requires Inv(c, s) && Enabled(c, s, Commit(i))
    requires Supply(c, s) < UINT256
    ensures var s' := ApplyCommit(c, s, i);
      Supply(c, s') + s'.lost == Supply(c, s) + s.lost + INIT_BALANCE * (s'.cleared - s.cleared)
  {
    if s.shards[i].proposed.value.TxBlock? {
      CommitTxsValue(c, s, i);
    } else {
      CommitMigrationValue(c, s, i);
    }
  }

  /** Clearing only adds, and what is lost with a failed proposal is never negative. */
  lemma CountersGrow(c: Config, s: System, s': System, step: Step)
    requires Sound(c, s, s', step)
    ensures s'.cleared >= s.cleared && s'.lost >= s.lost
  {
    if step.ProposeTxs? {
      PackedNonNegative(c, s, step.at, step.taken);
      ProposedShape(c, s, s', step.at, step.taken);
    } else if step.Commit? {
      CommitGrows(c, s, step.at);
    }
  }

  lemma CommitGrows(c: Config, s: System, i: nat)
    requires c.Valid() && i < |s.shards| == c.shardNum && s.shards[i].proposed.Some?
    ensures ApplyCommit(c, s, i).cleared >= s.cleared && ApplyCommit(c, s, i).lost == s.lost
  {
  }

  lemma PackedNonNegative(c: Config, s: System, i: nat, taken: seq<Transaction>)
    requires Inv(c, s) && i < |s.shards| && multiset(taken) <= s.shards[i].pool
    ensures InValues(Stay(s.shards[i].loc, c.shardNum, i, taken)) >= 0
  {
    Facts(c, s, i);
    var packed := Stay(s.shards[i].loc, c.shardNum, i, taken);
    StayBelongs(s.shards[i].loc, c.shardNum, i, taken);
    forall tx | tx in multiset(packed)
      ensures InValue(tx) >= 0
    {
      assert tx in s.shards[i].pool;
    }
    TotalNonNegative(multiset(packed), InValue);
    InValuesTotal(packed);
  }

  /** The law of value, over every run of the code: the balances at their home shards and the relay-2
      values in flight, together with what failed proposals took down, grow by exactly one initial
      balance for every account cleared as empty. The only hypothesis is that all value ever around
      fits a 256-bit balance. */
  lemma {:induction false} ValueLaw(c: Config, states: seq<System>, steps: seq<Step>, k: nat)
    requires Run(c, states, steps) && k < |states|
    requires Supply(c, states[0]) + INIT_BALANCE * states[k].cleared < UINT256
    ensures Supply(c, states[k]) + states[k].lost == Supply(c, states[0]) + INIT_BALANCE * states[k].cleared
    ensures states[k].lost >= 0
  {
    if k == 0 {
      NothingYet(c, states[0]);
    } else {
      ClearedGrows(c, states, steps, k);
      ValueLaw(c, states, steps, k - 1);
      LawStep(c, states, steps, k, Supply(c, states[0]));
    }
  }

  lemma NothingYet(c: Config, s: System)
    requires Init(c, s)
    ensures s.cleared == 0 && s.lost == 0
  {
  }

  lemma ClearedGrows(c: Config, states: seq<System>, steps: seq<Step>, k: nat)
    requires Run(c, states, steps) && 0 < k < |states|
    ensures INIT_BALANCE * states[k - 1].cleared <= INIT_BALANCE * states[k].cleared
  {
    RunSound(c, states, steps, k);
    CountersGrow(c, states[k - 1], states[k], steps[k - 1]);
  }

  lemma LawStep(c: Config, states: seq<System>, steps: seq<Step>, k: nat, initial: int)
    requires Run(c, states, steps) && 0 < k < |states|
    requires initial + INIT_BALANCE * states[k].cleared < UINT256
    requires Supply(c, states[k - 1]) + states[k - 1].lost == initial + INIT_BALANCE * states[k - 1].cleared
    requires states[k - 1].lost >= 0
    ensures Supply(c, states[k]) + states[k].lost == initial + INIT_BALANCE * states[k].cleared
    ensures states[k].lost >= 0
  {
    RunSound(c, states, steps, k);
    LawKept(c, states[k - 1], states[k], steps[k - 1], initial);
  }

  lemma LawKept(c: Config, s: System, s': System, step: Step, initial: int)
    requires Sound(c, s, s', step)
    requires initial + INIT_BALANCE * s'.cleared < UINT256
    requires Supply(c, s) + s.lost == initial + INIT_BALANCE * s.cleared && s.lost >= 0
    ensures Supply(c, s') + s'.lost == initial + INIT_BALANCE * s'.cleared && s'.lost >= 0
  {
    CountersGrow(c, s, s', step);
    StepValue(c, s, s', step);
  }
}
