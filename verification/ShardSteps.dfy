/** Every step of a shard leader keeps the invariant of `ShardInvariant`. */
module ShardSteps {
  import opened Types
  import opened Sums
  import opened Execution
  import opened Migration
  import opened Routing
  import opened ShardSystem
  import opened ShardInvariant

  // ---------------------------------------------------------------------------------------------
  // Frames
  // ---------------------------------------------------------------------------------------------

  /** Only shard `i` changes, and it does not take back what it has sent in this epoch. */
  ghost predicate OnlyShard(c: Config, s: System, s': System, i: nat)
    requires c.Valid()
  {
    && |s.shards| == c.shardNum && i < |s.shards| && |s'.shards| == |s.shards|
    && (forall j :: 0 <= j < |s.shards| && j != i ==> s'.shards[j] == s.shards[j])
    && s'.epoch == s.epoch && s'.partition == s.partition && s'.before == s.before && s'.moved == s.moved
    && (s.shards[i].captured == s.epoch ==>
          s'.shards[i].captured == s.shards[i].captured && s'.shards[i].snapshot == s.shards[i].snapshot)
  }

  lemma AuthenticKept(c: Config, s: System, s': System, i: nat, src: Int64, dest: int, states: map<Address, State>)
    requires c.Valid() && OnlyShard(c, s, s', i)
    requires Authentic(c, s, src, dest, states)
    ensures Authentic(c, s', src, dest, states)
  {
    assert s'.shards[src].snapshot == s.shards[src].snapshot;
  }

  lemma Facts(c: Config, s: System, i: nat)
    requires Inv(c, s) && i < |s.shards|
    ensures LocalOk(c, s, s.shards[i], i) && GotOk(c, s, i) && BufferedOk(c, s, i) && SelfOk(s, i)
  {
  }

  function ShardIds(n: nat): set<Int64>
    requires n < 0x8000_0000_0000_0000
  {
    if n == 0 then {} else ShardIds(n - 1) + {n - 1}
  }

  lemma {:induction false} ShardIdsCount(n: nat)
    requires n < 0x8000_0000_0000_0000
    ensures |ShardIds(n)| == n
    ensures forall k: Int64 :: k in ShardIds(n) <==> 0 <= k < n
  {
    if n > 0 {
      ShardIdsCount(n - 1);
    }
  }

  /** A leader that has as many sources as there are shards has them all. */
  lemma FullGot(c: Config, s: System, i: nat)
    requires c.Valid() && i < |s.shards| == c.shardNum && GotOk(c, s, i)
    requires |s.shards[i].meta.got| == c.shardNum
    ensures forall src: Int64 :: 0 <= src < c.shardNum ==>
      src in s.shards[i].meta.got && Authentic(c, s, src, i, s.shards[i].meta.got[src])
  {
    var all := ShardIds(c.shardNum);
    ShardIdsCount(c.shardNum);
    forall src | src in s.shards[i].meta.got.Keys
      ensures src in all
    {
      assert Authentic(c, s, src, i, s.shards[i].meta.got[src]);
    }
    SubsetCount(s.shards[i].meta.got.Keys, all);
  }

  lemma OthersKept(c: Config, s: System, s': System, i: nat, j: nat)
    requires Inv(c, s) && OnlyShard(c, s, s', i) && j < |s.shards| && j != i
    requires forall m :: m in s.migrations && m.dest != i ==> m in s'.migrations
    ensures LocalOk(c, s', s'.shards[j], j) && GotOk(c, s', j) && BufferedOk(c, s', j) && SelfOk(s', j)
  {
    assert LocalOk(c, s, s.shards[j], j) && GotOk(c, s, j) && BufferedOk(c, s, j) && SelfOk(s, j);
    forall src | src in s'.shards[j].meta.got
      ensures Authentic(c, s', src, j, s'.shards[j].meta.got[src])
    {
      AuthenticKept(c, s, s', i, src, j, s.shards[j].meta.got[src]);
    }
    forall e, k | e in s'.shards[j].meta.buffer && 0 <= k < |s'.shards[j].meta.buffer[e]|
      ensures MessageOk(c, s', j, s'.shards[j].meta.buffer[e][k])
    {
      var m := s.shards[j].meta.buffer[e][k];
      assert MessageOk(c, s, j, m);
      AuthenticKept(c, s, s', i, m.src, j, m.states);
    }
  }

  lemma OneShardKeepsInv(c: Config, s: System, s': System, i: nat)
    requires Inv(c, s) && OnlyShard(c, s, s', i)
    requires forall m :: m in s.migrations && m.dest != i ==> m in s'.migrations
    requires LocalOk(c, s', s'.shards[i], i) && GotOk(c, s', i) && BufferedOk(c, s', i) && SelfOk(s', i)
    requires BarrierOk(s') && FinishedLast(s') && NetworkOk(c, s')
    ensures Inv(c, s')
  {
    forall j | 0 <= j < |s'.shards|
      ensures LocalOk(c, s', s'.shards[j], j) && GotOk(c, s', j) && BufferedOk(c, s', j) && SelfOk(s', j)
    {
      if j != i {
        OthersKept(c, s, s', i, j);
      }
    }
  }

  /** Shard `i` changes neither its epochs nor its migration metadata. */
  ghost predicate SameMeta(s: System, s': System, i: nat)
    requires i < |s.shards| && i < |s'.shards|
  {
    && s'.shards[i].epoch == s.shards[i].epoch && s'.shards[i].meta == s.shards[i].meta
    && s'.shards[i].captured == s.shards[i].captured && s'.shards[i].snapshot == s.shards[i].snapshot
    && s'.migrations == s.migrations && s'.starts == s.starts
    && s'.reported == s.reported && s'.synced == s.synced
  }

  lemma SameMetaKeepsInv(c: Config, s: System, s': System, i: nat)
    requires Inv(c, s) && OnlyShard(c, s, s', i) && SameMeta(s, s', i)
    requires LocalOk(c, s', s'.shards[i], i)
    requires forall r :: r in s'.reports ==> r in s.reports || r == Report(i, s.shards[i].epoch)
    requires forall t :: t in s'.txs ==> 0 <= t.dest < c.shardNum && Pooled(c.universe, t.tx)
    ensures Inv(c, s')
  {
    assert GotOk(c, s, i) && BufferedOk(c, s, i) && SelfOk(s, i);
    forall src | src in s'.shards[i].meta.got
      ensures Authentic(c, s', src, i, s'.shards[i].meta.got[src])
    {
      AuthenticKept(c, s, s', i, src, i, s.shards[i].meta.got[src]);
    }
    forall e, k | e in s'.shards[i].meta.buffer && 0 <= k < |s'.shards[i].meta.buffer[e]|
      ensures MessageOk(c, s', i, s'.shards[i].meta.buffer[e][k])
    {
      var m := s.shards[i].meta.buffer[e][k];
      assert MessageOk(c, s, i, m);
      AuthenticKept(c, s, s', i, m.src, i, m.states);
    }
    SameMetaNetwork(c, s, s', i);
    SameMetaBarrier(c, s, s', i);
    OneShardKeepsInv(c, s, s', i);
  }

  lemma SameMetaNetwork(c: Config, s: System, s': System, i: nat)
    requires c.Valid() && OnlyShard(c, s, s', i) && SameMeta(s, s', i) && NetworkOk(c, s)
    requires forall t :: t in s'.txs ==> 0 <= t.dest < c.shardNum && Pooled(c.universe, t.tx)
    ensures NetworkOk(c, s')
  {
    forall m | m in s'.migrations
      ensures TravellingOk(c, s', m)
    {
      assert TravellingOk(c, s, m);
      AuthenticKept(c, s, s', i, m.src, m.dest, m.states);
    }
    forall t | t in s'.starts
      ensures StartOk(c, s', t)
    {
      assert StartOk(c, s, t);
    }
  }

  lemma SameMetaBarrier(c: Config, s: System, s': System, i: nat)
    requires c.Valid() && OnlyShard(c, s, s', i) && SameMeta(s, s', i) && BarrierOk(s) && FinishedLast(s)
    requires forall r :: r in s'.reports ==> r in s.reports || r == Report(i, s.shards[i].epoch)
    ensures BarrierOk(s') && FinishedLast(s')
  {
  }

  // ---------------------------------------------------------------------------------------------
  // Transactions
  // ---------------------------------------------------------------------------------------------

  lemma DeliverTxKeepsInv(c: Config, s: System, t: TxTo)
    requires Inv(c, s) && Enabled(c, s, DeliverTx(t))
    ensures Inv(c, ApplyDeliverTx(c, s, t))
  {
    var s' := ApplyDeliverTx(c, s, t);
    assert LocalOk(c, s, s.shards[t.dest], t.dest);
    SameMetaKeepsInv(c, s, s', t.dest);
  }

  lemma LocationInRange(c: Config, s: System, i: nat, a: Address)
    requires Inv(c, s) && i < |s.shards|
    ensures 0 <= LocOf(s.shards[i].loc, a, c.shardNum) < c.shardNum
  {
    assert LocalOk(c, s, s.shards[i], i);
  }

  lemma ProposeTxsKeepsInv(c: Config, s: System, i: nat, taken: seq<Transaction>)
    requires Inv(c, s) && Enabled(c, s, ProposeTxs(i, taken))
    ensures Inv(c, ApplyProposeTxs(c, s, i, taken))
  {
    Facts(c, s, i);
    ProposedAtHome(c, s, s.shards[i], i, taken);
    ProposedLocalOk(c, s, ApplyProposeTxs(c, s, i, taken), i, taken);
    PassedOnOk(c, s, i, taken);
    ProposedKeepsInv(c, s, ApplyProposeTxs(c, s, i, taken), i, taken);
  }

  lemma ProposedKeepsInv(c: Config, s: System, s': System, i: nat, taken: seq<Transaction>)
    requires Inv(c, s) && OnlyShard(c, s, s', i) && SameMeta(s, s', i) && s'.reports == s.reports
    requires LocalOk(c, s', s'.shards[i], i)
    requires s'.txs == s.txs + multiset(PassOn(s.shards[i].loc, c.shardNum, i, taken))
    requires forall t :: t in multiset(PassOn(s.shards[i].loc, c.shardNum, i, taken)) ==>
      0 <= t.dest < c.shardNum && Pooled(c.universe, t.tx)
    ensures Inv(c, s')
  {
    SameMetaKeepsInv(c, s, s', i);
  }

  lemma ProposedAtHome(c: Config, s: System, sh: Shard, i: nat, taken: seq<Transaction>)
    requires c.Valid() && LocalOk(c, s, sh, i) && multiset(taken) <= sh.pool
    ensures BlockAtHome(c, sh.loc, i, Modify(sh.loc, c.shardNum, i, Stay(sh.loc, c.shardNum, i, taken)))
  {
    StayBelongs(sh.loc, c.shardNum, i, taken);
    var packed := Stay(sh.loc, c.shardNum, i, taken);
    forall k | 0 <= k < |packed|
      ensures Pooled(c.universe, packed[k])
    {
      assert packed[k] in sh.pool;
    }
    ModifyAtHome(c.universe, sh.loc, c.shardNum, i, packed);
  }

  /** A shard that only proposes, and takes transactions out of its pool. */
  lemma NewProposalLocalOk(c: Config, s: System, s': System, sh: Shard, sh': Shard, i: nat)
    requires c.Valid() && LocalOk(c, s, sh, i)
    requires sh' == sh.(pool := sh'.pool, proposed := sh'.proposed) && ProposalOk(c, sh', i)
    requires forall tx :: tx in sh'.pool ==> Pooled(c.universe, tx)
    requires s'.epoch == s.epoch && s'.partition == s.partition && s'.before == s.before && s'.moved == s.moved
    ensures LocalOk(c, s', sh', i)
  {
  }

  lemma ProposedLocalOk(c: Config, s: System, s': System, i: nat, taken: seq<Transaction>)
    requires c.Valid() && |s.shards| == |s.reported| == c.shardNum && i < c.shardNum && LocalOk(c, s, s.shards[i], i)
    requires Enabled(c, s, ProposeTxs(i, taken)) && s' == ApplyProposeTxs(c, s, i, taken)
    requires BlockAtHome(c, s.shards[i].loc, i,
      Modify(s.shards[i].loc, c.shardNum, i, Stay(s.shards[i].loc, c.shardNum, i, taken)))
    ensures LocalOk(c, s', s'.shards[i], i)
    ensures OnlyShard(c, s, s', i) && SameMeta(s, s', i) && s'.reports == s.reports
    ensures s'.txs == s.txs + multiset(PassOn(s.shards[i].loc, c.shardNum, i, taken))
  {
    ProposedProposal(c, s, s', i, taken);
    NewProposalLocalOk(c, s, s', s.shards[i], s'.shards[i], i);
  }

  lemma ProposedProposal(c: Config, s: System, s': System, i: nat, taken: seq<Transaction>)
    requires c.Valid() && |s.shards| == |s.reported| == c.shardNum && i < c.shardNum
    requires EpochsOk(s, s.shards[i]) && (forall tx :: tx in s.shards[i].pool ==> Pooled(c.universe, tx))
    requires Enabled(c, s, ProposeTxs(i, taken)) && s' == ApplyProposeTxs(c, s, i, taken)
    requires BlockAtHome(c, s.shards[i].loc, i,
      Modify(s.shards[i].loc, c.shardNum, i, Stay(s.shards[i].loc, c.shardNum, i, taken)))
    ensures ProposalOk(c, s'.shards[i], i)
    ensures s'.shards[i] == s.shards[i].(pool := s'.shards[i].pool, proposed := s'.shards[i].proposed)
    ensures forall tx :: tx in s'.shards[i].pool ==> Pooled(c.universe, tx)
  {
  }

  lemma PassedOnOk(c: Config, s: System, i: nat, taken: seq<Transaction>)
    requires Inv(c, s) && i < |s.shards| && multiset(taken) <= s.shards[i].pool
    ensures forall t :: t in multiset(PassOn(s.shards[i].loc, c.shardNum, i, taken)) ==>
      0 <= t.dest < c.shardNum && Pooled(c.universe, t.tx)
  {
    var sh := s.shards[i];
    assert LocalOk(c, s, sh, i);
    StayBelongs(sh.loc, c.shardNum, i, taken);
    forall k | 0 <= k < |PassOn(sh.loc, c.shardNum, i, taken)|
      ensures 0 <= PassOn(sh.loc, c.shardNum, i, taken)[k].dest < c.shardNum
      ensures Pooled(c.universe, PassOn(sh.loc, c.shardNum, i, taken)[k].tx)
    {
      var t := PassOn(sh.loc, c.shardNum, i, taken)[k];
      assert t.tx in sh.pool;
      LocationInRange(c, s, i, KeyAccount(t.tx));
    }
  }

  lemma TouchedAtHome(universe: set<Address>, loc: map<Address, int>, shardNum: int, self: int, tx: Transaction)
    requires shardNum > 0 && AtHome(universe, loc, shardNum, self, tx)
    ensures Touched(tx) <= universe && RelayAtHome(loc, shardNum, self, tx) && TxType(tx) != BrokerTx
    ensures forall a :: a in Touched(tx) ==> LocOf(loc, a, shardNum) == self
  {
  }

  /** A block leaves accounts that live elsewhere alone. */
  lemma BlockFrame(universe: set<Address>, m: Accounts, loc: map<Address, int>, shardNum: int, self: int,
      txs: seq<Transaction>, a: Address)
    requires shardNum > 0 && ExecTxs(m, loc, shardNum, self, txs).Some?
    requires forall k :: 0 <= k < |txs| ==> AtHome(universe, loc, shardNum, self, txs[k])
    requires a !in universe || LocOf(loc, a, shardNum) != self
    ensures var m1 := ExecTxs(m, loc, shardNum, self, txs).value; (a in m1 <==> a in m) && (a in m ==> m1[a] == m[a])
  {
    forall k | 0 <= k < |txs|
      ensures a !in Touched(txs[k])
    {
      TouchedAtHome(universe, loc, shardNum, self, txs[k]);
    }
    ExecTxsFrame(m, loc, shardNum, self, txs, a);
  }

  lemma ExecTxWords(m: Accounts, loc: map<Address, int>, shardNum: int, self: int, tx: Transaction)
    requires shardNum > 0 && WordBalances(m) && ExecTx(m, loc, shardNum, self, tx).Some?
    ensures WordBalances(ExecTx(m, loc, shardNum, self, tx).value)
  {
  }

  lemma {:induction false} ExecTxsWords(m: Accounts, loc: map<Address, int>, shardNum: int, self: int,
      txs: seq<Transaction>)
    requires shardNum > 0 && WordBalances(m) && ExecTxs(m, loc, shardNum, self, txs).Some?
    ensures WordBalances(ExecTxs(m, loc, shardNum, self, txs).value)
  {
    if txs != [] {
      var before := ExecTxs(m, loc, shardNum, self, txs[..|txs| - 1]);
      ExecTxsWords(m, loc, shardNum, self, txs[..|txs| - 1]);
      ExecTxWords(before.value, loc, shardNum, self, txs[|txs| - 1]);
    }
  }

  lemma RelayedOk(c: Config, s: System, i: nat, txs: seq<Transaction>)
    requires Inv(c, s) && i < |s.shards|
    requires BlockAtHome(c, s.shards[i].loc, i, txs)
    requires forall k :: 0 <= k < |txs| ==> txs[k].value >= 0
    ensures forall t :: t in multiset(Relayed(s.shards[i].loc, c.shardNum, txs)) ==>
      0 <= t.dest < c.shardNum && Pooled(c.universe, t.tx)
  {
    RelayedPooled(c.universe, s.shards[i].loc, c.shardNum, i, txs);
    forall k | 0 <= k < |Relayed(s.shards[i].loc, c.shardNum, txs)|
      ensures 0 <= Relayed(s.shards[i].loc, c.shardNum, txs)[k].dest < c.shardNum
    {
      LocationInRange(c, s, i, Relayed(s.shards[i].loc, c.shardNum, txs)[k].tx.recipient);
    }
  }

  lemma CommitTxsKeepsInv(c: Config, s: System, i: nat)
    requires Inv(c, s) && Enabled(c, s, Commit(i)) && s.shards[i].proposed.value.TxBlock?
    ensures Inv(c, ApplyCommit(c, s, i))
  {
    assert LocalOk(c, s, s.shards[i], i);
    CommitTxsFrozen(c, s, i);
    CommitTxsLocalOk(c, s, i);
    ExecutedValuesFit(s.shards[i].accounts, s.shards[i].loc, c.shardNum, i, s.shards[i].proposed.value.txs);
    RelayedOk(c, s, i, s.shards[i].proposed.value.txs);
    SameMetaKeepsInv(c, s, ApplyCommit(c, s, i), i);
  }

  lemma CommitTxsLocalOk(c: Config, s: System, i: nat)
    requires c.Valid() && |s.shards| == c.shardNum && i < c.shardNum && LocalOk(c, s, s.shards[i], i)
    requires s.shards[i].proposed.Some? && s.shards[i].proposed.value.TxBlock?
    requires FrozenOk(c, ApplyCommit(c, s, i), ApplyCommit(c, s, i).shards[i], i)
    ensures LocalOk(c, ApplyCommit(c, s, i), ApplyCommit(c, s, i).shards[i], i)
  {
    var sh := s.shards[i];
    ExecTxsWords(sh.accounts, sh.loc, c.shardNum, i, sh.proposed.value.txs);
  }

  /** Accounts that have moved away are not touched any more. */
  lemma CommitTxsFrozen(c: Config, s: System, i: nat)
    requires Inv(c, s) && Enabled(c, s, Commit(i)) && s.shards[i].proposed.value.TxBlock?
    ensures FrozenOk(c, ApplyCommit(c, s, i), ApplyCommit(c, s, i).shards[i], i)
  {
    var sh := s.shards[i];
    var txs := sh.proposed.value.txs;
    var after := ApplyCommit(c, s, i).shards[i];
    assert LocalOk(c, s, sh, i);
    if sh.captured == s.epoch {
      forall a | a in s.moved && LocOf(s.before, a, c.shardNum) == i
        ensures ReadState(after.accounts, a, i) == ReadState(sh.accounts, a, i)
      {
        BlockFrame(c.universe, sh.accounts, sh.loc, c.shardNum, i, txs, a);
      }
    }
  }

  // ---------------------------------------------------------------------------------------------
  // Migration messages
  // ---------------------------------------------------------------------------------------------

  /** The received states come from the messages or were there before. */
  lemma {:induction false} AddedFrom(got: map<Int64, map<Address, State>>, ms: seq<MigrationMsg>, src: Int64)
    requires src in Add(got, ms)
    ensures (src in got && Add(got, ms)[src] == got[src])
      || exists k :: 0 <= k < |ms| && ms[k].src == src && Add(got, ms)[src] == ms[k].states
  {
    if ms != [] {
      if ms[|ms| - 1].src != src {
        AddedFrom(got, ms[..|ms| - 1], src);
        if k :| 0 <= k < |ms| - 1 && ms[k].src == src && Add(got, ms[..|ms| - 1])[src] == ms[k].states {
          assert ms[k].src == src && Add(got, ms)[src] == ms[k].states;
        }
      }
    }
  }

  lemma StartResult(c: Config, s: System, t: StartTo)
    requires Inv(c, s) && t in s.starts
    ensures t.dest < |s.shards| && s.shards[t.dest].meta.epoch + 1 == s.epoch == t.msg.epoch
    ensures var a := s.shards[t.dest].meta;
      Start(a, t.dest, c.shardNum, t.msg)
        == Metadata(s.epoch, s.moved, Add(map[], a.Buffered(s.epoch)), true, a.buffer[s.epoch := []])
    ensures forall k :: 0 <= k < |s.shards[t.dest].meta.Buffered(s.epoch)| ==>
      MessageOk(c, s, t.dest, s.shards[t.dest].meta.Buffered(s.epoch)[k])
  {
    assert StartOk(c, s, t);
    var a := s.shards[t.dest].meta;
    assert LocalOk(c, s, s.shards[t.dest], t.dest) && BufferedOk(c, s, t.dest);
    assert BufferOk(a, t.dest, c.shardNum) by {
      forall e, k | e in a.buffer && 0 <= k < |a.buffer[e]|
        ensures Addressed(a.buffer[e][k], t.dest, c.shardNum) && a.buffer[e][k].epoch == e
      {
        assert MessageOk(c, s, t.dest, a.buffer[e][k]);
      }
    }
    BufferKept(a, t.dest, c.shardNum, MigrationMsg(0, 0, 0, map[]), t.msg);
  }

  lemma DeliverStartKeepsInv(c: Config, s: System, t: StartTo)
    requires Inv(c, s) && Enabled(c, s, DeliverStart(t))
    ensures Inv(c, ApplyDeliverStart(c, s, t))
  {
    var s' := ApplyDeliverStart(c, s, t);
    var i := t.dest;
    assert LocalOk(c, s, s.shards[i], i) && SelfOk(s, i);
    StartResult(c, s, t);
    StartGot(c, s, s', t);
    StartBuffer(c, s, s', t);
    StartNetwork(c, s, s', t);
    OneShardKeepsInv(c, s, s', i);
  }

  lemma StartGot(c: Config, s: System, s': System, t: StartTo)
    requires Inv(c, s) && Enabled(c, s, DeliverStart(t)) && s' == ApplyDeliverStart(c, s, t)
    ensures OnlyShard(c, s, s', t.dest) && GotOk(c, s', t.dest)
  {
    StartResult(c, s, t);
    var ms := s.shards[t.dest].meta.Buffered(s.epoch);
    forall src | src in s'.shards[t.dest].meta.got
      ensures Authentic(c, s', src, t.dest, s'.shards[t.dest].meta.got[src])
    {
      AddedFrom(map[], ms, src);
      var k :| 0 <= k < |ms| && ms[k].src == src && Add(map[], ms)[src] == ms[k].states;
      assert MessageOk(c, s, t.dest, ms[k]);
      AuthenticKept(c, s, s', t.dest, src, t.dest, ms[k].states);
    }
  }

  lemma StartBuffer(c: Config, s: System, s': System, t: StartTo)
    requires Inv(c, s) && Enabled(c, s, DeliverStart(t)) && s' == ApplyDeliverStart(c, s, t)
    ensures BufferedOk(c, s', t.dest)
  {
    StartResult(c, s, t);
    assert BufferedOk(c, s, t.dest);
  }

  lemma StartNetwork(c: Config, s: System, s': System, t: StartTo)
    requires Inv(c, s) && Enabled(c, s, DeliverStart(t)) && s' == ApplyDeliverStart(c, s, t)
    ensures NetworkOk(c, s') && BarrierOk(s') && FinishedLast(s')
  {
    StartResult(c, s, t);
    StartGot(c, s, s', t);
    StartNetworkOk(c, s, s', t);
    BarrierSame(s, s', t.dest);
  }

  lemma StartNetworkOk(c: Config, s: System, s': System, t: StartTo)
    requires c.Valid() && t.dest < |s.shards| && s' == ApplyDeliverStart(c, s, t) && OnlyShard(c, s, s', t.dest)
    requires NetworkOk(c, s) && t in s.starts
    requires s'.shards[t.dest].meta.got == Add(map[], s.shards[t.dest].meta.Buffered(s.epoch))
    requires s'.shards[t.dest].meta.Buffered(s.epoch) == []
    requires forall k :: 0 <= k < |s.shards[t.dest].meta.Buffered(s.epoch)| ==>
      MessageOk(c, s, t.dest, s.shards[t.dest].meta.Buffered(s.epoch)[k])
    ensures NetworkOk(c, s')
  {
    forall m | m in s'.migrations
      ensures TravellingOk(c, s', m)
    {
      StartTravelling(c, s, s', t, m);
    }
    forall t' | t' in s'.starts
      ensures StartOk(c, s', t')
    {
      assert StartOk(c, s, t') && StartOk(c, s, t);
      assert t' != t;
    }
  }

  /** Two messages of the epoch from the same source to the same shard are the same message. */
  lemma SameSource(c: Config, s: System, i: nat, m: MigrationMsg, m': MigrationMsg)
    requires c.Valid() && MessageOk(c, s, i, m) && MessageOk(c, s, i, m')
    ensures m.src == m'.src <==> m == m'
  {
  }

  lemma {:induction false} NotAdded(ms: seq<MigrationMsg>, src: Int64)
    requires forall k :: 0 <= k < |ms| ==> ms[k].src != src
    ensures src !in Add(map[], ms)
  {
    if ms != [] {
      NotAdded(ms[..|ms| - 1], src);
    }
  }

  lemma StartTravelling(c: Config, s: System, s': System, t: StartTo, m: MigrationMsg)
    requires c.Valid() && t.dest < |s.shards| && s' == ApplyDeliverStart(c, s, t) && OnlyShard(c, s, s', t.dest)
    requires TravellingOk(c, s, m)
    requires s'.shards[t.dest].meta.got == Add(map[], s.shards[t.dest].meta.Buffered(s.epoch))
    requires s'.shards[t.dest].meta.Buffered(s.epoch) == []
    requires forall k :: 0 <= k < |s.shards[t.dest].meta.Buffered(s.epoch)| ==>
      MessageOk(c, s, t.dest, s.shards[t.dest].meta.Buffered(s.epoch)[k])
    ensures TravellingOk(c, s', m)
  {
    AuthenticKept(c, s, s', t.dest, m.src, m.dest, m.states);
    if m.dest == t.dest {
      var ms := s.shards[t.dest].meta.Buffered(s.epoch);
      forall k | 0 <= k < |ms|
        ensures ms[k].src != m.src
      {
        SameSource(c, s, t.dest, ms[k], m);
      }
      NotAdded(ms, m.src);
    }
  }

  /** The message is accepted: it is stored, or buffered when the start has not arrived yet. */
  ghost predicate Accepted(s: System, s': System, m: MigrationMsg)
    requires 0 <= m.dest < |s.shards| == |s'.shards|
  {
    var a, a' := s.shards[m.dest].meta, s'.shards[m.dest].meta;
    && s'.shards[m.dest] == s.shards[m.dest].(meta := a')
    && s'.migrations == s.migrations - multiset{m}
    && a'.epoch == a.epoch && a'.moved == a.moved && a'.ready == a.ready
    && (if a.epoch == s.epoch
        then a'.got == a.got[m.src := m.states] && a'.buffer == a.buffer
        else a.epoch + 1 == s.epoch && a'.got == a.got && a'.buffer == a.buffer[s.epoch := a.Buffered(s.epoch) + [m]])
  }

  lemma CollectResult(c: Config, s: System, m: MigrationMsg)
    requires c.Valid() && |s.shards| == c.shardNum && TravellingOk(c, s, m) && EpochsOk(s, s.shards[m.dest])
    ensures var s' := ApplyDeliverMigration(c, s, m); OnlyShard(c, s, s', m.dest) && Accepted(s, s', m)
  {
  }

  lemma DeliverMigrationKeepsInv(c: Config, s: System, m: MigrationMsg)
    requires Inv(c, s) && Enabled(c, s, DeliverMigration(m))
    ensures Inv(c, ApplyDeliverMigration(c, s, m))
  {
    var s' := ApplyDeliverMigration(c, s, m);
    assert TravellingOk(c, s, m);
    Facts(c, s, m.dest);
    CollectResult(c, s, m);
    CollectLocal(c, s, s', m);
    CollectBuffer(c, s, s', m);
    CollectSelf(c, s, s', m);
    CollectNetworkOk(c, s, s', m);
    BarrierSame(s, s', m.dest);
    OneShardKeepsInv(c, s, s', m.dest);
  }

  lemma CollectLocal(c: Config, s: System, s': System, m: MigrationMsg)
    requires c.Valid() && |s.shards| == c.shardNum && TravellingOk(c, s, m) && OnlyShard(c, s, s', m.dest)
    requires Accepted(s, s', m)
    requires LocalOk(c, s, s.shards[m.dest], m.dest) && GotOk(c, s, m.dest)
    ensures LocalOk(c, s', s'.shards[m.dest], m.dest) && GotOk(c, s', m.dest)
  {
    var sh := s.shards[m.dest];
    if |sh.meta.got| == c.shardNum {
      FullGot(c, s, m.dest);
    }
    CollectGot(c, s, s', m);
  }

  lemma CollectGot(c: Config, s: System, s': System, m: MigrationMsg)
    requires c.Valid() && TravellingOk(c, s, m) && OnlyShard(c, s, s', m.dest) && Accepted(s, s', m)
    requires GotOk(c, s, m.dest)
    ensures GotOk(c, s', m.dest)
  {
    forall src | src in s'.shards[m.dest].meta.got
      ensures Authentic(c, s', src, m.dest, s'.shards[m.dest].meta.got[src])
    {
      AuthenticKept(c, s, s', m.dest, src, m.dest, s'.shards[m.dest].meta.got[src]);
    }
  }

  lemma CollectBuffer(c: Config, s: System, s': System, m: MigrationMsg)
    requires c.Valid() && TravellingOk(c, s, m) && OnlyShard(c, s, s', m.dest) && Accepted(s, s', m)
    requires BufferedOk(c, s, m.dest)
    ensures BufferedOk(c, s', m.dest)
  {
    var buffer, buffer' := s.shards[m.dest].meta.buffer, s'.shards[m.dest].meta.buffer;
    forall e, k | e in buffer' && 0 <= k < |buffer'[e]|
      ensures MessageOk(c, s', m.dest, buffer'[e][k])
    {
      var b := buffer'[e][k];
      if b != m {
        assert e in buffer && b == buffer[e][k];
      }
      assert MessageOk(c, s, m.dest, b);
      AuthenticKept(c, s, s', m.dest, b.src, m.dest, b.states);
    }
  }

  lemma CollectSelf(c: Config, s: System, s': System, m: MigrationMsg)
    requires c.Valid() && TravellingOk(c, s, m) && OnlyShard(c, s, s', m.dest) && Accepted(s, s', m)
    requires EpochsOk(s, s.shards[m.dest]) && SelfOk(s, m.dest)
    ensures SelfOk(s', m.dest)
  {
    var i := m.dest;
    if s.shards[i].captured == s.epoch && s.shards[i].epoch < s.epoch && i !in s'.shards[i].meta.got {
      var own :| own in s.migrations && own.src == i && own.dest == i;
      assert own != m;
      assert own in s'.migrations;
    }
  }

  /** Epochs, captures and reports stand still. */
  lemma BarrierSame(s: System, s': System, i: nat)
    requires i < |s.shards| == |s'.shards|
    requires forall j :: 0 <= j < |s.shards| && j != i ==> s'.shards[j] == s.shards[j]
    requires s'.shards[i].epoch == s.shards[i].epoch && s'.shards[i].captured == s.shards[i].captured
    requires s'.epoch == s.epoch && s'.reported == s.reported && s'.reports == s.reports && s'.synced == s.synced
    requires BarrierOk(s) && FinishedLast(s)
    ensures BarrierOk(s') && FinishedLast(s')
  {
  }

  lemma CollectNetworkOk(c: Config, s: System, s': System, m: MigrationMsg)
    requires c.Valid() && |s.shards| == c.shardNum && m in s.migrations
    requires TravellingOk(c, s, m) && OnlyShard(c, s, s', m.dest) && Accepted(s, s', m)
    requires s'.starts == s.starts && s'.txs == s.txs
    requires NetworkOk(c, s)
    ensures NetworkOk(c, s')
  {
    forall m' | m' in s'.migrations
      ensures TravellingOk(c, s', m')
    {
      assert m' != m;
      CollectTravelling(c, s, s', m, m');
    }
    forall t | t in s'.starts
      ensures StartOk(c, s', t)
    {
      assert StartOk(c, s, t);
    }
  }

  lemma CollectTravelling(c: Config, s: System, s': System, m: MigrationMsg, m': MigrationMsg)
    requires c.Valid() && TravellingOk(c, s, m) && OnlyShard(c, s, s', m.dest) && Accepted(s, s', m)
    requires TravellingOk(c, s, m') && m' != m
    ensures TravellingOk(c, s', m')
  {
    AuthenticKept(c, s, s', m.dest, m'.src, m'.dest, m'.states);
    if m'.dest == m.dest {
      SameSource(c, s, m.dest, m, m');
    }
  }
}
