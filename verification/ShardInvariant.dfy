/** The inductive invariant of `ShardSystem`: epochs, locations, buffered and travelling migration
    messages. Every step keeps it (`StepKeepsInv`). */
module ShardInvariant {
  import opened Types
  import opened Execution
  import opened Migration
  import opened Routing
  import opened ShardSystem

  // ---------------------------------------------------------------------------------------------
  // The invariant
  // ---------------------------------------------------------------------------------------------

  /** The announced moves are exactly the difference between the last two partitions. */
  ghost predicate ExactMoves(c: Config, s: System)
    requires c.Valid()
  {
    && InRange(s.partition, c.shardNum) && InRange(s.before, c.shardNum)
    && (forall a :: a in s.moved <==> LocOf(s.before, a, c.shardNum) != LocOf(s.partition, a, c.shardNum))
    && (forall a :: a in s.moved ==> s.moved[a] == LocOf(s.partition, a, c.shardNum))
  }

  /** A shard has finished the supervisor's epoch, or it is one behind and sees the old partition. */
  ghost predicate LocationsOk(c: Config, s: System, sh: Shard)
    requires c.Valid()
  {
    forall a :: LocOf(sh.loc, a, c.shardNum)
      == LocOf(if sh.epoch == s.epoch then s.partition else s.before, a, c.shardNum)
  }

  ghost predicate EpochsOk(s: System, sh: Shard)
  {
    && sh.epoch <= sh.captured <= sh.meta.epoch <= s.epoch <= sh.epoch + 1
    && (sh.meta.ready <==> sh.epoch < sh.meta.epoch)
    && sh.meta.moved == (if sh.meta.ready then s.moved else map[])
    && (!sh.meta.ready ==> sh.meta.got == map[])
  }

  /** Between the capture and the commit of the migration block nothing else is proposed, and the
      accounts stand as they were sent. */
  ghost predicate FrozenOk(c: Config, s: System, sh: Shard, i: nat)
    requires c.Valid()
  {
    sh.captured == s.epoch ==>
      forall a :: a in s.moved && LocOf(s.before, a, c.shardNum) == i ==>
        ReadState(sh.accounts, a, i) == ReadState(sh.snapshot, a, i)
  }

  ghost predicate BlockAtHome(c: Config, loc: map<Address, int>, i: nat, txs: seq<Transaction>)
    requires c.Valid()
  {
    forall k :: 0 <= k < |txs| ==> AtHome(c.universe, loc, c.shardNum, i, txs[k])
  }

  ghost predicate ProposalOk(c: Config, sh: Shard, i: nat)
    requires c.Valid()
  {
    match sh.proposed
    case None => true
    case Some(TxBlock(txs)) =>
      && sh.captured == sh.epoch
      && BlockAtHome(c, sh.loc, i, txs)
      && ExecTxs(sh.accounts, sh.loc, c.shardNum, i, txs).Some?
    case Some(MigrationBlock(states)) =>
      && sh.meta.ready && sh.captured == sh.meta.epoch
      && |sh.meta.got| == c.shardNum
      && states == HandOver(sh.meta)
  }

  ghost predicate LocalOk(c: Config, s: System, sh: Shard, i: nat)
    requires c.Valid()
  {
    && EpochsOk(s, sh)
    && LocationsOk(c, s, sh)
    && FrozenOk(c, s, sh, i)
    && ProposalOk(c, sh, i)
    && NoEmpty(sh.accounts) && WordBalances(sh.accounts)
    && (forall tx :: tx in sh.pool ==> Pooled(c.universe, tx))
  }

  /** What shard `src` sent shard `dest` in the current epoch. */
  ghost function Sent(c: Config, s: System, src: nat, dest: int): map<Address, State>
    requires c.Valid() && src < |s.shards|
  {
    SentStates(s.moved, s.before, s.shards[src].snapshot, c.shardNum, src, dest)
  }

  /** States of this epoch from a source that has sent them. */
  ghost predicate Authentic(c: Config, s: System, src: Int64, dest: int, states: map<Address, State>)
    requires c.Valid()
  {
    && 0 <= src < |s.shards|
    && s.shards[src].captured == s.epoch
    && states == Sent(c, s, src, dest)
  }

  ghost predicate GotOk(c: Config, s: System, i: nat)
    requires c.Valid() && i < |s.shards|
  {
    forall src :: src in s.shards[i].meta.got ==> Authentic(c, s, src, i, s.shards[i].meta.got[src])
  }

  ghost predicate BufferedOk(c: Config, s: System, i: nat)
    requires c.Valid() && i < |s.shards|
  {
    forall e :: e in s.shards[i].meta.buffer && s.shards[i].meta.buffer[e] != [] ==>
      && e == s.epoch && s.shards[i].meta.epoch + 1 == s.epoch
      && forall k :: 0 <= k < |s.shards[i].meta.buffer[e]| ==> MessageOk(c, s, i, s.shards[i].meta.buffer[e][k])
  }

  ghost predicate MessageOk(c: Config, s: System, i: nat, m: MigrationMsg)
    requires c.Valid()
  {
    m.dest == i && m.epoch == s.epoch && Authentic(c, s, m.src, i, m.states)
  }

  /** A travelling message is the only copy, and its destination still waits for it. */
  ghost predicate TravellingOk(c: Config, s: System, m: MigrationMsg)
    requires c.Valid()
  {
    && 0 <= m.dest < |s.shards|
    && MessageOk(c, s, m.dest, m)
    && s.migrations[m] == 1
    && s.shards[m.dest].epoch < s.epoch
    && m.src !in s.shards[m.dest].meta.got
    && m !in s.shards[m.dest].meta.Buffered(s.epoch)
  }

  /** A leader that has sent its accounts out has its own message, or it is on the way. */
  ghost predicate SelfOk(s: System, i: nat)
    requires i < |s.shards|
  {
    s.shards[i].captured == s.epoch && s.shards[i].epoch < s.epoch ==>
      i in s.shards[i].meta.got || exists m :: m in s.migrations && m.src == i && m.dest == i
  }

  ghost predicate StartOk(c: Config, s: System, t: StartTo)
  {
    && t.dest < |s.shards|
    && t.msg == StartMsg(s.epoch, s.moved)
    && s.shards[t.dest].meta.epoch + 1 == s.epoch
    && s.starts[t] == 1
  }

  ghost predicate BarrierOk(s: System)
  {
    && |s.reported| == |s.shards|
    && (forall i :: 0 <= i < |s.shards| ==> s.reported[i] <= s.shards[i].epoch && s.epoch <= s.reported[i] + 1)
    && (forall r :: r in s.reports ==> r.shard < |s.shards| && r.epoch <= s.shards[r.shard].epoch)
    && (s.synced ==> forall i :: 0 <= i < |s.shards| ==> s.reported[i] == s.epoch)
  }

  ghost predicate AllLocalOk(c: Config, s: System)
    requires c.Valid()
  {
    forall i :: 0 <= i < |s.shards| ==> LocalOk(c, s, s.shards[i], i)
  }

  ghost predicate AllTrafficOk(c: Config, s: System)
    requires c.Valid()
  {
    forall i :: 0 <= i < |s.shards| ==> GotOk(c, s, i) && BufferedOk(c, s, i) && SelfOk(s, i)
  }

  /** A shard can finish the epoch only after every leader has sent its accounts out. */
  ghost predicate FinishedLast(s: System)
  {
    forall i, j :: 0 <= i < |s.shards| && 0 <= j < |s.shards| && s.shards[i].epoch == s.epoch ==>
      s.shards[j].captured == s.epoch
  }

  ghost predicate NetworkOk(c: Config, s: System)
    requires c.Valid()
  {
    && (forall m :: m in s.migrations ==> TravellingOk(c, s, m))
    && (forall t :: t in s.starts ==> StartOk(c, s, t))
    && (forall t :: t in s.txs ==> 0 <= t.dest < c.shardNum && Pooled(c.universe, t.tx))
  }

  ghost predicate Inv(c: Config, s: System)
  {
    && c.Valid() && |s.shards| == c.shardNum
    && ExactMoves(c, s)
    && BarrierOk(s)
    && AllLocalOk(c, s)
    && AllTrafficOk(c, s)
    && FinishedLast(s)
    && NetworkOk(c, s)
  }

  lemma InitInv(c: Config, s: System)
    requires c.Valid() && Init(c, s)
    ensures Inv(c, s)
  {
    forall i | 0 <= i < |s.shards|
      ensures LocalOk(c, s, s.shards[i], i) && GotOk(c, s, i) && BufferedOk(c, s, i) && SelfOk(s, i)
    {
    }
  }

  // ---------------------------------------------------------------------------------------------
  // Supervisor steps
  // ---------------------------------------------------------------------------------------------

  lemma InjectKeepsInv(c: Config, s: System, tx: Transaction)
    requires Inv(c, s) && Enabled(c, s, Inject(tx))
    ensures Inv(c, Apply(c, s, Inject(tx)))
  {
    var s' := Apply(c, s, Inject(tx));
    SameShards(c, s, s');
  }

  /** Steps that leave shards, epochs and migration traffic alone. */
  lemma SameShards(c: Config, s: System, s': System)
    requires Inv(c, s)
    requires s'.shards == s.shards && s'.epoch == s.epoch && s'.moved == s.moved && s'.before == s.before
    requires s'.migrations == s.migrations && s'.starts == s.starts
    requires ExactMoves(c, s') && BarrierOk(s')
    requires forall a :: LocOf(s'.partition, a, c.shardNum) == LocOf(s.partition, a, c.shardNum)
    requires forall t :: t in s'.txs ==> 0 <= t.dest < c.shardNum && Pooled(c.universe, t.tx)
    ensures Inv(c, s')
  {
    forall i | 0 <= i < |s'.shards|
      ensures LocalOk(c, s', s'.shards[i], i) && GotOk(c, s', i) && BufferedOk(c, s', i) && SelfOk(s', i)
    {
      assert LocalOk(c, s, s.shards[i], i) && GotOk(c, s, i) && BufferedOk(c, s, i) && SelfOk(s, i);
      forall src | src in s'.shards[i].meta.got
        ensures Authentic(c, s', src, i, s'.shards[i].meta.got[src])
      {
        assert Authentic(c, s, src, i, s.shards[i].meta.got[src]);
      }
      forall e, k | e in s'.shards[i].meta.buffer && 0 <= k < |s'.shards[i].meta.buffer[e]|
        ensures MessageOk(c, s', i, s'.shards[i].meta.buffer[e][k])
      {
        assert MessageOk(c, s, i, s.shards[i].meta.buffer[e][k]);
      }
    }
    SameTraffic(c, s, s');
  }

  lemma SameTraffic(c: Config, s: System, s': System)
    requires c.Valid() && NetworkOk(c, s)
    requires s'.shards == s.shards && s'.epoch == s.epoch && s'.moved == s.moved && s'.before == s.before
    requires s'.migrations == s.migrations && s'.starts == s.starts
    requires forall t :: t in s'.txs ==> 0 <= t.dest < c.shardNum && Pooled(c.universe, t.tx)
    ensures NetworkOk(c, s')
  {
    forall m | m in s'.migrations
      ensures TravellingOk(c, s', m)
    {
      assert TravellingOk(c, s, m);
    }
    forall t | t in s'.starts
      ensures StartOk(c, s', t)
    {
      assert StartOk(c, s, t);
    }
  }

  lemma HandleReportKeepsInv(c: Config, s: System, r: Report, seen: set<Address>)
    requires Inv(c, s) && Enabled(c, s, HandleReport(r, seen))
    ensures Inv(c, ApplyHandleReport(c, s, r, seen))
  {
    var s' := ApplyHandleReport(c, s, r, seen);
    assert LocalOk(c, s, s.shards[r.shard], r.shard);
    SeeKeepsLocations(s.partition, c.shardNum, seen);
    SameMoves(c, s, s');
    ReportKeepsBarrier(c, s, s', r);
    SameShards(c, s, s');
  }

  lemma SeeKeepsLocations(partition: map<Address, int>, shardNum: int, seen: set<Address>)
    requires shardNum > 0 && InRange(partition, shardNum)
    ensures InRange(SeeVertices(partition, shardNum, seen), shardNum)
    ensures forall a :: LocOf(SeeVertices(partition, shardNum, seen), a, shardNum) == LocOf(partition, a, shardNum)
  {
  }

  lemma SameMoves(c: Config, s: System, s': System)
    requires c.Valid() && ExactMoves(c, s) && s'.before == s.before && s'.moved == s.moved
    requires InRange(s'.partition, c.shardNum)
    requires forall a :: LocOf(s'.partition, a, c.shardNum) == LocOf(s.partition, a, c.shardNum)
    ensures ExactMoves(c, s')
  {
  }

  lemma ReportKeepsBarrier(c: Config, s: System, s': System, r: Report)
    requires Inv(c, s) && r in s.reports && r.shard < c.shardNum
    requires s'.shards == s.shards && s'.synced == s.synced && s'.epoch == s.epoch
    requires s'.reports == s.reports - multiset{r}
    requires s'.reported
      == s.reported[r.shard := if s.reported[r.shard] < r.epoch then r.epoch else s.reported[r.shard]]
    ensures BarrierOk(s')
  {
    assert LocalOk(c, s, s.shards[r.shard], r.shard);
  }

  lemma CheckEpochsKeepsInv(c: Config, s: System)
    requires Inv(c, s)
    ensures Inv(c, Apply(c, s, CheckEpochs))
  {
    SameShards(c, s, Apply(c, s, CheckEpochs));
  }

  lemma {:induction false} StartsToCount(n: nat, msg: StartMsg)
    ensures forall t :: t in StartsTo(n, msg) <==> t.dest < n && t.msg == msg
    ensures forall t :: StartsTo(n, msg)[t] <= 1
  {
    if n > 0 {
      StartsToCount(n - 1, msg);
    }
  }

  /** When the barrier is open, every leader has finished the epoch and nothing is under way. */
  lemma OpenBarrier(c: Config, s: System)
    requires Inv(c, s) && s.synced
    ensures forall i :: 0 <= i < |s.shards| ==>
      && s.shards[i].epoch == s.shards[i].meta.epoch == s.epoch
      && s.shards[i].meta.got == map[] && s.shards[i].meta.moved == map[] && !s.shards[i].meta.ready
      && (forall e :: s.shards[i].meta.Buffered(e) == [])
    ensures s.migrations == multiset{} && s.starts == multiset{}
  {
    forall i | 0 <= i < |s.shards|
      ensures s.shards[i].epoch == s.shards[i].meta.epoch == s.epoch
      ensures s.shards[i].meta.got == map[] && s.shards[i].meta.moved == map[] && !s.shards[i].meta.ready
      ensures forall e :: s.shards[i].meta.Buffered(e) == []
    {
      assert LocalOk(c, s, s.shards[i], i) && BufferedOk(c, s, i);
      assert s.reported[i] == s.epoch;
    }
    forall m
      ensures m !in s.migrations
    {
    }
    forall t
      ensures t !in s.starts
    {
    }
  }

  lemma RepartitionKeepsInv(c: Config, s: System, target: map<Address, int>)
    requires Inv(c, s) && Enabled(c, s, Repartition(target))
    ensures Inv(c, ApplyRepartition(c, s, target))
  {
    var s' := ApplyRepartition(c, s, target);
    OpenBarrier(c, s);
    StartsToCount(c.shardNum, StartMsg(s'.epoch, s'.moved));
    MovesExact(c, s, s', target);
    forall i | 0 <= i < |s'.shards|
      ensures LocalOk(c, s', s'.shards[i], i) && GotOk(c, s', i) && BufferedOk(c, s', i) && SelfOk(s', i)
    {
      EpochOpens(c, s, s', i);
    }
    RepartitionNetwork(c, s, s', target);
  }

  lemma RepartitionNetwork(c: Config, s: System, s': System, target: map<Address, int>)
    requires Inv(c, s) && Enabled(c, s, Repartition(target)) && s' == ApplyRepartition(c, s, target)
    ensures NetworkOk(c, s')
  {
    OpenBarrier(c, s);
    StartsToCount(c.shardNum, StartMsg(s'.epoch, s'.moved));
    assert s'.starts == StartsTo(c.shardNum, StartMsg(s'.epoch, s'.moved));
  }

  lemma MovesExact(c: Config, s: System, s': System, target: map<Address, int>)
    requires c.Valid() && InRange(s.partition, c.shardNum) && InRange(target, c.shardNum)
    requires target.Keys == s.partition.Keys
    requires s'.partition == target && s'.before == s.partition && s'.moved == Moves(s.partition, target)
    ensures ExactMoves(c, s')
  {
  }

  lemma EpochOpens(c: Config, s: System, s': System, i: nat)
    requires Inv(c, s) && i < |s.shards| && s.synced
    requires s'.shards == s.shards && s'.epoch == s.epoch + 1 && s'.before == s.partition
    ensures LocalOk(c, s', s'.shards[i], i) && GotOk(c, s', i) && BufferedOk(c, s', i) && SelfOk(s', i)
  {
    OpenBarrier(c, s);
    assert LocalOk(c, s, s.shards[i], i);
    var meta := s.shards[i].meta;
    forall e | e in meta.buffer
      ensures meta.buffer[e] == []
    {
      assert meta.Buffered(e) == [];
    }
  }
}
