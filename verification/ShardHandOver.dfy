/** Account hand-over between shards: the capture and the migration block keep the invariant, and what
    the destination installs is what the source holds. */
module ShardHandOver {
  import opened Types
  import opened Execution
  import opened Migration
  import opened Routing
  import opened ShardSystem
  import opened ShardInvariant
  import opened ShardSteps

  // ---------------------------------------------------------------------------------------------
  // Capture
  // ---------------------------------------------------------------------------------------------

  /** A leader about to capture has not done so before in this epoch, and no shard has finished it. */
  lemma CaptureFresh(c: Config, s: System, i: nat, all: seq<Transaction>)
    requires Inv(c, s) && Enabled(c, s, Capture(i, all))
    ensures s.shards[i].captured != s.epoch && s.shards[i].meta.epoch == s.epoch && s.shards[i].epoch + 1 == s.epoch
    ensures s.shards[i].meta.moved == s.moved
    ensures forall j :: 0 <= j < |s.shards| ==> s.shards[j].epoch < s.epoch
  {
    Facts(c, s, i);
    assert FinishedLast(s);
    forall j | 0 <= j < |s.shards|
      ensures s.shards[j].epoch < s.epoch
    {
      Facts(c, s, j);
    }
  }

  lemma {:induction false} SentMessagesAt(moved: map<Address, int>, loc: map<Address, int>, accounts: Accounts, n: nat,
      src: Int64, epoch: int, upTo: nat, m: MigrationMsg)
    requires 0 < n && upTo < 0x8000_0000_0000_0000
    ensures var sent := multiset(SentMessages(moved, loc, accounts, n, src, epoch, upTo));
      sent[m] == if 0 <= m.dest < upTo
        && m == MigrationMsg(src, m.dest, epoch, SentStates(moved, loc, accounts, n, src, m.dest)) then 1 else 0
  {
    if upTo > 0 {
      SentMessagesAt(moved, loc, accounts, n, src, epoch, upTo - 1, m);
    }
  }

  /** With the locations all shards share before the epoch ends, the message is the authentic one. */
  lemma SentStatesAgree(moved: map<Address, int>, loc: map<Address, int>, loc': map<Address, int>, accounts: Accounts,
      n: nat, src: int, dest: int)
    requires n > 0 && forall a :: LocOf(loc, a, n) == LocOf(loc', a, n)
    ensures SentStates(moved, loc, accounts, n, src, dest) == SentStates(moved, loc', accounts, n, src, dest)
  {
  }

  lemma CaptureKeepsInv(c: Config, s: System, i: nat, all: seq<Transaction>)
    requires Inv(c, s) && Enabled(c, s, Capture(i, all))
    ensures Inv(c, ApplyCapture(c, s, i, all))
  {
    var s' := ApplyCapture(c, s, i, all);
    CaptureShard(c, s, s', i, all);
    CaptureNetwork(c, s, s', i, all);
    OneShardKeepsInv(c, s, s', i);
  }

  lemma CaptureShard(c: Config, s: System, s': System, i: nat, all: seq<Transaction>)
    requires Inv(c, s) && Enabled(c, s, Capture(i, all)) && s' == ApplyCapture(c, s, i, all)
    ensures s.shards[i].captured != s.epoch
    ensures LocalOk(c, s', s'.shards[i], i) && BarrierOk(s') && FinishedLast(s')
    ensures OnlyShard(c, s, s', i) && GotOk(c, s', i) && BufferedOk(c, s', i) && SelfOk(s', i)
    ensures forall m :: m in s.migrations ==> m in s'.migrations
  {
    CaptureFresh(c, s, i, all);
    Facts(c, s, i);
    CaptureShardOk(c, s, s', i, all);
  }

  lemma CaptureShardOk(c: Config, s: System, s': System, i: nat, all: seq<Transaction>)
    requires c.Valid() && |s.shards| == |s.reported| == c.shardNum && Enabled(c, s, Capture(i, all))
    requires s' == ApplyCapture(c, s, i, all)
    requires LocalOk(c, s, s.shards[i], i) && GotOk(c, s, i) && BufferedOk(c, s, i) && BarrierOk(s)
    requires s.shards[i].captured != s.epoch && s.shards[i].meta.epoch == s.epoch
    requires forall j :: 0 <= j < |s.shards| ==> s.shards[j].epoch < s.epoch
    ensures LocalOk(c, s', s'.shards[i], i) && BarrierOk(s') && FinishedLast(s')
    ensures OnlyShard(c, s, s', i) && GotOk(c, s', i) && BufferedOk(c, s', i) && SelfOk(s', i)
    ensures forall m :: m in s.migrations ==> m in s'.migrations
  {
    CaptureLocal(c, s, i, all);
    CaptureTraffic(c, s, s', i, all);
    CaptureBarrier(s, s', i);
  }

  lemma CaptureBarrier(s: System, s': System, i: nat)
    requires i < |s.shards| == |s'.shards| && BarrierOk(s)
    requires forall j :: 0 <= j < |s.shards| ==> s'.shards[j].epoch == s.shards[j].epoch
    requires forall j :: 0 <= j < |s.shards| ==> s.shards[j].epoch < s.epoch
    requires s'.epoch == s.epoch && s'.reported == s.reported && s'.reports == s.reports && s'.synced == s.synced
    ensures BarrierOk(s') && FinishedLast(s')
  {
  }

  lemma CaptureLocal(c: Config, s: System, i: nat, all: seq<Transaction>)
    requires c.Valid() && |s.shards| == |s.reported| == c.shardNum && i < c.shardNum && LocalOk(c, s, s.shards[i], i)
    requires Enabled(c, s, Capture(i, all)) && s.shards[i].meta.epoch == s.epoch
    ensures LocalOk(c, ApplyCapture(c, s, i, all), ApplyCapture(c, s, i, all).shards[i], i)
  {
    KeptBelongs(s.shards[i].meta.moved, all);
    var sh' := ApplyCapture(c, s, i, all).shards[i];
    forall tx | tx in sh'.pool
      ensures Pooled(c.universe, tx)
    {
      assert tx in s.shards[i].pool;
    }
  }

  lemma CaptureTraffic(c: Config, s: System, s': System, i: nat, all: seq<Transaction>)
    requires c.Valid() && |s.shards| == |s.reported| == c.shardNum && Enabled(c, s, Capture(i, all))
    requires s' == ApplyCapture(c, s, i, all)
    requires s.shards[i].captured != s.epoch && GotOk(c, s, i) && BufferedOk(c, s, i)
    ensures OnlyShard(c, s, s', i) && GotOk(c, s', i) && BufferedOk(c, s', i) && SelfOk(s', i)
  {
    SelfCaptured(c, s, s', i, all);
    TrafficKept(c, s, s', i);
  }

  lemma TrafficKept(c: Config, s: System, s': System, i: nat)
    requires c.Valid() && OnlyShard(c, s, s', i) && GotOk(c, s, i) && BufferedOk(c, s, i)
    requires s'.shards[i].meta == s.shards[i].meta
    ensures GotOk(c, s', i) && BufferedOk(c, s', i)
  {
    forall src | src in s'.shards[i].meta.got
      ensures Authentic(c, s', src, i, s'.shards[i].meta.got[src])
    {
      AuthenticKept(c, s, s', i, src, i, s.shards[i].meta.got[src]);
    }
    forall e, k | e in s'.shards[i].meta.buffer && 0 <= k < |s'.shards[i].meta.buffer[e]|
      ensures MessageOk(c, s', i, s'.shards[i].meta.buffer[e][k])
    {
      var m := s.shards[i].meta.buffer[e][k];
      assert MessageOk(c, s, i, m);
      AuthenticKept(c, s, s', i, m.src, i, m.states);
    }
  }

  lemma SelfCaptured(c: Config, s: System, s': System, i: nat, all: seq<Transaction>)
    requires c.Valid() && |s.shards| == |s.reported| == c.shardNum && Enabled(c, s, Capture(i, all))
    requires s' == ApplyCapture(c, s, i, all)
    ensures SelfOk(s', i)
  {
    var sh := s.shards[i];
    var own := MigrationMsg(i, i, sh.meta.epoch, SentStates(sh.meta.moved, sh.loc, sh.accounts, c.shardNum, i, i));
    SentMessagesAt(sh.meta.moved, sh.loc, sh.accounts, c.shardNum, i, sh.meta.epoch, c.shardNum, own);
    assert own in s'.migrations;
  }

  lemma CaptureNetwork(c: Config, s: System, s': System, i: nat, all: seq<Transaction>)
    requires Inv(c, s) && Enabled(c, s, Capture(i, all)) && s' == ApplyCapture(c, s, i, all)
    requires OnlyShard(c, s, s', i) && s.shards[i].captured != s.epoch
    ensures NetworkOk(c, s')
  {
    CaptureFresh(c, s, i, all);
    forall m | m in s'.migrations
      ensures TravellingOk(c, s', m)
    {
      CaptureTravelling(c, s, s', i, all, m);
    }
    assert NetworkOk(c, s);
    CaptureOthers(c, s, s', i, all);
  }

  lemma CaptureOthers(c: Config, s: System, s': System, i: nat, all: seq<Transaction>)
    requires Inv(c, s) && Enabled(c, s, Capture(i, all)) && s' == ApplyCapture(c, s, i, all)
    ensures forall t :: t in s'.starts ==> StartOk(c, s', t)
    ensures forall t :: t in s'.txs ==> 0 <= t.dest < c.shardNum && Pooled(c.universe, t.tx)
  {
    Facts(c, s, i);
    CaptureFresh(c, s, i, all);
    var sh := s.shards[i];
    KeptBelongs(sh.meta.moved, all);
    forall t | t in s'.starts
      ensures StartOk(c, s', t)
    {
      assert StartOk(c, s, t);
    }
    forall k | 0 <= k < |Following(sh.meta.moved, all)|
      ensures 0 <= Following(sh.meta.moved, all)[k].dest < c.shardNum
      ensures Pooled(c.universe, Following(sh.meta.moved, all)[k].tx)
    {
      assert Following(sh.meta.moved, all)[k].tx in sh.pool;
    }
  }

  lemma CaptureTravelling(c: Config, s: System, s': System, i: nat, all: seq<Transaction>, m: MigrationMsg)
    requires Inv(c, s) && Enabled(c, s, Capture(i, all)) && s' == ApplyCapture(c, s, i, all)
    requires OnlyShard(c, s, s', i) && m in s'.migrations
    ensures TravellingOk(c, s', m)
  {
    CaptureFresh(c, s, i, all);
    var sh := s.shards[i];
    SentMessagesAt(sh.meta.moved, sh.loc, sh.accounts, c.shardNum, i, sh.meta.epoch, c.shardNum, m);
    if m in s.migrations {
      assert TravellingOk(c, s, m);
      OldTravelling(c, s, s', i, m);
    } else {
      Facts(c, s, i);
      Facts(c, s, m.dest);
      NewTravelling(c, s, s', i, m);
    }
  }

  lemma OldTravelling(c: Config, s: System, s': System, i: nat, m: MigrationMsg)
    requires c.Valid() && OnlyShard(c, s, s', i) && TravellingOk(c, s, m)
    requires s.shards[i].captured != s.epoch && s'.shards[i].meta == s.shards[i].meta
    requires s'.shards[i].epoch == s.shards[i].epoch
    requires m.src != i ==> s'.migrations[m] == s.migrations[m]
    ensures TravellingOk(c, s', m)
  {
    AuthenticKept(c, s, s', i, m.src, m.dest, m.states);
  }

  lemma NewTravelling(c: Config, s: System, s': System, i: nat, m: MigrationMsg)
    requires c.Valid() && |s.shards| == c.shardNum && OnlyShard(c, s, s', i)
    requires s.shards[i].captured != s.epoch && s'.shards[i].captured == s.epoch
    requires s'.shards[i].meta == s.shards[i].meta && s'.shards[i].epoch == s.shards[i].epoch
    requires s'.shards[i].snapshot == s.shards[i].accounts && s.shards[i].epoch < s.epoch
    requires LocationsOk(c, s, s.shards[i])
    requires 0 <= m.dest < c.shardNum && s.shards[m.dest].epoch < s.epoch && GotOk(c, s, m.dest)
    requires BufferedOk(c, s, m.dest)
    requires m
      == MigrationMsg(i, m.dest, s.epoch,
        SentStates(s.moved, s.shards[i].loc, s.shards[i].accounts, c.shardNum, i, m.dest))
    requires s'.migrations[m] == 1
    ensures TravellingOk(c, s', m)
  {
    SentStatesAgree(s.moved, s.shards[i].loc, s.before, s.shards[i].accounts, c.shardNum, i, m.dest);
    var a := s.shards[m.dest].meta;
    assert m.src !in a.got;
    forall k | 0 <= k < |a.Buffered(s.epoch)|
      ensures a.Buffered(s.epoch)[k].src != i
    {
      assert MessageOk(c, s, m.dest, a.buffer[s.epoch][k]);
    }
  }

  // ---------------------------------------------------------------------------------------------
  // The migration block
  // ---------------------------------------------------------------------------------------------

  lemma ProposeMigrationKeepsInv(c: Config, s: System, i: nat)
    requires Inv(c, s) && Enabled(c, s, ProposeMigration(i))
    ensures Inv(c, ApplyProposeMigration(c, s, i))
  {
    var s' := ApplyProposeMigration(c, s, i);
    Facts(c, s, i);
    FullGot(c, s, i);
    assert Authentic(c, s, i, i, s.shards[i].meta.got[i]);
    NewProposalLocalOk(c, s, s', s.shards[i], s'.shards[i], i);
    SameMetaKeepsInv(c, s, s', i);
  }

  /** Every account moved here is installed as its only source still holds it; every other moved
      account only changes its location. */
  lemma HandOverExact(c: Config, s: System, i: nat, a: Address)
    requires c.Valid() && i < |s.shards| == c.shardNum && ExactMoves(c, s)
    requires GotOk(c, s, i) && |s.shards[i].meta.got| == c.shardNum && s.shards[i].meta.moved == s.moved
    requires a in s.moved
    requires FrozenOk(c, s, s.shards[LocOf(s.before, a, c.shardNum)], LocOf(s.before, a, c.shardNum))
    ensures var src, states := LocOf(s.before, a, c.shardNum), HandOver(s.shards[i].meta);
      && a in states && states[a].location == LocOf(s.partition, a, c.shardNum)
      && (states[a].location == i ==> states[a] == ReadState(s.shards[src].accounts, a, i))
    ensures forall src: Int64 :: src in s.shards[i].meta.got && a in s.shards[i].meta.got[src] ==>
      src == LocOf(s.before, a, c.shardNum)
  {
    var meta := s.shards[i].meta;
    var src: Int64 := LocOf(s.before, a, c.shardNum);
    FullGot(c, s, i);
    assert Authentic(c, s, src, i, meta.got[src]);
    if s.moved[a] == i {
      assert a in meta.got[src];
      var from :| from in meta.got && a in meta.got[from] && Incoming(meta.got, a) == Some(meta.got[from][a]);
      assert Authentic(c, s, from, i, meta.got[from]);
      assert from == src;
    }
  }

  /** What sources send one shard never overlaps, so merging it in any order gives the same states. */
  lemma SourcesDisjoint(c: Config, s: System, i: nat)
    requires Inv(c, s) && i < |s.shards|
    ensures DisjointSources(s.shards[i].meta.got)
  {
    Facts(c, s, i);
    var got := s.shards[i].meta.got;
    forall p, q | p in got && q in got && p != q
      ensures got[p].Keys !! got[q].Keys
    {
      assert Authentic(c, s, p, i, got[p]) && Authentic(c, s, q, i, got[q]);
    }
  }

  /** Facts about a migration block that is about to commit. */
  ghost predicate Committing(c: Config, s: System, i: nat)
    requires c.Valid()
  {
    && i < |s.shards| == c.shardNum && ExactMoves(c, s)
    && LocalOk(c, s, s.shards[i], i) && GotOk(c, s, i)
    && s.shards[i].proposed.Some? && s.shards[i].proposed.value.MigrationBlock?
    && s.shards[i].epoch + 1 == s.epoch == s.shards[i].meta.epoch == s.shards[i].captured
    && s.shards[i].meta.moved == s.moved && |s.shards[i].meta.got| == c.shardNum
    && s.shards[i].proposed.value.states == HandOver(s.shards[i].meta)
    && (forall j :: 0 <= j < |s.shards| ==>
      NoEmpty(s.shards[j].accounts) && WordBalances(s.shards[j].accounts) && FrozenOk(c, s, s.shards[j], j))
    && (forall j :: 0 <= j < |s.shards| ==> s.shards[j].captured == s.epoch)
  }

  lemma CommittingFacts(c: Config, s: System, i: nat)
    requires Inv(c, s) && Enabled(c, s, Commit(i)) && s.shards[i].proposed.value.MigrationBlock?
    ensures Committing(c, s, i)
  {
    Facts(c, s, i);
    AllCaptured(c, s, i);
    AllFrozen(c, s);
  }

  lemma AllCaptured(c: Config, s: System, i: nat)
    requires c.Valid() && i < |s.shards| == c.shardNum && GotOk(c, s, i) && |s.shards[i].meta.got| == c.shardNum
    ensures forall j :: 0 <= j < |s.shards| ==> s.shards[j].captured == s.epoch
  {
    FullGot(c, s, i);
    forall j | 0 <= j < |s.shards|
      ensures s.shards[j].captured == s.epoch
    {
      assert Authentic(c, s, j, i, s.shards[i].meta.got[j]);
    }
  }

  lemma AllFrozen(c: Config, s: System)
    requires c.Valid() && AllLocalOk(c, s)
    ensures forall j :: 0 <= j < |s.shards| ==>
      NoEmpty(s.shards[j].accounts) && WordBalances(s.shards[j].accounts) && FrozenOk(c, s, s.shards[j], j)
  {
    forall j | 0 <= j < |s.shards|
      ensures NoEmpty(s.shards[j].accounts) && WordBalances(s.shards[j].accounts) && FrozenOk(c, s, s.shards[j], j)
    {
      assert LocalOk(c, s, s.shards[j], j);
    }
  }

  ghost function Installed(c: Config, s: System, i: nat): Accounts
    requires c.Valid() && Committing(c, s, i)
  {
    Install(s.shards[i].accounts, i, s.shards[i].proposed.value.states)
  }

  /** The accounts after the block: those moved here as their sources hold them, the others as they
      were. Nothing is emptied. */
  lemma InstalledAt(c: Config, s: System, i: nat, a: Address)
    requires c.Valid() && Committing(c, s, i)
    ensures a in s.moved && s.moved[a] == i ==>
      && a in Installed(c, s, i)
      && ReadState(Installed(c, s, i), a, i) == ReadState(s.shards[LocOf(s.before, a, c.shardNum)].accounts, a, i)
    ensures !(a in s.moved && s.moved[a] == i) ==>
      && (a in Installed(c, s, i) <==> a in s.shards[i].accounts)
      && (a in s.shards[i].accounts ==> Installed(c, s, i)[a] == s.shards[i].accounts[a])
    ensures a in Installed(c, s, i) ==> !EmptyAccount(Installed(c, s, i)[a]) && Installed(c, s, i)[a].balance < UINT256
  {
    if a in s.moved {
      HandOverExact(c, s, i, a);
    }
  }

  lemma CommitMigrationKeepsInv(c: Config, s: System, i: nat)
    requires Inv(c, s) && Enabled(c, s, Commit(i)) && s.shards[i].proposed.value.MigrationBlock?
    ensures Inv(c, ApplyCommit(c, s, i))
  {
    var s' := ApplyCommit(c, s, i);
    CommittingFacts(c, s, i);
    Facts(c, s, i);
    CommitLocal(c, s, s', i);
    CommitTraffic(c, s, s', i);
    CommitNetwork(c, s, s', i);
    CommitFields(c, s, s', i);
    CommitBarrier(c, s, s', i);
    OneShardKeepsInv(c, s, s', i);
  }

  lemma NothingCleared(c: Config, s: System, i: nat)
    requires c.Valid() && Committing(c, s, i)
    ensures ClearEmpty(Installed(c, s, i)) == Installed(c, s, i)
    ensures NoEmpty(Installed(c, s, i)) && WordBalances(Installed(c, s, i))
  {
    forall a | a in Installed(c, s, i)
      ensures !EmptyAccount(Installed(c, s, i)[a]) && Installed(c, s, i)[a].balance < UINT256
    {
      InstalledAt(c, s, i, a);
    }
  }

  lemma CommitLocal(c: Config, s: System, s': System, i: nat)
    requires c.Valid() && Committing(c, s, i) && s' == ApplyCommit(c, s, i)
    ensures LocalOk(c, s', s'.shards[i], i)
    ensures s'.shards[i].accounts == Installed(c, s, i)
  {
    NothingCleared(c, s, i);
    CommitLocations(c, s, s', i);
    forall a | a in s.moved && LocOf(s.before, a, c.shardNum) == i
      ensures ReadState(s'.shards[i].accounts, a, i) == ReadState(s.shards[i].accounts, a, i)
    {
      InstalledAt(c, s, i, a);
    }
    CommitFields(c, s, s', i);
  }

  lemma CommitFields(c: Config, s: System, s': System, i: nat)
    requires c.Valid() && Committing(c, s, i) && s' == ApplyCommit(c, s, i)
    ensures EpochsOk(s', s'.shards[i]) && ProposalOk(c, s'.shards[i], i)
    ensures s'.shards[i].snapshot == s.shards[i].snapshot && s'.shards[i].captured == s.shards[i].captured
    ensures s'.shards[i].pool == s.shards[i].pool
  {
  }

  lemma Destinations(meta: Metadata)
    ensures HandOver(meta).Keys == meta.moved.Keys
    ensures forall a :: a in meta.moved ==> HandOver(meta)[a].location == meta.moved[a]
  {
  }

  lemma Relocated(c: Config, s: System, loc: map<Address, int>, states: map<Address, State>)
    requires c.Valid() && ExactMoves(c, s)
    requires forall a :: LocOf(loc, a, c.shardNum) == LocOf(s.before, a, c.shardNum)
    requires states.Keys == s.moved.Keys && forall a :: a in s.moved ==> states[a].location == s.moved[a]
    ensures forall a :: LocOf(Relocate(loc, states), a, c.shardNum) == LocOf(s.partition, a, c.shardNum)
  {
    forall a
      ensures LocOf(Relocate(loc, states), a, c.shardNum) == LocOf(s.partition, a, c.shardNum)
    {
      assert a !in s.moved ==> LocOf(Relocate(loc, states), a, c.shardNum) == LocOf(loc, a, c.shardNum);
    }
  }

  lemma CommitLocations(c: Config, s: System, s': System, i: nat)
    requires c.Valid() && Committing(c, s, i) && s' == ApplyCommit(c, s, i)
    ensures LocationsOk(c, s', s'.shards[i])
  {
    Destinations(s.shards[i].meta);
    Relocated(c, s, s.shards[i].loc, s.shards[i].proposed.value.states);
  }

  lemma CommitTraffic(c: Config, s: System, s': System, i: nat)
    requires c.Valid() && Committing(c, s, i) && s' == ApplyCommit(c, s, i) && BufferedOk(c, s, i)
    ensures OnlyShard(c, s, s', i) && GotOk(c, s', i) && BufferedOk(c, s', i) && SelfOk(s', i)
  {
  }

  lemma CommitNetwork(c: Config, s: System, s': System, i: nat)
    requires c.Valid() && Committing(c, s, i) && s' == ApplyCommit(c, s, i) && OnlyShard(c, s, s', i)
    requires NetworkOk(c, s)
    ensures NetworkOk(c, s')
  {
    CommitSendsNothing(c, s, s', i);
    FullGot(c, s, i);
    SameNetwork(c, s, s', i);
  }

  lemma CommitSendsNothing(c: Config, s: System, s': System, i: nat)
    requires c.Valid() && Committing(c, s, i) && s' == ApplyCommit(c, s, i)
    ensures s'.migrations == s.migrations && s'.starts == s.starts && s'.txs == s.txs
  {
  }

  /** Shard `i` already has every source's states, so no message to it is still travelling. */
  lemma SameNetwork(c: Config, s: System, s': System, i: nat)
    requires c.Valid() && NetworkOk(c, s) && OnlyShard(c, s, s', i)
    requires s'.migrations == s.migrations && s'.starts == s.starts && s'.txs == s.txs
    requires s.shards[i].meta.epoch == s.epoch
    requires forall src: Int64 :: 0 <= src < c.shardNum ==> src in s.shards[i].meta.got
    ensures NetworkOk(c, s')
  {
    forall m | m in s'.migrations
      ensures TravellingOk(c, s', m)
    {
      assert TravellingOk(c, s, m);
      assert m.dest != i;
      AuthenticKept(c, s, s', i, m.src, m.dest, m.states);
    }
    forall t | t in s'.starts
      ensures StartOk(c, s', t)
    {
      assert StartOk(c, s, t);
    }
  }

  lemma CommitBarrier(c: Config, s: System, s': System, i: nat)
    requires i < |s.shards| == |s'.shards| && BarrierOk(s)
    requires forall j :: 0 <= j < |s.shards| && j != i ==> s'.shards[j] == s.shards[j]
    requires s.shards[i].epoch <= s'.shards[i].epoch && s'.shards[i].captured == s.shards[i].captured
    requires forall j :: 0 <= j < |s.shards| ==> s.shards[j].captured == s.epoch
    requires s'.epoch == s.epoch && s'.reported == s.reported && s'.reports == s.reports && s'.synced == s.synced
    ensures BarrierOk(s') && FinishedLast(s')
  {
  }
}
