/** The epoch and account-migration metadata of a shard leader
    (consensus/pbft/migration/migration.go). */
module Migration {
  import opened Types

  datatype StartMsg = StartMsg(epoch: int, moved: map<Address, int>)

  datatype MigrationMsg = MigrationMsg(src: Int64, dest: Int64, epoch: int, states: map<Address, State>)

  /** The metadata as a value: `got` maps a source shard to the states it sent for this epoch,
      `buffer` keeps messages of later epochs. */
  datatype Metadata = Metadata(
    epoch: nat,
    moved: map<Address, int>,
    got: map<Int64, map<Address, State>>,
    ready: bool,
    buffer: map<nat, seq<MigrationMsg>>)
  {
    function Buffered(e: nat): seq<MigrationMsg>
    {
      if e in buffer then buffer[e] else []
    }
  }

  function Fresh(): Metadata
  {
    Metadata(0, map[], map[], false, map[])
  }

  predicate Addressed(m: MigrationMsg, self: int, shardNum: int)
  {
    m.dest == self && 0 <= m.src < shardNum
  }

  function Collect(a: Metadata, self: int, shardNum: int, m: MigrationMsg): Metadata
  {
    if !Addressed(m, self, shardNum) || m.epoch < a.epoch then a
    else if m.epoch > a.epoch then a.(buffer := a.buffer[m.epoch := a.Buffered(m.epoch) + [m]])
    else a.(got := a.got[m.src := m.states])
  }

  function CollectAll(a: Metadata, self: int, shardNum: int, ms: seq<MigrationMsg>): Metadata
  {
    if ms == [] then a
    else Collect(CollectAll(a, self, shardNum, ms[..|ms| - 1]), self, shardNum, ms[|ms| - 1])
  }

  function Start(a: Metadata, self: int, shardNum: int, s: StartMsg): Metadata
  {
    if s.epoch != a.epoch + 1 then a else
    var begun := a.(epoch := s.epoch, moved := s.moved, ready := true);
    var collected := CollectAll(begun, self, shardNum, begun.Buffered(s.epoch));
    collected.(buffer := collected.buffer[s.epoch := []])
  }

  function Reset(a: Metadata): Metadata
  {
    a.(got := map[], moved := map[], ready := false, buffer := a.buffer[a.epoch := []])
  }

  /** The state some source sent for the account. */
  ghost function Incoming(got: map<Int64, map<Address, State>>, acc: Address): Option<State>
  {
    if exists src :: src in got && acc in got[src]
    then var src :| src in got && acc in got[src]; Some(got[src][acc])
    else None
  }

  ghost predicate DisjointSources(got: map<Int64, map<Address, State>>)
  {
    forall s, t :: s in got && t in got && s != t ==> got[s].Keys !! got[t].Keys
  }

  /** The states a migration block installs: for every moved account what its source sent, or the
      default state, relocated to its destination. */
  ghost function HandOver(a: Metadata): map<Address, State>
  {
    map acc | acc in a.moved :: HandOverState(a, acc)
  }

  ghost function HandOverState(a: Metadata, acc: Address): State
    requires acc in a.moved
  {
    match Incoming(a.got, acc)
    case None => NewState(a.moved[acc])
    case Some(st) => st.(location := a.moved[acc])
  }

  // ---------------------------------------------------------------------------------------------
  // The metadata object
  // ---------------------------------------------------------------------------------------------

  class AccMigrateMetadata {
    var epoch: nat
    var curModifiedMap: map<Address, int>
    var migratedAccountStates: map<Int64, map<Address, State>>
    var migrationReady: bool
    var unhandledStateMsg: map<nat, seq<MigrationMsg>>
    const self: int
    const shardNum: int

    constructor (self: int, shardNum: int)
      ensures this.self == self && this.shardNum == shardNum
      ensures Value() == Fresh()
    {
      this.self := self;
      this.shardNum := shardNum;
      epoch := 0;
      curModifiedMap := map[];
      migratedAccountStates := map[];
      migrationReady := false;
      unhandledStateMsg := map[];
    }

    function Value(): Metadata
      reads this
    {
      Metadata(epoch, curModifiedMap, migratedAccountStates, migrationReady, unhandledStateMsg)
    }

    method MigrationStatusReset()
      modifies this
      ensures Value() == Reset(old(Value()))
    {
      migratedAccountStates := map[];
      curModifiedMap := map[];
      migrationReady := false;
      unhandledStateMsg := unhandledStateMsg[epoch := []];
    }

    method UpdateByRepartitionStartMsg(cr: StartMsg) returns (ok: bool)
      modifies this
      ensures ok == (cr.epoch == old(epoch) + 1)
      ensures Value() == Start(old(Value()), self, shardNum, cr)
    {
      if cr.epoch != epoch + 1 {
        return false;
      }
      epoch := cr.epoch;
      curModifiedMap := cr.moved;
      migrationReady := true;
      var pending := if epoch in unhandledStateMsg then unhandledStateMsg[epoch] else [];
      ghost var begun := Value();
      for i := 0 to |pending|
        invariant epoch == cr.epoch
        invariant Value() == CollectAll(begun, self, shardNum, pending[..i])
      {
        assert pending[..i + 1][..i] == pending[..i];
        var _ := CollectStatesByMsg(pending[i]);
      }
      assert pending[..|pending|] == pending;
      unhandledStateMsg := unhandledStateMsg[epoch := []];
      return true;
    }

    method CollectStatesByMsg(m: MigrationMsg) returns (ok: bool)
      modifies this
      ensures ok == (Addressed(m, self, shardNum) && m.epoch >= old(epoch))
      ensures Value() == Collect(old(Value()), self, shardNum, m)
      ensures epoch == old(epoch)
    {
      if m.dest != self {
        return false;
      }
      if m.src >= shardNum || m.src < 0 {
        return false;
      }
      if m.epoch < epoch {
        return false;
      }
      if m.epoch > epoch {
        var waiting := if m.epoch in unhandledStateMsg then unhandledStateMsg[m.epoch] else [];
        unhandledStateMsg := unhandledStateMsg[m.epoch := waiting + [m]];
        return true;
      }
      migratedAccountStates := migratedAccountStates[m.src := m.states];
      return true;
    }

    /** Merges the per-source maps in whatever order the iteration takes, then reads off one state per
        moved account. The order shows only where two sources sent the same account. */
    method GetMigratedAddrStates() returns (ok: bool, addrs: seq<Address>, states: seq<State>)
      ensures ok == (|migratedAccountStates| == shardNum)
      ensures ok ==> |addrs| == |states| == |curModifiedMap|
      ensures ok ==> forall i, j :: 0 <= i < j < |addrs| ==> addrs[i] != addrs[j]
      ensures ok ==> forall a :: a in addrs <==> a in curModifiedMap
      ensures ok ==> forall i :: 0 <= i < |addrs| ==> states[i].location == curModifiedMap[addrs[i]]
      ensures ok && DisjointSources(migratedAccountStates) ==>
        forall i :: 0 <= i < |addrs| ==> states[i] == HandOver(Value())[addrs[i]]
    {
      addrs, states := [], [];
      if |migratedAccountStates| != shardNum {
        return false, addrs, states;
      }
      var merged := MergeStates(migratedAccountStates);
      var todo := curModifiedMap.Keys;
      while todo != {}
        invariant todo <= curModifiedMap.Keys
        invariant |addrs| == |states| == |curModifiedMap| - |todo|
        invariant forall a :: a in addrs <==> a in curModifiedMap && a !in todo
        invariant forall i, j :: 0 <= i < j < |addrs| ==> addrs[i] != addrs[j]
        invariant forall i :: 0 <= i < |addrs| ==> states[i].location == curModifiedMap[addrs[i]]
        invariant DisjointSources(migratedAccountStates) ==>
          forall i :: 0 <= i < |addrs| ==> states[i] == HandOverState(Value(), addrs[i])
      {
        var acc := AnyOf(todo);
        todo := todo - {acc};
        var dest := curModifiedMap[acc];
        var state := if acc in merged then merged[acc].(location := dest) else NewState(dest);
        addrs, states := addrs + [acc], states + [state];
      }
      return true, addrs, states;
    }
  }

  method MergeStates(got: map<Int64, map<Address, State>>) returns (merged: map<Address, State>)
    ensures MergedFrom(merged, got, got.Keys)
  {
    merged := map[];
    var sources, done: set<Int64> := got.Keys, {};
    while sources != {}
      invariant sources + done == got.Keys
      invariant MergedFrom(merged, got, done)
      decreases |sources|
    {
      var src := AnyOf(sources);
      ExtendMerge(merged, got, done, src);
      merged, sources, done := merged + got[src], sources - {src}, done + {src};
    }
    assert done == got.Keys;
  }

  lemma ExtendMerge(merged: map<Address, State>, got: map<Int64, map<Address, State>>, done: set<Int64>, src: Int64)
    requires MergedFrom(merged, got, done) && src in got
    ensures MergedFrom(merged + got[src], got, done + {src})
  {
    var after := merged + got[src];
    forall acc | acc in after
      ensures exists t :: t in done + {src} && acc in got[t] && got[t][acc] == after[acc]
    {
      if acc in got[src] {
        assert src in done + {src};
      } else {
        var t :| t in done && acc in got[t] && got[t][acc] == merged[acc];
        assert t in done + {src};
      }
    }
  }

  /** The merged map holds exactly the accounts of the sources merged so far, with a state one of
      them sent. */
  ghost predicate MergedFrom(merged: map<Address, State>, got: map<Int64, map<Address, State>>, srcs: set<Int64>)
  {
    && srcs <= got.Keys
    && (forall acc :: acc in merged ==> exists src :: src in srcs && acc in got[src] && got[src][acc] == merged[acc])
    && (forall src, acc :: src in srcs && acc in got[src] ==> acc in merged)
  }

  // ---------------------------------------------------------------------------------------------
  // Buffering
  // ---------------------------------------------------------------------------------------------

  /** Buffered lists are non-empty only for epochs above the current one and hold only messages of
      their own epoch. */
  ghost predicate BufferOk(a: Metadata, self: int, shardNum: int)
  {
    forall e :: e in a.buffer && a.buffer[e] != [] ==>
      && e > a.epoch
      && forall i :: 0 <= i < |a.buffer[e]| ==> Addressed(a.buffer[e][i], self, shardNum) && a.buffer[e][i].epoch == e
  }

  /** Collecting messages of the current epoch only ever adds their states. */
  lemma {:induction false} CollectCurrent(a: Metadata, self: int, shardNum: int, ms: seq<MigrationMsg>)
    requires forall i :: 0 <= i < |ms| ==> Addressed(ms[i], self, shardNum) && ms[i].epoch == a.epoch
    ensures CollectAll(a, self, shardNum, ms) == a.(got := Add(a.got, ms))
  {
    if ms != [] {
      CollectCurrent(a, self, shardNum, ms[..|ms| - 1]);
    }
  }

  /** The received states after the messages `ms`. */
  function Add(got: map<Int64, map<Address, State>>, ms: seq<MigrationMsg>): map<Int64, map<Address, State>>
  {
    if ms == [] then got else Add(got, ms[..|ms| - 1])[ms[|ms| - 1].src := ms[|ms| - 1].states]
  }

  /** Every operation of the metadata keeps the buffer in order, and a start message hands the
      buffered messages of its epoch over and leaves none behind. */
  lemma BufferKept(a: Metadata, self: int, shardNum: int, m: MigrationMsg, s: StartMsg)
    requires BufferOk(a, self, shardNum)
    ensures BufferOk(Collect(a, self, shardNum, m), self, shardNum)
    ensures BufferOk(Reset(a), self, shardNum)
    ensures BufferOk(Start(a, self, shardNum, s), self, shardNum)
    ensures s.epoch == a.epoch + 1 ==>
      Start(a, self, shardNum, s)
        == Metadata(s.epoch, s.moved, Add(a.got, a.Buffered(s.epoch)), true, a.buffer[s.epoch := []])
  {
    if s.epoch == a.epoch + 1 {
      CollectCurrent(a.(epoch := s.epoch, moved := s.moved, ready := true), self, shardNum, a.Buffered(s.epoch));
    }
  }

  /** An account no source sent is handed over untouched: with the initial balance, at its destination. */
  lemma NotSentIsUntouched(a: Metadata, acc: Address)
    requires acc in a.moved && forall src :: src in a.got ==> acc !in a.got[src]
    ensures HandOver(a)[acc] == State(INIT_BALANCE, 0, a.moved[acc])
  {
  }

  /** A reset leaves nothing of the epoch: no states, no moves, no waiting message; what waits for other
      epochs stays. */
  lemma ResetForgets(a: Metadata, e: nat)
    ensures var r := Reset(a);
      && r.epoch == a.epoch && r.got == map[] && r.moved == map[] && !r.ready
      && r.Buffered(e) == if e == a.epoch then [] else a.Buffered(e)
  {
  }

  // ---------------------------------------------------------------------------------------------
  // Start and migration messages commute
  // ---------------------------------------------------------------------------------------------

  datatype Event = Started(start: StartMsg) | Received(msg: MigrationMsg)

  function Deliver(a: Metadata, self: int, shardNum: int, evs: seq<Event>): Metadata
  {
    if evs == [] then a else
    var before := Deliver(a, self, shardNum, evs[..|evs| - 1]);
    match evs[|evs| - 1]
    case Started(s) => Start(before, self, shardNum, s)
    case Received(m) => Collect(before, self, shardNum, m)
  }

  function Messages(evs: seq<Event>): seq<MigrationMsg>
  {
    if evs == [] then [] else
    match evs[|evs| - 1]
    case Started(_) => Messages(evs[..|evs| - 1])
    case Received(m) => Messages(evs[..|evs| - 1]) + [m]
  }

  function Starts(evs: seq<Event>): nat
  {
    if evs == [] then 0 else Starts(evs[..|evs| - 1]) + if evs[|evs| - 1].Started? then 1 else 0
  }

  /** One epoch's traffic at one leader: at most one start, and migration messages of that epoch. */
  ghost predicate EpochTraffic(evs: seq<Event>, s: StartMsg, self: int, shardNum: int)
  {
    && Starts(evs) <= 1
    && forall i :: 0 <= i < |evs| ==>
      match evs[i]
      case Started(s') => s' == s
      case Received(m) => Addressed(m, self, shardNum) && m.epoch == s.epoch
  }

  /** Before the start, what has arrived waits in the buffer; nothing else has changed. */
  ghost predicate Waiting(a: Metadata, d: Metadata, e: nat, ms: seq<MigrationMsg>)
  {
    && d.epoch == a.epoch && d.moved == a.moved && d.got == a.got && d.ready == a.ready
    && d.Buffered(e) == ms
    && forall e' :: e' != e ==> d.Buffered(e') == a.Buffered(e')
  }

  /** After the start, what has arrived is in the received states and nothing waits. */
  ghost predicate Collecting(a: Metadata, d: Metadata, s: StartMsg, ms: seq<MigrationMsg>)
  {
    && d.epoch == s.epoch && d.moved == s.moved && d.got == Add(a.got, ms) && d.ready
    && d.Buffered(s.epoch) == []
    && forall e' :: e' != s.epoch ==> d.Buffered(e') == a.Buffered(e')
  }

  lemma StartCollects(a: Metadata, d: Metadata, self: int, shardNum: int, s: StartMsg, ms: seq<MigrationMsg>)
    requires s.epoch == a.epoch + 1 && Waiting(a, d, s.epoch, ms)
    requires forall i :: 0 <= i < |ms| ==> Addressed(ms[i], self, shardNum) && ms[i].epoch == s.epoch
    ensures Collecting(a, Start(d, self, shardNum, s), s, ms)
  {
    CollectCurrent(d.(epoch := s.epoch, moved := s.moved, ready := true), self, shardNum, d.Buffered(s.epoch));
  }

  lemma {:induction false} MessagesOf(evs: seq<Event>, s: StartMsg, self: int, shardNum: int)
    requires EpochTraffic(evs, s, self, shardNum)
    ensures forall i :: 0 <= i < |Messages(evs)| ==>
      Addressed(Messages(evs)[i], self, shardNum) && Messages(evs)[i].epoch == s.epoch
  {
    if evs != [] {
      assert forall i :: 0 <= i < |evs| - 1 ==> evs[..|evs| - 1][i] == evs[i];
      MessagesOf(evs[..|evs| - 1], s, self, shardNum);
    }
  }

  lemma {:induction false} DeliveredSoFar(a: Metadata, self: int, shardNum: int, s: StartMsg, evs: seq<Event>)
    requires s.epoch == a.epoch + 1 && a.Buffered(s.epoch) == []
    requires EpochTraffic(evs, s, self, shardNum)
    ensures Starts(evs) == 0 ==> Waiting(a, Deliver(a, self, shardNum, evs), s.epoch, Messages(evs))
    ensures Starts(evs) == 1 ==> Collecting(a, Deliver(a, self, shardNum, evs), s, Messages(evs))
  {
    if evs != [] {
      var front := evs[..|evs| - 1];
      assert forall i :: 0 <= i < |front| ==> front[i] == evs[i];
      DeliveredSoFar(a, self, shardNum, s, front);
      MessagesOf(front, s, self, shardNum);
      if evs[|evs| - 1].Started? {
        StartCollects(a, Deliver(a, self, shardNum, front), self, shardNum, s, Messages(front));
      }
    }
  }

  lemma {:induction false} AddDistinct(ms: seq<MigrationMsg>)
    requires DistinctSources(ms)
    ensures forall i :: 0 <= i < |ms| ==> ms[i].src in Add(map[], ms) && Add(map[], ms)[ms[i].src] == ms[i].states
    ensures forall src :: src in Add(map[], ms) ==> exists i :: 0 <= i < |ms| && ms[i].src == src
  {
    if ms != [] {
      AddDistinct(ms[..|ms| - 1]);
    }
  }

  /** One message per source. */
  ghost predicate DistinctSources(ms: seq<MigrationMsg>)
  {
    forall i, j :: 0 <= i < j < |ms| ==> ms[i].src != ms[j].src
  }

  /** Any two interleavings of one start with the same messages, one per source, leave the leader
      with the same metadata: same epoch, same moved accounts, same states received, and with no
      message of the epoch still waiting. */
  lemma InterleavingsAgree(a: Metadata, self: int, shardNum: int, s: StartMsg, evs: seq<Event>, evs': seq<Event>)
    requires s.epoch == a.epoch + 1 && a.Buffered(s.epoch) == [] && a.got == map[]
    requires EpochTraffic(evs, s, self, shardNum) && EpochTraffic(evs', s, self, shardNum)
    requires Starts(evs) == Starts(evs') == 1
    requires multiset(Messages(evs)) == multiset(Messages(evs'))
    requires DistinctSources(Messages(evs)) && DistinctSources(Messages(evs'))
    ensures SameMetadata(Deliver(a, self, shardNum, evs), Deliver(a, self, shardNum, evs'))
    ensures Deliver(a, self, shardNum, evs).Buffered(s.epoch) == []
  {
    DeliveredSoFar(a, self, shardNum, s, evs);
    DeliveredSoFar(a, self, shardNum, s, evs');
    SameAdded(Messages(evs), Messages(evs'));
    CollectingAgree(a, Deliver(a, self, shardNum, evs), Deliver(a, self, shardNum, evs'), s, Messages(evs),
      Messages(evs'));
  }

  /** Equal up to absent and empty buffer entries, which no operation can tell apart. */
  ghost predicate SameMetadata(d: Metadata, d': Metadata)
  {
    && d.(buffer := map[]) == d'.(buffer := map[])
    && forall e :: d.Buffered(e) == d'.Buffered(e)
  }

  lemma CollectingAgree(a: Metadata, d: Metadata, d': Metadata, s: StartMsg, ms: seq<MigrationMsg>,
      ms': seq<MigrationMsg>)
    requires Collecting(a, d, s, ms) && Collecting(a, d', s, ms')
    requires a.got == map[] && Add(map[], ms) == Add(map[], ms')
    ensures SameMetadata(d, d')
  {
    forall e
      ensures d.Buffered(e) == d'.Buffered(e)
    {
      if e != s.epoch {
        assert d.Buffered(e) == a.Buffered(e);
      }
    }
  }

  lemma SameAdded(ms: seq<MigrationMsg>, ms': seq<MigrationMsg>)
    requires multiset(ms) == multiset(ms')
    requires DistinctSources(ms) && DistinctSources(ms')
    ensures Add(map[], ms) == Add(map[], ms')
  {
    AddedWithin(ms, ms');
    AddedWithin(ms', ms);
    SameEntries(ms, ms');
  }

  lemma SameEntries(ms: seq<MigrationMsg>, ms': seq<MigrationMsg>)
    requires forall src :: src in Add(map[], ms) ==>
      src in Add(map[], ms') && Add(map[], ms')[src] == Add(map[], ms)[src]
    requires forall src :: src in Add(map[], ms') ==>
      src in Add(map[], ms) && Add(map[], ms)[src] == Add(map[], ms')[src]
    ensures Add(map[], ms) == Add(map[], ms')
  {
  }

  lemma AddedWithin(ms: seq<MigrationMsg>, ms': seq<MigrationMsg>)
    requires multiset(ms) == multiset(ms')
    requires DistinctSources(ms) && DistinctSources(ms')
    ensures forall src :: src in Add(map[], ms) ==>
      src in Add(map[], ms') && Add(map[], ms')[src] == Add(map[], ms)[src]
  {
    AddDistinct(ms);
    AddDistinct(ms');
    forall src | src in Add(map[], ms)
      ensures src in Add(map[], ms') && Add(map[], ms')[src] == Add(map[], ms)[src]
    {
      var i :| 0 <= i < |ms| && ms[i].src == src;
      assert ms[i] in multiset(ms');
      assert ms[i] in ms';
    }
  }

  /** The check on the epoch does not tell a message of the epoch just finished from one of an epoch
      still running: a second copy that arrives after the reset is kept and is still there when the
      next epoch starts. Hence the hypothesis of no duplication in `ShardSystem`. */
  lemma LateDuplicateLeaks(a: Metadata, self: int, shardNum: int, m: MigrationMsg, s: StartMsg)
    requires BufferOk(a, self, shardNum)
    requires Addressed(m, self, shardNum) && m.epoch <= a.epoch
    requires s.epoch == a.epoch + 1 && a.Buffered(s.epoch) == []
    ensures m.src in Start(Collect(Reset(a), self, shardNum, m), self, shardNum, s).got <==> m.epoch == a.epoch
  {
    BufferKept(a, self, shardNum, m, s);
    BufferKept(Reset(a), self, shardNum, m, s);
    BufferKept(Collect(Reset(a), self, shardNum, m), self, shardNum, m, s);
  }
}
