/** A shard's chain (pkg/chain/chain.go, pkg/chain/stateio.go): blocks are generated by previewing their
    effect and added by executing them again. Hashes and state roots are the things they are taken of,
    which makes both injective. */
module Chains {
  import opened Types
  import opened Execution

  datatype Hash = NoParent | HeaderHash(header: Header)

  /** `tag` stands for miner, type and creation time; the bloom filter is not part of this model. */
  datatype Header = Header(
    parent: Hash,
    number: nat,
    stateRoot: Accounts,
    locationRoot: map<Address, int>,
    txRoot: seq<Transaction>,
    migratedRoot: seq<Migrated>,
    tag: nat)

  datatype Migrated = Migrated(addr: Address, state: State)

  datatype Block = Block(header: Header, txs: seq<Transaction>, migrated: seq<Migrated>)

  /** `states` holds the state roots that an executor can open. */
  datatype ChainState = ChainState(
    blocks: map<Hash, Block>,
    states: set<Accounts>,
    locations: map<Address, int>,
    header: Header)

  /** Before the genesis block: a header that is not stored, over the empty state. */
  function Empty(): ChainState
  {
    ChainState(map[], {map[]}, map[], Header(NoParent, 0, map[], map[], [], [], 0))
  }

  // ---------------------------------------------------------------------------------------------
  // The effect of a block
  // ---------------------------------------------------------------------------------------------

  /** Writes the migrated states meant for this shard; a balance that is no 256-bit word is an error. */
  function InstallAll(m: Accounts, self: int, ms: seq<Migrated>): Option<Accounts>
  {
    if ms == [] then Some(m) else
    var last := ms[|ms| - 1];
    match InstallAll(m, self, ms[..|ms| - 1])
    case None => None
    case Some(m1) =>
      if last.state.location != self then Some(m1)
      else if !FitsWord(last.state.balance) then None
      else Some(m1[last.addr := Account(last.state.balance, last.state.nonce)])
  }

  function RelocateAll(loc: map<Address, int>, ms: seq<Migrated>): map<Address, int>
  {
    if ms == [] then loc else RelocateAll(loc, ms[..|ms| - 1])[ms[|ms| - 1].addr := ms[|ms| - 1].state.location]
  }

  /** The accounts after the transactions and the migrated states, empty accounts deleted. */
  function Outcome(c: ChainState, self: int, shardNum: int, txs: seq<Transaction>, ms: seq<Migrated>): Option<Accounts>
    requires shardNum > 0
  {
    if c.header.stateRoot !in c.states then None else
    match ExecTxs(c.header.stateRoot, c.locations, shardNum, self, txs)
    case None => None
    case Some(m) =>
      (match InstallAll(m, self, ms)
       case None => None
       case Some(m') => Some(ClearEmpty(m')))
  }

  function Generated(c: ChainState, self: int, shardNum: int, txs: seq<Transaction>, ms: seq<Migrated>,
      tag: nat): Option<Block>
    requires shardNum > 0
  {
    match Outcome(c, self, shardNum, txs, ms)
    case None => None
    case Some(m) => Some(Block(Header(HeaderHash(c.header), c.header.number + 1, m, RelocateAll(c.locations, ms), txs,
      ms, tag), txs, ms))
  }

  /** Nothing in the block's header is compared with what executing it yields. */
  function Added(c: ChainState, self: int, shardNum: int, b: Block): Option<ChainState>
    requires shardNum > 0
  {
    match Outcome(c, self, shardNum, b.txs, b.migrated)
    case None => None
    case Some(m) =>
      Some(ChainState(c.blocks[HeaderHash(b.header) := b], c.states + {m}, RelocateAll(c.locations, b.migrated),
        b.header))
  }

  // ---------------------------------------------------------------------------------------------
  // Preview and commit
  // ---------------------------------------------------------------------------------------------

  /** The next executor can open the header's state root, and the header names the locations in force. */
  ghost predicate InStep(c: ChainState)
  {
    c.header.stateRoot in c.states && c.header.locationRoot == c.locations
  }

  /** A block generated on one replica is accepted by every replica with the same header and
      locations that can open its state, and leaves it in step: the roots previewed are the roots
      committed. */
  lemma GeneratedIsAccepted(c: ChainState, d: ChainState, self: int, shardNum: int, txs: seq<Transaction>,
      ms: seq<Migrated>, tag: nat)
    requires shardNum > 0 && Generated(c, self, shardNum, txs, ms, tag).Some?
    requires d.header == c.header && d.locations == c.locations && d.header.stateRoot in d.states
    ensures var b := Generated(c, self, shardNum, txs, ms, tag).value;
      && Added(d, self, shardNum, b).Some?
      && InStep(Added(d, self, shardNum, b).value)
      && Added(d, self, shardNum, b).value.states == d.states + {b.header.stateRoot}
  {
  }

  /** The hash of a generated block fixes the block: its transactions, its migrated states, the state and
      the locations it leads to, its height and its parent. */
  lemma HashFixesBlock(c: ChainState, txs: seq<Transaction>, ms: seq<Migrated>, tag: nat, d: ChainState,
      txs': seq<Transaction>, ms': seq<Migrated>, tag': nat, self: int, shardNum: int)
    requires shardNum > 0
    requires Generated(c, self, shardNum, txs, ms, tag).Some? && Generated(d, self, shardNum, txs', ms', tag').Some?
    ensures var b, b' := Generated(c, self, shardNum, txs, ms, tag).value,
      Generated(d, self, shardNum, txs', ms', tag').value;
      && b.txs == txs && b.migrated == ms && Extends(c.header, b)
      && (HeaderHash(b.header) == HeaderHash(b'.header) ==> b == b' && txs == txs' && ms == ms' && c.header == d.header)
  {
  }

  // ---------------------------------------------------------------------------------------------
  // Walking the parents
  // ---------------------------------------------------------------------------------------------

  /** `history` is the blocks added, oldest first: numbered from 1, each naming its predecessor, and
      all of them in storage. */
  ghost predicate Linked(c: ChainState, history: seq<Block>)
  {
    && history != [] && c.header == history[|history| - 1].header
    && (forall k :: 0 <= k < |history| ==> StoredAt(c, history, k))
    && (forall k :: 0 < k < |history| ==> ParentIs(history, k))
  }

  ghost predicate StoredAt(c: ChainState, history: seq<Block>, k: nat)
    requires k < |history|
  {
    history[k].header.number == k + 1 && HeaderHash(history[k].header) in c.blocks
      && c.blocks[HeaderHash(history[k].header)] == history[k]
  }

  ghost predicate ParentIs(history: seq<Block>, k: int)
    requires 0 < k < |history|
  {
    history[k].header.parent == HeaderHash(history[k - 1].header)
  }

  predicate Extends(h: Header, b: Block)
  {
    b.header.number == h.number + 1 && b.header.parent == HeaderHash(h)
  }

  /** Adding a block keeps the chain linked exactly when the block extends the current header. */
  lemma LinkedExactlyWhen(c: ChainState, history: seq<Block>, self: int, shardNum: int, b: Block)
    requires shardNum > 0 && Linked(c, history) && Added(c, self, shardNum, b).Some?
    ensures Linked(Added(c, self, shardNum, b).value, history + [b]) <==> Extends(c.header, b)
  {
    var c', h' := Added(c, self, shardNum, b).value, history + [b];
    var n := |history|;
    assert StoredAt(c, history, n - 1);
    if Extends(c.header, b) {
      forall k | 0 <= k < |h'|
        ensures StoredAt(c', h', k)
      {
        assert k < n ==> StoredAt(c, history, k);
      }
      forall k | 0 < k < |h'|
        ensures ParentIs(h', k)
      {
        assert k < n ==> ParentIs(history, k);
      }
    } else {
      assert !(StoredAt(c', h', n) && ParentIs(h', n));
    }
  }

  /** Follows `count` parents from `hash`; the blocks come out oldest first. */
  function Walk(blocks: map<Hash, Block>, hash: Hash, count: nat): Option<seq<Block>>
    decreases count
  {
    if count == 0 then Some([])
    else if hash !in blocks then None
    else match Walk(blocks, blocks[hash].header.parent, count - 1)
         case None => None
         case Some(older) => Some(older + [blocks[hash]])
  }

  function BlocksAfterHeight(c: ChainState, begin: int): Option<seq<Block>>
  {
    var count := c.header.number - begin + 1;
    if begin <= 0 || count > BLOCKS_FETCH_LIMIT then None
    else Walk(c.blocks, HeaderHash(c.header), if count < 0 then 0 else count)
  }

  lemma {:induction false} WalkIsTail(c: ChainState, history: seq<Block>, upTo: nat, count: nat)
    requires Linked(c, history) && 0 < upTo <= |history| && count <= upTo
    ensures Walk(c.blocks, HeaderHash(history[upTo - 1].header), count) == Some(history[upTo - count..upTo])
  {
    if count > 0 {
      var newest := history[upTo - 1];
      assert StoredAt(c, history, upTo - 1);
      if count == 1 {
        assert Walk(c.blocks, newest.header.parent, 0) == Some([]);
      } else {
        assert ParentIs(history, upTo - 1);
        WalkIsTail(c, history, upTo - 1, count - 1);
      }
      assert history[upTo - count..upTo] == history[upTo - count..upTo - 1] + [newest];
    }
  }

  /** On a linked chain the answer to a request from height `begin` is exactly the blocks with heights
      from `begin` to the current one, in order; refused for a non-positive height or too many blocks. */
  lemma BlocksAreTail(c: ChainState, history: seq<Block>, begin: int)
    requires Linked(c, history)
    ensures BlocksAfterHeight(c, begin) ==
      if begin <= 0 || |history| - begin + 1 > BLOCKS_FETCH_LIMIT then None
      else Some(if begin <= |history| then history[begin - 1..] else [])
  {
    assert StoredAt(c, history, |history| - 1);
    var count := |history| - begin + 1;
    if 0 < count <= |history| {
      WalkIsTail(c, history, |history|, count);
      assert history[begin - 1..] == history[|history| - count..|history|];
    }
  }

  // ---------------------------------------------------------------------------------------------
  // Growing a chain
  // ---------------------------------------------------------------------------------------------

  datatype Offer = Offer(txs: seq<Transaction>, migrated: seq<Migrated>, tag: nat)

  /** Generates and adds one block after another, the genesis block first; what does not execute is
      skipped. */
  function Grown(self: int, shardNum: int, offers: seq<Offer>): (ChainState, seq<Block>)
    requires shardNum > 0
  {
    if offers == [] then AddTo(Empty(), [], self, shardNum, Offer([], [], 0))
    else var (c, h) := Grown(self, shardNum, offers[..|offers| - 1]); AddTo(c, h, self, shardNum, offers[|offers| - 1])
  }

  function AddTo(c: ChainState, h: seq<Block>, self: int, shardNum: int, o: Offer): (ChainState, seq<Block>)
    requires shardNum > 0
  {
    match Generated(c, self, shardNum, o.txs, o.migrated, o.tag)
    case None => (c, h)
    case Some(b) =>
      (match Added(c, self, shardNum, b)
       case None => (c, h)
       case Some(c') => (c', h + [b]))
  }

  /** Every chain grown from genesis by generating and adding is linked and in step. */
  lemma {:induction false} GrownIsSound(self: int, shardNum: int, offers: seq<Offer>)
    requires shardNum > 0
    ensures var (c, h) := Grown(self, shardNum, offers); Linked(c, h) && InStep(c)
  {
    if offers == [] {
      var (c, h) := Grown(self, shardNum, []);
      assert ExecTxs(map[], map[], shardNum, self, []) == Some(map[]) && InstallAll(map[], self, []) == Some(map[]);
      assert StoredAt(c, h, 0);
    } else {
      GrownIsSound(self, shardNum, offers[..|offers| - 1]);
      var (c, h) := Grown(self, shardNum, offers[..|offers| - 1]);
      OfferKeepsSound(c, h, self, shardNum, offers[|offers| - 1]);
    }
  }

  lemma OfferKeepsSound(c: ChainState, h: seq<Block>, self: int, shardNum: int, o: Offer)
    requires shardNum > 0 && Linked(c, h) && InStep(c)
    ensures var (c', h') := AddTo(c, h, self, shardNum, o); Linked(c', h') && InStep(c')
  {
    var b := Generated(c, self, shardNum, o.txs, o.migrated, o.tag);
    if b.Some? {
      GeneratedIsAccepted(c, c, self, shardNum, o.txs, o.migrated, o.tag);
      LinkedExactlyWhen(c, h, self, shardNum, b.value);
    }
  }

  // ---------------------------------------------------------------------------------------------
  // The imperative chain
  // ---------------------------------------------------------------------------------------------

  class Chain {
    const shardID: int
    const shardNum: int
    var blocks: map<Hash, Block>
    var states: set<Accounts>
    var locations: map<Address, int>
    var curHeader: Header
    var epochID: int

    ghost function Value(): ChainState
      reads this
    {
      ChainState(blocks, states, locations, curHeader)
    }

    constructor (shardID: int, shardNum: int)
      requires shardNum > 0
      ensures this.shardID == shardID && this.shardNum == shardNum
      ensures Value() == Grown(shardID, shardNum, []).0
    {
      this.shardID := shardID;
      this.shardNum := shardNum;
      blocks := map[];
      states := {map[]};
      locations := map[];
      curHeader := Header(NoParent, 0, map[], map[], [], [], 0);
      epochID := 0;
      new;
      var b := GenerateBlock([], [], 0);
      if b.Some? {
        var _ := AddBlock(b.value);
      }
    }

    /** The executor on the header's state root, if that can be opened. */
    method GetVMExecutor() returns (opened': bool, v: StateDB)
      ensures fresh(v)
      ensures opened' == (curHeader.stateRoot in states)
      ensures v.accounts == curHeader.stateRoot
    {
      v := new StateDB(curHeader.stateRoot);
      opened' := curHeader.stateRoot in states;
    }

    /** Runs the block on the executor and collects the location entries to write. */
    method CalcStateModification(v: StateDB, txs: seq<Transaction>, ms: seq<Migrated>)
      returns (ok: bool, entries: seq<(Address, int)>)
      requires shardNum > 0
      modifies v
      ensures ok == (ExecTxs(old(v.accounts), locations, shardNum, shardID, txs).Some?
                     && InstallAll(ExecTxs(old(v.accounts), locations, shardNum, shardID, txs).value, shardID,
                       ms).Some?)
      ensures ok ==>
        Some(v.accounts) == InstallAll(ExecTxs(old(v.accounts), locations, shardNum, shardID, txs).value, shardID, ms)
      ensures ok ==> Entered(locations, entries) == RelocateAll(locations, ms)
    {
      entries := [];
      ok := ExecuteTxs(v, locations, shardNum, shardID, txs);
      if !ok {
        return;
      }
      ghost var executed := v.accounts;
      for i := 0 to |ms|
        invariant InstallAll(executed, shardID, ms[..i]) == Some(v.accounts)
        invariant Entered(locations, entries) == RelocateAll(locations, ms[..i])
      {
        assert ms[..i + 1][..i] == ms[..i];
        var state := ms[i].state;
        if state.location == shardID {
          if !FitsWord(state.balance) {
            InstallFails(executed, shardID, ms, i + 1);
            return false, entries;
          }
          ghost var before := v.accounts;
          v.SetBalance(ms[i].addr, state.balance);
          v.SetNonce(ms[i].addr, state.nonce);
          assert v.accounts == before[ms[i].addr := Account(state.balance, state.nonce)];
        }
        assert (entries + [(ms[i].addr, state.location)])[..|entries|] == entries;
        entries := entries + [(ms[i].addr, state.location)];
      }
      assert ms[..|ms|] == ms;
    }

    method GenerateBlock(txs: seq<Transaction>, ms: seq<Migrated>, tag: nat) returns (b: Option<Block>)
      requires shardNum > 0
      ensures b == Generated(Value(), shardID, shardNum, txs, ms, tag)
    {
      var opened', v := GetVMExecutor();
      if !opened' {
        return None;
      }
      var ok, entries := CalcStateModification(v, txs, ms);
      if !ok {
        return None;
      }
      var locationRoot := Enter(locations, entries);
      return Some(Block(Header(HeaderHash(curHeader), curHeader.number + 1, ClearEmpty(v.accounts), locationRoot, txs,
        ms, tag), txs, ms));
    }

    method AddBlock(b: Block) returns (ok: bool)
      requires shardNum > 0
      modifies this
      ensures ok == Added(old(Value()), shardID, shardNum, b).Some?
      ensures Value() == if ok then Added(old(Value()), shardID, shardNum, b).value else old(Value())
      ensures epochID == old(epochID)
    {
      var opened', v := GetVMExecutor();
      if !opened' {
        return false;
      }
      var entries;
      ok, entries := CalcStateModification(v, b.txs, b.migrated);
      if !ok {
        return;
      }
      states := states + {ClearEmpty(v.accounts)};
      locations := Enter(locations, entries);
      blocks := blocks[HeaderHash(b.header) := b];
      curHeader := b.header;
    }

    method GetBlocksAfterHeight(beginHeight: int) returns (r: Option<seq<Block>>)
      ensures r == BlocksAfterHeight(Value(), beginHeight)
    {
      if beginHeight <= 0 {
        return None;
      }
      var fetchedBlocksCnt := curHeader.number - beginHeight + 1;
      if fetchedBlocksCnt > BLOCKS_FETCH_LIMIT {
        return None;
      }
      if fetchedBlocksCnt < 0 {
        fetchedBlocksCnt := 0;
      }
      var bHash := HeaderHash(curHeader);
      var fetched: seq<Block> := [];
      var i := fetchedBlocksCnt;
      PrependNone(Walk(blocks, bHash, i));
      while i > 0
        invariant 0 <= i <= fetchedBlocksCnt
        invariant Walk(blocks, HeaderHash(curHeader), fetchedBlocksCnt) == Before(Walk(blocks, bHash, i), fetched)
      {
        if bHash !in blocks {
          return None;
        }
        var b := blocks[bHash];
        PrependOne(Walk(blocks, b.header.parent, i - 1), b, fetched);
        fetched := [b] + fetched;
        bHash := b.header.parent;
        i := i - 1;
      }
      return Some(fetched);
    }

    /** The states of the given accounts, default states for those that do not exist. */
    method GetAccountStates(addresses: seq<Address>) returns (r: Option<seq<State>>)
      requires shardNum > 0
      ensures r.Some? == (curHeader.stateRoot in states)
      ensures r.Some? ==> |r.value| == |addresses| && forall i :: 0 <= i < |addresses| ==>
        r.value[i] == ReadState(curHeader.stateRoot, addresses[i], LocOf(locations, addresses[i], shardNum))
    {
      var opened', v := GetVMExecutor();
      if !opened' {
        return None;
      }
      var read := [];
      for i := 0 to |addresses|
        invariant |read| == i
        invariant forall j :: 0 <= j < i ==>
          read[j] == ReadState(curHeader.stateRoot, addresses[j], LocOf(locations, addresses[j], shardNum))
      {
        var location := LocOf(locations, addresses[i], shardNum);
        var state := NewState(location);
        if v.Exist(addresses[i]) {
          state := State(v.accounts[addresses[i]].balance, v.accounts[addresses[i]].nonce, location);
        }
        read := read + [state];
      }
      return Some(read);
    }

    /** The locations of all senders and recipients. */
    method GetAccountLocationsInTxs(txs: seq<Transaction>) returns (locs: map<Address, int>)
      requires shardNum > 0
      ensures forall tx :: tx in txs ==> tx.sender in locs && tx.recipient in locs
      ensures forall a :: a in locs ==> locs[a] == LocOf(locations, a, shardNum)
    {
      locs := map[];
      for i := 0 to |txs|
        invariant forall j :: 0 <= j < i ==> txs[j].sender in locs && txs[j].recipient in locs
        invariant forall a :: a in locs ==> locs[a] == LocOf(locations, a, shardNum)
      {
        locs := locs[txs[i].sender := LocOf(locations, txs[i].sender, shardNum)];
        locs := locs[txs[i].recipient := LocOf(locations, txs[i].recipient, shardNum)];
      }
    }

    method UpdateEpoch(epoch: int)
      modifies this
      ensures epochID == epoch && Value() == old(Value())
    {
      epochID := epoch;
    }
  }

  lemma {:induction false} InstallFails(m: Accounts, self: int, ms: seq<Migrated>, i: nat)
    requires i <= |ms| && InstallAll(m, self, ms[..i]).None?
    ensures InstallAll(m, self, ms).None?
  {
    if i == |ms| {
      assert ms[..i] == ms;
    } else {
      assert ms[..|ms| - 1][..i] == ms[..i];
      InstallFails(m, self, ms[..|ms| - 1], i);
    }
  }

  function Entered(loc: map<Address, int>, entries: seq<(Address, int)>): map<Address, int>
  {
    if entries == [] then loc
      else Entered(loc, entries[..|entries| - 1])[entries[|entries| - 1].0 := entries[|entries| - 1].1]
  }

  /** Writes the entries into the location trie, in order. */
  method Enter(loc: map<Address, int>, entries: seq<(Address, int)>) returns (after: map<Address, int>)
    ensures after == Entered(loc, entries)
  {
    after := loc;
    for i := 0 to |entries|
      invariant after == Entered(loc, entries[..i])
    {
      assert entries[..i + 1][..i] == entries[..i];
      after := after[entries[i].0 := entries[i].1];
    }
    assert entries[..|entries|] == entries;
  }

  function Before(older: Option<seq<Block>>, newer: seq<Block>): Option<seq<Block>>
  {
    match older
    case None => None
    case Some(s) => Some(s + newer)
  }

  lemma PrependNone(older: Option<seq<Block>>)
    ensures Before(older, []) == older
    ensures forall s :: Before(Some([]), s) == Some(s)
  {
    if older.Some? {
      assert older.value + [] == older.value;
    }
    forall s
      ensures Before(Some([]), s) == Some(s)
    {
      assert [] + s == s;
    }
  }

  lemma PrependOne(older: Option<seq<Block>>, b: Block, newer: seq<Block>)
    ensures Before(match older case None => None case Some(s) => Some(s + [b]), newer) == Before(older, [b] + newer)
  {
    if older.Some? {
      assert older.value + [b] + newer == older.value + ([b] + newer);
    }
  }

  // ---------------------------------------------------------------------------------------------
  // The chain below the shard system
  // ---------------------------------------------------------------------------------------------

  ghost predicate DistinctAddrs(ms: seq<Migrated>)
  {
    forall i, j :: 0 <= i < j < |ms| ==> ms[i].addr != ms[j].addr
  }

  /** A list of migrated states and a map with the same entries. */
  ghost predicate Lists(ms: seq<Migrated>, states: map<Address, State>)
  {
    && DistinctAddrs(ms)
    && (forall i :: 0 <= i < |ms| ==> ms[i].addr in states && states[ms[i].addr] == ms[i].state)
    && forall a :: a in states ==> exists i :: 0 <= i < |ms| && ms[i].addr == a
  }

  /** The effect of a list of distinct addresses at one address. */
  lemma {:induction false} InstalledAt(m: Accounts, self: int, ms: seq<Migrated>, a: Address)
    requires DistinctAddrs(ms) && InstallAll(m, self, ms).Some?
    ensures var m' := InstallAll(m, self, ms).value;
      && (forall i :: 0 <= i < |ms| && ms[i].addr == a && ms[i].state.location == self ==>
            a in m' && m'[a] == Account(ms[i].state.balance, ms[i].state.nonce))
      && ((forall i :: 0 <= i < |ms| && ms[i].addr == a ==> ms[i].state.location != self) ==>
            (a in m' <==> a in m) && (a in m ==> m'[a] == m[a]))
  {
    if ms != [] {
      InstalledAt(m, self, ms[..|ms| - 1], a);
    }
  }
}
