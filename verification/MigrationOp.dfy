/** Migration blocks (consensus/pbft/insideop/migrationblockop/migrationblockop.go): sending the
    accounts out, building the block and committing it, tied to the steps of `ShardSystem`. */
module MigrationOps {
  import opened Types
  import opened Execution
  import opened Migration
  import opened ShardSystem
  import opened Chains

  /** The keys of a map in some order, each once. */
  method KeysOf<V>(m: map<Address, V>) returns (keys: seq<Address>)
    ensures |keys| == |m| && forall i, j :: 0 <= i < j < |keys| ==> keys[i] != keys[j]
    ensures forall a :: a in keys <==> a in m
  {
    keys := [];
    var todo := m.Keys;
    while todo != {}
      invariant todo <= m.Keys && |keys| == |m| - |todo|
      invariant forall a :: a in keys <==> a in m && a !in todo
      invariant forall i, j :: 0 <= i < j < |keys| ==> keys[i] != keys[j]
    {
      var a := AnyOf(todo);
      todo := todo - {a};
      keys := keys + [a];
    }
  }

  /** What of the moved accounts `done` goes to shard `dest`. */
  function SentOf(done: seq<Address>, moved: map<Address, int>, loc: map<Address, int>, m: Accounts, shardNum: int,
      self: int, dest: int): map<Address, State>
    requires shardNum > 0
  {
    map a | a in moved && a in done && LocOf(loc, a, shardNum) == self && moved[a] == dest :: ReadState(m, a, self)
  }

  lemma SentMore(done: seq<Address>, a: Address, moved: map<Address, int>, loc: map<Address, int>, m: Accounts,
      shardNum: int, self: int, dest: int)
    requires shardNum > 0 && a in moved
    ensures SentOf(done + [a], moved, loc, m, shardNum, self, dest)
      == if LocOf(loc, a, shardNum) == self
        && moved[a] == dest then SentOf(done, moved, loc, m, shardNum, self, dest)[a := ReadState(m, a, self)]
         else SentOf(done, moved, loc, m, shardNum, self, dest)
  {
  }

  class MigrationBlockOp {
    const amm: AccMigrateMetadata
    const chain: Chain
    const self: Int64
    const shardNum: nat

    ghost predicate Valid()
      reads this, chain, amm
    {
      && 0 < shardNum < 0x8000_0000_0000_0000
      && chain.shardNum == shardNum && chain.shardID == self && amm.shardNum == shardNum && amm.self == self
      && chain.curHeader.stateRoot in chain.states
    }

    constructor (amm: AccMigrateMetadata, chain: Chain, self: Int64, shardNum: nat)
      requires 0 < shardNum < 0x8000_0000_0000_0000
      requires chain.shardNum == shardNum && chain.shardID == self && amm.shardNum == shardNum && amm.self == self
      requires chain.curHeader.stateRoot in chain.states
      ensures Valid() && this.amm == amm && this.chain == chain
    {
      this.amm := amm;
      this.chain := chain;
      this.self := self;
      this.shardNum := shardNum;
    }

    /** One message for every shard, the own one included; each moved account that lives here goes, with
        its present state, into the message for its new shard. */
    method MigrateAccounts() returns (atMsgList: seq<MigrationMsg>)
      requires Valid() && forall a :: a in amm.curModifiedMap ==> 0 <= amm.curModifiedMap[a] < shardNum
      ensures atMsgList
        == SentMessages(amm.curModifiedMap, chain.locations, chain.curHeader.stateRoot, shardNum, self, amm.epoch,
          shardNum)
    {
      var moved := amm.curModifiedMap;
      var accountsMigratedOut := KeysOf(moved);
      var states := chain.GetAccountStates(accountsMigratedOut);
      atMsgList := EmptyMessages();
      ghost var loc, accounts := chain.locations, chain.curHeader.stateRoot;
      for i := 0 to |accountsMigratedOut|
        invariant |atMsgList| == shardNum
        invariant forall d :: 0 <= d < shardNum ==>
          atMsgList[d]
            == MigrationMsg(self, d, amm.epoch,
              SentOf(accountsMigratedOut[..i], moved, loc, accounts, shardNum, self, d))
      {
        var acc := accountsMigratedOut[i];
        assert accountsMigratedOut[..i + 1] == accountsMigratedOut[..i] + [acc];
        forall d | 0 <= d < shardNum {
          SentMore(accountsMigratedOut[..i], acc, moved, loc, accounts, shardNum, self, d);
        }
        if states.value[i].location != self {
          continue;
        }
        var destShardID := moved[acc];
        var msg := atMsgList[destShardID];
        atMsgList := atMsgList[destShardID := msg.(states := msg.states[acc := states.value[i]])];
      }
      assert accountsMigratedOut[..|accountsMigratedOut|] == accountsMigratedOut;
      SentAll(atMsgList, accountsMigratedOut, moved, loc, accounts, shardNum, self, amm.epoch, shardNum);
    }

    method EmptyMessages() returns (atMsgList: seq<MigrationMsg>)
      requires Valid()
      ensures |atMsgList| == shardNum && forall d :: 0 <= d < shardNum ==>
        atMsgList[d] == MigrationMsg(self, d, amm.epoch, map[])
    {
      atMsgList := [];
      for i := 0 to shardNum
        invariant |atMsgList| == i && forall d :: 0 <= d < i ==> atMsgList[d] == MigrationMsg(self, d, amm.epoch, map[])
      {
        atMsgList := atMsgList + [MigrationMsg(self, i, amm.epoch, map[])];
      }
    }

    /** Builds the block once every shard's states have arrived; otherwise there is nothing to propose. */
    method BuildMigrationProposal(tag: nat) returns (b: Option<Block>, ghost ms: seq<Migrated>)
      requires Valid()
      ensures |amm.migratedAccountStates| != shardNum ==> b == None
      ensures |amm.migratedAccountStates| == shardNum ==> b == Generated(chain.Value(), self, shardNum, [], ms, tag)
      ensures |amm.migratedAccountStates| == shardNum && DisjointSources(amm.migratedAccountStates) ==>
        Lists(ms, HandOver(amm.Value()))
    {
      ms := [];
      if |amm.migratedAccountStates| != shardNum {
        return None, ms;
      }
      var ok, accounts, states := amm.GetMigratedAddrStates();
      var list := seq(|accounts|,
        i requires 0 <= i < |accounts| && |accounts| == |states| => Migrated(accounts[i], states[i]));
      ms := list;
      if DisjointSources(amm.migratedAccountStates) {
        forall a | a in HandOver(amm.Value())
          ensures exists i :: 0 <= i < |ms| && ms[i].addr == a
        {
          var i :| 0 <= i < |accounts| && accounts[i] == a;
          assert ms[i].addr == a;
        }
      }
      b := chain.GenerateBlock([], list, tag);
    }

    /** Adds the block, takes over the epoch and resets the migration metadata; a block that does not
        execute changes nothing. */
    method MigrationBlockCommit(b: Block) returns (ok: bool)
      requires Valid()
      modifies chain, amm
      ensures ok == Added(old(chain.Value()), self, shardNum, b).Some?
      ensures !ok ==>
        chain.Value() == old(chain.Value()) && amm.Value() == old(amm.Value()) && chain.epochID == old(chain.epochID)
      ensures ok ==> Some(chain.Value()) == Added(old(chain.Value()), self, shardNum, b)
      ensures ok ==> chain.epochID == old(amm.epoch) && amm.Value() == Reset(old(amm.Value()))
    {
      ok := chain.AddBlock(b);
      if ok {
        chain.UpdateEpoch(amm.epoch);
        amm.MigrationStatusReset();
      }
    }
  }

  lemma {:induction false} SentAll(msgs: seq<MigrationMsg>, keys: seq<Address>, moved: map<Address, int>,
      loc: map<Address, int>, m: Accounts, shardNum: nat, self: Int64, epoch: int, upTo: nat)
    requires 0 < shardNum < 0x8000_0000_0000_0000 && upTo <= |msgs| == shardNum
    requires forall a :: a in keys <==> a in moved
    requires forall d :: 0 <= d < shardNum ==>
      msgs[d] == MigrationMsg(self, d, epoch, SentOf(keys, moved, loc, m, shardNum, self, d))
    ensures msgs[..upTo] == SentMessages(moved, loc, m, shardNum, self, epoch, upTo)
    ensures upTo == shardNum ==> msgs == SentMessages(moved, loc, m, shardNum, self, epoch, upTo)
  {
    if upTo == |msgs| {
      assert msgs[..upTo] == msgs;
    }
    if upTo > 0 {
      SentAll(msgs, keys, moved, loc, m, shardNum, self, epoch, upTo - 1);
      assert msgs[..upTo] == msgs[..upTo - 1] + [msgs[upTo - 1]];
      assert SentOf(keys, moved, loc, m, shardNum, self, upTo - 1)
        == SentStates(moved, loc, m, shardNum, self, upTo - 1);
    }
  }

  /** Each shard is sent, in one message, exactly the moved accounts that live here and go there, with their
      balance and nonce. */
  lemma {:induction false} SentExactly(moved: map<Address, int>, loc: map<Address, int>, m: Accounts, n: nat,
      self: Int64,
      epoch: int, upTo: nat, d: nat, a: Address)
    requires 0 < n && upTo < 0x8000_0000_0000_0000 && d < upTo
    ensures var msgs := SentMessages(moved, loc, m, n, self, epoch, upTo);
      && |msgs| == upTo && msgs[d].src == self && msgs[d].dest == d && msgs[d].epoch == epoch
      && (a in msgs[d].states <==> a in moved && moved[a] == d && LocOf(loc, a, n) == self)
      && (a in msgs[d].states ==> msgs[d].states[a] == State(BalanceOf(m, a), NonceOf(m, a), self))
  {
    SentCount(moved, loc, m, n, self, epoch, upTo - 1);
    if d < upTo - 1 {
      SentExactly(moved, loc, m, n, self, epoch, upTo - 1, d, a);
    }
  }

  lemma {:induction false} SentCount(moved: map<Address, int>, loc: map<Address, int>, m: Accounts, n: nat, self: Int64,
      epoch: int, upTo: nat)
    requires 0 < n && upTo < 0x8000_0000_0000_0000
    ensures |SentMessages(moved, loc, m, n, self, epoch, upTo)| == upTo
  {
    if upTo > 0 {
      SentCount(moved, loc, m, n, self, epoch, upTo - 1);
    }
  }

  // ---------------------------------------------------------------------------------------------
  // The commit step of the shard system
  // ---------------------------------------------------------------------------------------------

  lemma {:induction false} RelocatedAt(loc: map<Address, int>, ms: seq<Migrated>, a: Address)
    requires DistinctAddrs(ms)
    ensures (forall i :: 0 <= i < |ms| ==> ms[i].addr != a) ==>
      (a in RelocateAll(loc, ms) <==> a in loc) && (a in loc ==> RelocateAll(loc, ms)[a] == loc[a])
    ensures forall i :: 0 <= i < |ms| && ms[i].addr == a ==>
      a in RelocateAll(loc, ms) && RelocateAll(loc, ms)[a] == ms[i].state.location
  {
    if ms != [] {
      RelocatedAt(loc, ms[..|ms| - 1], a);
    }
  }

  lemma {:induction false} InstallsAll(m: Accounts, self: int, ms: seq<Migrated>)
    requires forall i :: 0 <= i < |ms| && ms[i].state.location == self ==> FitsWord(ms[i].state.balance)
    ensures InstallAll(m, self, ms).Some?
  {
    if ms != [] {
      InstallsAll(m, self, ms[..|ms| - 1]);
    }
  }

  lemma InstallIsMap(m: Accounts, self: int, ms: seq<Migrated>, states: map<Address, State>)
    requires Lists(ms, states) && Installable(self, states)
    ensures InstallAll(m, self, ms) == Some(Install(m, self, states))
  {
    InstallsAll(m, self, ms);
    var m' := InstallAll(m, self, ms).value;
    forall a
      ensures (a in m' <==> a in Install(m, self, states)) && (a in m' ==> m'[a] == Install(m, self, states)[a])
    {
      InstalledAt(m, self, ms, a);
      if a in states {
        var i :| 0 <= i < |ms| && ms[i].addr == a;
        assert ms[i].state == states[a];
      }
    }
    assert m' == Install(m, self, states);
  }

  lemma RelocateIsMap(loc: map<Address, int>, ms: seq<Migrated>, states: map<Address, State>)
    requires Lists(ms, states)
    ensures RelocateAll(loc, ms) == Relocate(loc, states)
  {
    var loc' := RelocateAll(loc, ms);
    forall a
      ensures (a in loc' <==> a in Relocate(loc, states)) && (a in loc' ==> loc'[a] == Relocate(loc, states)[a])
    {
      RelocatedAt(loc, ms, a);
      if a in states {
        var i :| 0 <= i < |ms| && ms[i].addr == a;
        assert ms[i].state == states[a];
      }
    }
    assert loc' == Relocate(loc, states);
  }

  /** Committing a migration block on the chain is the commit step of the shard system: the accounts
      installed, the locations entered, nothing else. */
  lemma CommitRefinesStep(c: ChainState, self: int, shardNum: int, b: Block, states: map<Address, State>)
    requires shardNum > 0 && c.header.stateRoot in c.states
    requires b.txs == [] && Lists(b.migrated, states) && Installable(self, states)
    ensures var c' := Added(c, self, shardNum, b);
      && c'.Some?
      && c'.value.states == c.states + {ClearEmpty(Install(c.header.stateRoot, self, states))}
      && c'.value.locations == Relocate(c.locations, states)
  {
    InstallIsMap(c.header.stateRoot, self, b.migrated, states);
    RelocateIsMap(c.locations, b.migrated, states);
  }
}
