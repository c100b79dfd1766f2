/** Where transactions go: which shard a pooled transaction belongs to, how a cross-shard transaction
    becomes a relay transaction, and which relay-2 transactions a committed block sends out. The
    functions here specify the loops of `DynamicShardOp` and `TxBlockOp`. */
module Routing {
  import opened Types
  import opened Sums
  import opened Execution

  datatype TxTo = TxTo(dest: int, tx: Transaction)

  ghost predicate InRange(loc: map<Address, int>, shardNum: int)
  {
    forall a :: a in loc ==> 0 <= loc[a] < shardNum
  }

  /** A relay-2 transaction belongs to its recipient's shard, any other to its sender's. */
  function KeyAccount(tx: Transaction): Address
  {
    if tx.relayStage == RELAY2 then tx.recipient else tx.sender
  }

  /** The transactions of `txs` that this shard executes, and those it passes on. */
  function Stay(loc: map<Address, int>, shardNum: int, self: int, txs: seq<Transaction>): seq<Transaction>
    requires shardNum > 0
  {
    if txs == [] then [] else
    var tx := txs[|txs| - 1];
    var front := Stay(loc, shardNum, self, txs[..|txs| - 1]);
    if LocOf(loc, KeyAccount(tx), shardNum) == self then front + [tx] else front
  }

  function PassOn(loc: map<Address, int>, shardNum: int, self: int, txs: seq<Transaction>): seq<TxTo>
    requires shardNum > 0
  {
    if txs == [] then [] else
    var tx := txs[|txs| - 1];
    var dest := LocOf(loc, KeyAccount(tx), shardNum);
    var front := PassOn(loc, shardNum, self, txs[..|txs| - 1]);
    if dest == self then front else front + [TxTo(dest, tx)]
  }

  /** At a migration, the transactions whose account moves follow it. */
  function Kept(moved: map<Address, int>, txs: seq<Transaction>): seq<Transaction>
  {
    if txs == [] then [] else
    var tx := txs[|txs| - 1];
    var front := Kept(moved, txs[..|txs| - 1]);
    if KeyAccount(tx) in moved then front else front + [tx]
  }

  function Following(moved: map<Address, int>, txs: seq<Transaction>): seq<TxTo>
  {
    if txs == [] then [] else
    var tx := txs[|txs| - 1];
    var front := Following(moved, txs[..|txs| - 1]);
    if KeyAccount(tx) in moved then front + [TxTo(moved[KeyAccount(tx)], tx)] else front
  }

  /** A transaction of undetermined stage whose recipient lives elsewhere becomes a relay-1
      transaction; one whose sender lives elsewhere is dropped. */
  function Modify(loc: map<Address, int>, shardNum: int, self: int, txs: seq<Transaction>): seq<Transaction>
    requires shardNum > 0
  {
    if txs == [] then [] else
    var tx := txs[|txs| - 1];
    var front := Modify(loc, shardNum, self, txs[..|txs| - 1]);
    if Misplaced(loc, shardNum, self, tx) then front else front + [Staged(loc, shardNum, tx)]
  }

  predicate Misplaced(loc: map<Address, int>, shardNum: int, self: int, tx: Transaction)
    requires shardNum > 0
  {
    tx.relayStage == UNDETERMINED && LocOf(loc, tx.sender, shardNum) != self
  }

  function Staged(loc: map<Address, int>, shardNum: int, tx: Transaction): Transaction
    requires shardNum > 0
  {
    if tx.relayStage != UNDETERMINED || LocOf(loc, tx.sender, shardNum) == LocOf(loc, tx.recipient, shardNum) then tx
    else tx.(relayStage := RELAY1, rHash := HashOf(tx))
  }

  /** The relay-2 transactions a committed block sends to the recipients' shards. */
  function Relayed(loc: map<Address, int>, shardNum: int, txs: seq<Transaction>): seq<TxTo>
    requires shardNum > 0
  {
    if txs == [] then [] else
    var tx := txs[|txs| - 1];
    var front := Relayed(loc, shardNum, txs[..|txs| - 1]);
    if tx.relayStage == RELAY1 then front + [RelayedTx(loc, shardNum, tx)] else front
  }

  function RelayedTx(loc: map<Address, int>, shardNum: int, tx: Transaction): TxTo
    requires shardNum > 0
  {
    TxTo(LocOf(loc, tx.recipient, shardNum), tx.(relayStage := RELAY2))
  }

  // ---------------------------------------------------------------------------------------------
  // What the routing conserves
  // ---------------------------------------------------------------------------------------------

  /** A transaction as the transaction pools of the relay committees hold it. */
  predicate Pooled(universe: set<Address>, tx: Transaction)
  {
    && tx.sender in universe && tx.recipient in universe
    && tx.bHash == NoHash && tx.data == []
    && ((tx.relayStage == UNDETERMINED && tx.rHash == NoHash)
      || (tx.relayStage == RELAY2 && tx.rHash != NoHash && tx.value >= 0))
  }

  /** A transaction as a block of shard `self` holds it: everything it touches lives here. */
  predicate AtHome(universe: set<Address>, loc: map<Address, int>, shardNum: int, self: int, tx: Transaction)
    requires shardNum > 0
  {
    && tx.bHash == NoHash && tx.data == []
    && tx.sender in universe && tx.recipient in universe
    && (tx.relayStage == UNDETERMINED || tx.relayStage == RELAY1 || tx.relayStage == RELAY2)
    && (tx.rHash == NoHash <==> tx.relayStage == UNDETERMINED)
    && (tx.relayStage != RELAY2 ==> LocOf(loc, tx.sender, shardNum) == self)
    && (tx.relayStage != RELAY1 ==> LocOf(loc, tx.recipient, shardNum) == self)
  }

  ghost function ToValue(t: TxTo): int
  {
    InValue(t.tx)
  }

  ghost function InTotal(m: multiset<Transaction>): int
  {
    Total(m, InValue)
  }

  ghost function ToTotal(m: multiset<TxTo>): int
  {
    Total(m, ToValue)
  }

  lemma SnocMultiset<T>(s: seq<T>)
    requires s != []
    ensures multiset(s) == multiset(s[..|s| - 1]) + multiset{s[|s| - 1]}
  {
    assert s == s[..|s| - 1] + [s[|s| - 1]];
  }

  lemma {:induction false} InValuesTotal(txs: seq<Transaction>)
    ensures InTotal(multiset(txs)) == InValues(txs)
  {
    if txs != [] {
      InValuesTotal(txs[..|txs| - 1]);
      SnocMultiset(txs);
      TotalAdd(multiset(txs[..|txs| - 1]), InValue, txs[|txs| - 1]);
    }
  }

  ghost function ToValues(ts: seq<TxTo>): int
  {
    if ts == [] then 0 else ToValues(ts[..|ts| - 1]) + ToValue(ts[|ts| - 1])
  }

  lemma {:induction false} ToValuesTotal(ts: seq<TxTo>)
    ensures ToTotal(multiset(ts)) == ToValues(ts)
  {
    if ts != [] {
      ToValuesTotal(ts[..|ts| - 1]);
      SnocMultiset(ts);
      TotalAdd(multiset(ts[..|ts| - 1]), ToValue, ts[|ts| - 1]);
    }
  }

  lemma InValuesSnoc(txs: seq<Transaction>, tx: Transaction)
    ensures InValues(txs + [tx]) == InValues(txs) + InValue(tx)
    ensures OutValues(txs + [tx]) == OutValues(txs) + OutValue(tx)
  {
    assert (txs + [tx])[..|txs|] == txs;
  }

  lemma ToValuesSnoc(ts: seq<TxTo>, t: TxTo)
    ensures ToValues(ts + [t]) == ToValues(ts) + ToValue(t)
  {
    assert (ts + [t])[..|ts|] == ts;
  }

  /** Packing: what stays and what is passed on carry the value of what was taken. */
  lemma {:induction false} PackValue(loc: map<Address, int>, shardNum: int, self: int, txs: seq<Transaction>)
    requires shardNum > 0
    ensures InValues(Stay(loc, shardNum, self, txs)) + ToValues(PassOn(loc, shardNum, self, txs)) == InValues(txs)
  {
    if txs != [] {
      var front, tx := txs[..|txs| - 1], txs[|txs| - 1];
      PackValue(loc, shardNum, self, front);
      InValuesSnoc(Stay(loc, shardNum, self, front), tx);
      ToValuesSnoc(PassOn(loc, shardNum, self, front), TxTo(LocOf(loc, KeyAccount(tx), shardNum), tx));
    }
  }

  lemma {:induction false} MigrateValue(moved: map<Address, int>, txs: seq<Transaction>)
    ensures InValues(Kept(moved, txs)) + ToValues(Following(moved, txs)) == InValues(txs)
  {
    if txs != [] {
      var front, tx := txs[..|txs| - 1], txs[|txs| - 1];
      MigrateValue(moved, front);
      InValuesSnoc(Kept(moved, front), tx);
      if KeyAccount(tx) in moved {
        ToValuesSnoc(Following(moved, front), TxTo(moved[KeyAccount(tx)], tx));
      }
    }
  }

  /** Turning pooled transactions into block transactions neither drops one that belongs here nor
      changes the value coming in, and afterwards everything a transaction touches lives here. */
  lemma {:induction false} ModifyAtHome(universe: set<Address>, loc: map<Address, int>, shardNum: int, self: int,
      txs: seq<Transaction>)
    requires shardNum > 0
    requires forall i :: 0 <= i < |txs| ==> Pooled(universe, txs[i]) && LocOf(loc, KeyAccount(txs[i]), shardNum) == self
    ensures |Modify(loc, shardNum, self, txs)| == |txs|
    ensures InValues(Modify(loc, shardNum, self, txs)) == InValues(txs)
    ensures forall i :: 0 <= i < |txs| ==> AtHome(universe, loc, shardNum, self, Modify(loc, shardNum, self, txs)[i])
  {
    if txs != [] {
      var front, tx := txs[..|txs| - 1], txs[|txs| - 1];
      ModifyAtHome(universe, loc, shardNum, self, front);
      assert txs[..|txs| - 1][..] == front;
      InValuesSnoc(Modify(loc, shardNum, self, front), Staged(loc, shardNum, tx));
    }
  }

  /** A committed block sends out, in relay-2 transactions, the value its relay-1 transactions debit. */
  lemma {:induction false} RelayedValue(universe: set<Address>, loc: map<Address, int>, shardNum: int, self: int,
      txs: seq<Transaction>)
    requires shardNum > 0
    requires forall i :: 0 <= i < |txs| ==> AtHome(universe, loc, shardNum, self, txs[i])
    ensures ToValues(Relayed(loc, shardNum, txs)) == OutValues(txs)
  {
    if txs != [] {
      var front, tx := txs[..|txs| - 1], txs[|txs| - 1];
      RelayedValue(universe, loc, shardNum, self, front);
      if tx.relayStage == RELAY1 {
        ToValuesSnoc(Relayed(loc, shardNum, front), RelayedTx(loc, shardNum, tx));
      }
    }
  }

  lemma {:induction false} RelayedPooled(universe: set<Address>, loc: map<Address, int>, shardNum: int, self: int,
      txs: seq<Transaction>)
    requires shardNum > 0
    requires forall i :: 0 <= i < |txs| ==> AtHome(universe, loc, shardNum, self, txs[i]) && txs[i].value >= 0
    ensures forall i :: 0 <= i < |Relayed(loc, shardNum, txs)| ==>
      Pooled(universe, Relayed(loc, shardNum, txs)[i].tx)
      && Relayed(loc, shardNum, txs)[i].dest == LocOf(loc, Relayed(loc, shardNum, txs)[i].tx.recipient, shardNum)
  {
    if txs != [] {
      RelayedPooled(universe, loc, shardNum, self, txs[..|txs| - 1]);
    }
  }

  lemma {:induction false} StayBelongs(loc: map<Address, int>, shardNum: int, self: int, txs: seq<Transaction>)
    requires shardNum > 0
    ensures forall i :: 0 <= i < |Stay(loc, shardNum, self, txs)| ==>
      Stay(loc, shardNum, self, txs)[i] in multiset(txs)
        && LocOf(loc, KeyAccount(Stay(loc, shardNum, self, txs)[i]), shardNum) == self
    ensures forall i :: 0 <= i < |PassOn(loc, shardNum, self, txs)| ==>
      PassOn(loc, shardNum, self, txs)[i].tx in multiset(txs)
      && PassOn(loc, shardNum, self, txs)[i].dest
        == LocOf(loc, KeyAccount(PassOn(loc, shardNum, self, txs)[i].tx), shardNum)
  {
    if txs != [] {
      StayBelongs(loc, shardNum, self, txs[..|txs| - 1]);
      SnocMultiset(txs);
    }
  }

  lemma {:induction false} KeptBelongs(moved: map<Address, int>, txs: seq<Transaction>)
    ensures forall i :: 0 <= i < |Kept(moved, txs)| ==> Kept(moved, txs)[i] in multiset(txs)
    ensures forall i :: 0 <= i < |Following(moved, txs)| ==>
      Following(moved, txs)[i].tx in multiset(txs) && KeyAccount(Following(moved, txs)[i].tx) in moved
      && Following(moved, txs)[i].dest == moved[KeyAccount(Following(moved, txs)[i].tx)]
  {
    if txs != [] {
      KeptBelongs(moved, txs[..|txs| - 1]);
      SnocMultiset(txs);
    }
  }
}
