/** Broker mode sends every transaction where it executes: what a shard packs, passes on and gives back
    (consensus/pbft/insideop/dynamicshardop.go), measured by what execution does
    (pkg/chain/txexecute.go). */
module BrokerRouting {
  import opened Types
  import opened Execution
  import opened ExecutionLaws
  import opened Routing
  import opened DynamicShardOps

  /** A transaction whose ends live at `sender` and `recipient` can be carried out in one shard, `shard`:
      an ordinary one has both ends there, a first half its sender, a second half its recipient. */
  predicate Belongs(tx: Transaction, sender: int, recipient: int, shard: int)
  {
    || (TxType(tx) == NormalTx && sender == shard && recipient == shard)
    || (TxType(tx) != NormalTx && tx.brokerStage == SIGMA1 && sender == shard)
    || (TxType(tx) != NormalTx && tx.brokerStage == SIGMA2 && recipient == shard)
  }

  /** No shard can carry it out: the ends of an ordinary transaction live apart, or another kind has
      neither stage. */
  predicate BelongsNowhere(tx: Transaction, sender: int, recipient: int)
  {
    if TxType(tx) == NormalTx then sender != recipient else tx.brokerStage != SIGMA1 && tx.brokerStage != SIGMA2
  }

  predicate BelongsAt(loc: map<Address, int>, n: int, tx: Transaction, shard: int)
    requires n > 0
  {
    Belongs(tx, LocOf(loc, tx.sender, n), LocOf(loc, tx.recipient, n), shard)
  }

  /** What execution says of it: a broker transaction where it belongs acts there, one anywhere else is
      skipped. */
  lemma BelongsActs(loc: map<Address, int>, n: int, tx: Transaction, shard: int)
    requires n > 0 && TxType(tx) == BrokerTx && (tx.brokerStage == SIGMA1 || tx.brokerStage == SIGMA2)
    ensures BelongsAt(loc, n, tx, shard) <==> ActsHere(loc, n, shard, tx)
  {
  }

  /** A broker half that belongs here and executes moves its value between the broker and its one end. */
  lemma BelongingMovesValue(m: Accounts, loc: map<Address, int>, n: int, tx: Transaction, shard: int)
    requires n > 0 && Words(m) && TxType(tx) == BrokerTx && BelongsAt(loc, n, tx, shard)
    requires ExecTx(m, loc, n, shard, tx).Some? && tx.broker != tx.sender && tx.broker != tx.recipient
    ensures var m' := ExecTx(m, loc, n, shard, tx).value;
      if tx.brokerStage == SIGMA1
      then
        && BalanceOf(m', tx.sender) == BalanceOf(m, tx.sender) - tx.value
        && BalanceOf(m', tx.broker) == (BalanceOf(m, tx.broker) + tx.value) % UINT256
      else
        && BalanceOf(m', tx.recipient) == (BalanceOf(m, tx.recipient) + tx.value) % UINT256
        && BalanceOf(m', tx.broker) == (BalanceOf(m, tx.broker) - tx.value) % UINT256
  {
    ExecutesExactlyWhen(m, loc, n, shard, tx);
    if tx.brokerStage == SIGMA1 {
      FirstBrokerBalances(m, loc, n, shard, tx, tx.sender);
      FirstBrokerBalances(m, loc, n, shard, tx, tx.broker);
    } else {
      SecondBrokerBalances(m, loc, n, shard, tx, tx.recipient);
      SecondBrokerBalances(m, loc, n, shard, tx, tx.broker);
    }
  }

  // ---------------------------------------------------------------------------------------------
  // Packing
  // ---------------------------------------------------------------------------------------------

  ghost predicate Valid(loc: map<Address, int>, n: int, self: int)
  {
    0 <= self < n <= SUPERVISOR_SHARD && InRange(loc, n)
  }

  /** A shard packs exactly what belongs to it, passes on exactly what belongs to another shard, to that
      shard, and gives back exactly what belongs to none. */
  lemma {:induction false} PackedExactly(loc: map<Address, int>, n: int, self: int, txs: seq<Transaction>,
      tx: Transaction, d: int)
    requires Valid(loc, n, self)
    ensures var rule := ByLocation(loc, n);
      && multiset(Here(rule, self, txs))[tx] == (if BelongsAt(loc, n, tx, self) then multiset(txs)[tx] else 0)
      && multiset(Elsewhere(rule, self, txs))[TxTo(d, tx)]
        == (if d != self && BelongsAt(loc, n, tx, d) then multiset(txs)[tx] else 0)
      && multiset(Back(rule, txs))[tx]
        == (if BelongsNowhere(tx, LocOf(loc, tx.sender, n), LocOf(loc, tx.recipient, n)) then multiset(txs)[tx] else 0)
  {
    if txs != [] {
      PackedExactly(loc, n, self, txs[..|txs| - 1], tx, d);
      SnocMultiset(txs);
      DestExactly(loc, n, txs[|txs| - 1], self);
      DestExactly(loc, n, txs[|txs| - 1], d);
    }
  }

  lemma DestExactly(loc: map<Address, int>, n: int, tx: Transaction, d: int)
    requires 0 < n <= SUPERVISOR_SHARD && InRange(loc, n)
    ensures var dest := ByLocation(loc, n).Dest(tx);
      && (dest == SUPERVISOR_SHARD <==> BelongsNowhere(tx, LocOf(loc, tx.sender, n), LocOf(loc, tx.recipient, n)))
      && (dest != SUPERVISOR_SHARD ==> (dest == d <==> BelongsAt(loc, n, tx, d)))
      && (dest == SUPERVISOR_SHARD ==> !BelongsAt(loc, n, tx, d))
  {
    assert 0 <= LocOf(loc, tx.sender, n) < n && 0 <= LocOf(loc, tx.recipient, n) < n;
  }

  // ---------------------------------------------------------------------------------------------
  // At a repartition
  // ---------------------------------------------------------------------------------------------

  /** Where an end lives after the moves, as far as the shard can tell: one that does not move counts as
      living here. */
  function EndAfter(moved: map<Address, int>, self: int, a: Address): int
  {
    if a in moved then moved[a] else self
  }

  /** Whatever is in the pool is kept, passed on or given back by where its ends live after the moves. */
  lemma {:induction false} MovedExactly(moved: map<Address, int>, n: int, self: int, txs: seq<Transaction>,
      tx: Transaction, d: int)
    requires 0 <= self < n <= SUPERVISOR_SHARD && InRange(moved, n)
    ensures var rule := ByMoves(moved, self);
      var sender, recipient := EndAfter(moved, self, tx.sender), EndAfter(moved, self, tx.recipient);
      && multiset(Here(rule, self, txs))[tx] == (if Belongs(tx, sender, recipient, self) then multiset(txs)[tx] else 0)
      && multiset(Elsewhere(rule, self, txs))[TxTo(d, tx)]
        == (if d != self && Belongs(tx, sender, recipient, d) then multiset(txs)[tx] else 0)
      && multiset(Back(rule, txs))[tx] == (if BelongsNowhere(tx, sender, recipient) then multiset(txs)[tx] else 0)
  {
    if txs != [] {
      var last := txs[|txs| - 1];
      MovedExactly(moved, n, self, txs[..|txs| - 1], tx, d);
      SnocMultiset(txs);
      assert 0 <= EndAfter(moved, self, last.sender) < n && 0 <= EndAfter(moved, self, last.recipient) < n;
    }
  }

  /** A transaction that belongs here is, after the announced moves, kept, passed on or given back as the
      new locations say. */
  lemma {:induction false} MigratedExactly(loc: map<Address, int>, moved: map<Address, int>, n: int, self: int,
      txs: seq<Transaction>, tx: Transaction, d: int)
    requires Valid(loc, n, self) && InRange(moved, n)
    requires forall i :: 0 <= i < |txs| ==> BelongsAt(loc, n, txs[i], self)
    ensures var rule, after := ByMoves(moved, self), loc + moved;
      && multiset(Here(rule, self, txs))[tx] == (if BelongsAt(after, n, tx, self) then multiset(txs)[tx] else 0)
      && multiset(Elsewhere(rule, self, txs))[TxTo(d, tx)]
        == (if d != self && BelongsAt(after, n, tx, d) then multiset(txs)[tx] else 0)
      && multiset(Back(rule, txs))[tx]
        == (if BelongsNowhere(tx, LocOf(after, tx.sender, n), LocOf(after, tx.recipient, n)) then multiset(txs)[tx]
          else 0)
  {
    if txs != [] {
      var last := txs[|txs| - 1];
      MigratedExactly(loc, moved, n, self, txs[..|txs| - 1], tx, d);
      SnocMultiset(txs);
      DestExactly(loc, n, last, self);
      MigratedDestAgrees(loc, moved, n, self, last);
      DestExactly(loc + moved, n, last, self);
      DestExactly(loc + moved, n, last, d);
    }
  }
}
