/** What executing a transaction means for the balances (pkg/chain/txexecute.go), stated without the
    steps by which the code gets there: when it succeeds, what every account holds afterwards, and that
    a relay or broker transaction in the wrong shard changes nothing. */
module ExecutionLaws {
  import opened Types
  import opened Execution

  /** The shard a relay or broker transaction acts in is its sender's for the first half, its
      recipient's for the second. */
  predicate ActsHere(loc: map<Address, int>, n: int, shard: int, tx: Transaction)
    requires n > 0
  {
    match TxType(tx)
    case NormalTx => true
    case RelayTx => LocOf(loc, if tx.relayStage == RELAY1 then tx.sender else tx.recipient, n) == shard
    case BrokerTx => LocOf(loc, if tx.brokerStage == SIGMA1 then tx.sender else tx.recipient, n) == shard
    case CreateContractTx => false
    case CallContractTx => false
  }

  /** A transaction executes exactly when its value is a 256-bit word, it has a stage of its kind, and the
      sender can pay where the sender pays: in an ordinary transaction and in a first half at home. Second
      halves and transactions of other shards never fail. */
  lemma ExecutesExactlyWhen(m: Accounts, loc: map<Address, int>, n: int, shard: int, tx: Transaction)
    requires n > 0
    ensures ExecTx(m, loc, n, shard, tx).Some? <==>
      && 0 <= tx.value < UINT256
      && match TxType(tx)
         case NormalTx => tx.value <= BalanceOf(m, tx.sender)
         case RelayTx =>
           || (tx.relayStage == RELAY1 && (LocOf(loc, tx.sender, n) == shard ==> tx.value <= BalanceOf(m, tx.sender)))
           || tx.relayStage == RELAY2
         case BrokerTx =>
           || (tx.brokerStage == SIGMA1 && (LocOf(loc, tx.sender, n) == shard ==> tx.value <= BalanceOf(m, tx.sender)))
           || tx.brokerStage == SIGMA2
         case CreateContractTx => false
         case CallContractTx => false
  {
  }

  /** Balances are 256-bit words. */
  ghost predicate Words(m: Accounts)
  {
    forall a :: a in m ==> m[a].balance < UINT256
  }

  /** An ordinary transaction takes the value from the sender and gives it to the recipient; every other
      account keeps its balance. */
  lemma NormalBalances(m: Accounts, loc: map<Address, int>, n: int, shard: int, tx: Transaction, a: Address)
    requires n > 0 && Words(m) && TxType(tx) == NormalTx && ExecTx(m, loc, n, shard, tx).Some?
    ensures BalanceOf(ExecTx(m, loc, n, shard, tx).value, a)
      == (BalanceOf(m, a) - (if a == tx.sender then tx.value else 0)
        + (if a == tx.recipient then tx.value else 0)) % UINT256
  {
  }

  /** The first half of a relay transaction takes the value from the sender, in the sender's shard. */
  lemma FirstRelayBalances(m: Accounts, loc: map<Address, int>, n: int, shard: int, tx: Transaction, a: Address)
    requires n > 0 && Words(m) && TxType(tx) == RelayTx && tx.relayStage == RELAY1
    requires LocOf(loc, tx.sender, n) == shard && ExecTx(m, loc, n, shard, tx).Some?
    ensures BalanceOf(ExecTx(m, loc, n, shard, tx).value, a)
      == BalanceOf(m, a) - if a == tx.sender then tx.value else 0
  {
  }

  /** The second half gives it to the recipient, in the recipient's shard. */
  lemma SecondRelayBalances(m: Accounts, loc: map<Address, int>, n: int, shard: int, tx: Transaction, a: Address)
    requires n > 0 && Words(m) && TxType(tx) == RelayTx && tx.relayStage == RELAY2
    requires LocOf(loc, tx.recipient, n) == shard && ExecTx(m, loc, n, shard, tx).Some?
    ensures BalanceOf(ExecTx(m, loc, n, shard, tx).value, a)
      == (BalanceOf(m, a) + if a == tx.recipient then tx.value else 0) % UINT256
  {
  }

  /** The first half of a broker transaction takes the value from the sender and gives it to the broker,
      in the sender's shard. */
  lemma FirstBrokerBalances(m: Accounts, loc: map<Address, int>, n: int, shard: int, tx: Transaction, a: Address)
    requires n > 0 && Words(m) && TxType(tx) == BrokerTx && tx.brokerStage == SIGMA1
    requires LocOf(loc, tx.sender, n) == shard && ExecTx(m, loc, n, shard, tx).Some?
    ensures BalanceOf(ExecTx(m, loc, n, shard, tx).value, a)
      == (BalanceOf(m, a) - (if a == tx.sender then tx.value else 0)
        + (if a == tx.broker then tx.value else 0)) % UINT256
  {
  }

  /** The second half takes it from the broker, who is not asked, and gives it to the recipient, in the
      recipient's shard. */
  lemma SecondBrokerBalances(m: Accounts, loc: map<Address, int>, n: int, shard: int, tx: Transaction, a: Address)
    requires n > 0 && Words(m) && TxType(tx) == BrokerTx && tx.brokerStage == SIGMA2
    requires LocOf(loc, tx.recipient, n) == shard && ExecTx(m, loc, n, shard, tx).Some?
    ensures BalanceOf(ExecTx(m, loc, n, shard, tx).value, a)
      == (BalanceOf(m, a) - (if a == tx.broker then tx.value else 0)
        + (if a == tx.recipient then tx.value else 0)) % UINT256
  {
  }

  /** In any other shard nothing changes at all. */
  lemma ElsewhereUnchanged(m: Accounts, loc: map<Address, int>, n: int, shard: int, tx: Transaction)
    requires n > 0 && !ActsHere(loc, n, shard, tx) && ExecTx(m, loc, n, shard, tx).Some?
    ensures ExecTx(m, loc, n, shard, tx).value == m
  {
  }

  /** No account disappears, no nonce changes, and an account that appears has nonce zero. */
  lemma NoncesKept(m: Accounts, loc: map<Address, int>, n: int, shard: int, tx: Transaction, a: Address)
    requires n > 0 && ExecTx(m, loc, n, shard, tx).Some?
    ensures var m' := ExecTx(m, loc, n, shard, tx).value;
      && (a in m ==> a in m' && m'[a].nonce == m[a].nonce)
      && (a !in m && a in m' ==> m'[a].nonce == 0)
  {
  }

  /** Committing a block deletes exactly the accounts with neither balance nor nonce, and keeps every other
      as it is. */
  lemma DeletedExactlyWhen(m: Accounts, a: Address)
    ensures a in ClearEmpty(m) <==> a in m && (m[a].balance > 0 || m[a].nonce > 0)
    ensures a in ClearEmpty(m) ==> ClearEmpty(m)[a] == m[a]
  {
  }

  /** A block executes exactly when each transaction does, on the accounts the ones before it leave. */
  lemma {:induction false} BlockExecutesExactlyWhen(m: Accounts, loc: map<Address, int>, n: int, shard: int,
      txs: seq<Transaction>)
    requires n > 0
    ensures ExecTxs(m, loc, n, shard, txs).Some? <==>
      forall i :: 0 <= i < |txs| ==> ExecutesAt(m, loc, n, shard, txs, i)
  {
    if txs != [] {
      var front := txs[..|txs| - 1];
      BlockExecutesExactlyWhen(m, loc, n, shard, front);
      forall i | 0 <= i < |front|
        ensures ExecutesAt(m, loc, n, shard, txs, i) <==> ExecutesAt(m, loc, n, shard, front, i)
      {
        assert txs[..i] == front[..i];
      }
      if forall i :: 0 <= i < |txs| ==> ExecutesAt(m, loc, n, shard, txs, i) {
        assert ExecutesAt(m, loc, n, shard, txs, |txs| - 1);
      }
    }
  }

  predicate ExecutesAt(m: Accounts, loc: map<Address, int>, n: int, shard: int, txs: seq<Transaction>, i: nat)
    requires n > 0 && i < |txs|
  {
    match ExecTxs(m, loc, n, shard, txs[..i])
    case None => false
    case Some(m1) => ExecTx(m1, loc, n, shard, txs[i]).Some?
  }
}
