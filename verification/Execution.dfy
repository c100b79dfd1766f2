/** Execution of transactions on a shard's accounts (pkg/chain/txexecute.go, pkg/chain/stateio.go)
    and the value each transaction moves. */
module Execution {
  import opened Types
  import opened Sums

  // ---------------------------------------------------------------------------------------------
  // What one transaction does to the accounts
  // ---------------------------------------------------------------------------------------------

  /** Creates the account with the given balance unless it exists. */
  function Touch(m: Accounts, a: Address, init: nat): Accounts
  {
    if a in m then m else m[a := Account(init, 0)]
  }

  /** 256-bit addition and subtraction: both wrap. */
  function Credit(m: Accounts, a: Address, v: nat): Accounts
    requires a in m
  {
    m[a := m[a].(balance := (m[a].balance + v) % UINT256)]
  }

  function Debit(m: Accounts, a: Address, v: nat): Accounts
    requires a in m
  {
    m[a := m[a].(balance := (m[a].balance - v) % UINT256)]
  }

  predicate FitsWord(v: int)
  {
    0 <= v < UINT256
  }

  function NormalTxSpec(m: Accounts, tx: Transaction): Option<Accounts>
  {
    if !FitsWord(tx.value) then None else
    var m1 := Touch(Touch(m, tx.sender, INIT_BALANCE), tx.recipient, INIT_BALANCE);
    if m1[tx.sender].balance < tx.value then None else
    Some(Credit(Debit(m1, tx.sender, tx.value), tx.recipient, tx.value))
  }

  function RelayTxSpec(m: Accounts, loc: map<Address, int>, shardNum: int, shard: int,
      tx: Transaction): Option<Accounts>
    requires shardNum > 0
  {
    if !FitsWord(tx.value) then None
    else if tx.relayStage == RELAY1 then
      if LocOf(loc, tx.sender, shardNum) != shard then Some(m) else
      var m1 := Touch(m, tx.sender, INIT_BALANCE);
      if m1[tx.sender].balance < tx.value then None else Some(Debit(m1, tx.sender, tx.value))
    else if tx.relayStage == RELAY2 then
      if LocOf(loc, tx.recipient, shardNum) != shard then Some(m) else
      Some(Credit(Touch(m, tx.recipient, INIT_BALANCE), tx.recipient, tx.value))
    else None
  }

  function BrokerTxSpec(m: Accounts, loc: map<Address, int>, shardNum: int, shard: int,
      tx: Transaction): Option<Accounts>
    requires shardNum > 0
  {
    if !FitsWord(tx.value) then None
    else if tx.brokerStage == SIGMA1 then
      if LocOf(loc, tx.sender, shardNum) != shard then Some(m) else
      var m1 := Touch(Touch(m, tx.sender, INIT_BALANCE), tx.broker, BROKER_INIT_BALANCE);
      if m1[tx.sender].balance < tx.value then None else
      Some(Credit(Debit(m1, tx.sender, tx.value), tx.broker, tx.value))
    else if tx.brokerStage == SIGMA2 then
      if LocOf(loc, tx.recipient, shardNum) != shard then Some(m) else
      var m1 := Touch(Touch(m, tx.recipient, INIT_BALANCE), tx.broker, BROKER_INIT_BALANCE);
      Some(Credit(Debit(m1, tx.broker, tx.value), tx.recipient, tx.value))
    else None
  }

  /** `None` is an execution error; contract transactions are not part of this model. */
  function ExecTx(m: Accounts, loc: map<Address, int>, shardNum: int, shard: int, tx: Transaction): Option<Accounts>
    requires shardNum > 0
  {
    match TxType(tx)
    case NormalTx => NormalTxSpec(m, tx)
    case RelayTx => RelayTxSpec(m, loc, shardNum, shard, tx)
    case BrokerTx => BrokerTxSpec(m, loc, shardNum, shard, tx)
    case CreateContractTx => None
    case CallContractTx => None
  }

  /** The first failing transaction fails the block. */
  function ExecTxs(m: Accounts, loc: map<Address, int>, shardNum: int, shard: int,
      txs: seq<Transaction>): Option<Accounts>
    requires shardNum > 0
  {
    if txs == [] then Some(m) else
    match ExecTxs(m, loc, shardNum, shard, txs[..|txs| - 1])
    case None => None
    case Some(m1) => ExecTx(m1, loc, shardNum, shard, txs[|txs| - 1])
  }

  /** Committing deletes accounts whose balance and nonce are both zero (EIP-161). */
  predicate EmptyAccount(acc: Account)
  {
    acc.balance == 0 && acc.nonce == 0
  }

  function ClearEmpty(m: Accounts): Accounts
  {
    map a | a in m && !EmptyAccount(m[a]) :: m[a]
  }

  ghost predicate NoEmpty(m: Accounts)
  {
    forall a :: a in m ==> !EmptyAccount(m[a])
  }

  // ---------------------------------------------------------------------------------------------
  // The state database and the imperative execution
  // ---------------------------------------------------------------------------------------------

  class StateDB {
    var accounts: Accounts

    constructor (m: Accounts)
      ensures accounts == m
    {
      accounts := m;
    }

    predicate Exist(a: Address)
      reads this
    {
      a in accounts
    }

    predicate CanTransfer(a: Address, v: nat)
      reads this
    {
      a in accounts && accounts[a].balance >= v
    }

    method SetBalance(a: Address, v: nat)
      modifies this
      ensures accounts == old(accounts)[a := Account(v, if a in old(accounts) then old(accounts)[a].nonce else 0)]
    {
      accounts := accounts[a := Account(v, if a in accounts then accounts[a].nonce else 0)];
    }

    method SetNonce(a: Address, n: nat)
      requires a in accounts
      modifies this
      ensures accounts == old(accounts)[a := old(accounts)[a].(nonce := n)]
    {
      accounts := accounts[a := accounts[a].(nonce := n)];
    }

    method SubBalance(a: Address, v: nat)
      requires a in accounts
      modifies this
      ensures accounts == Debit(old(accounts), a, v)
    {
      accounts := accounts[a := accounts[a].(balance := (accounts[a].balance - v) % UINT256)];
    }

    method AddBalance(a: Address, v: nat)
      requires a in accounts
      modifies this
      ensures accounts == Credit(old(accounts), a, v)
    {
      accounts := accounts[a := accounts[a].(balance := (accounts[a].balance + v) % UINT256)];
    }

    method SetInitBalanceIfNotExist(addresses: seq<Address>, init: nat)
      modifies this
      ensures accounts == TouchAll(old(accounts), addresses, init)
    {
      for i := 0 to |addresses|
        invariant accounts == TouchAll(old(accounts), addresses[..i], init)
      {
        assert addresses[..i + 1][..i] == addresses[..i];
        if !Exist(addresses[i]) {
          SetBalance(addresses[i], init);
        }
      }
      assert addresses[..|addresses|] == addresses;
    }
  }

  function TouchAll(m: Accounts, addresses: seq<Address>, init: nat): Accounts
  {
    if addresses == [] then m
    else Touch(TouchAll(m, addresses[..|addresses| - 1], init), addresses[|addresses| - 1], init)
  }

  lemma TouchTwo(m: Accounts, a: Address, b: Address, init: nat)
    ensures TouchAll(m, [a], init) == Touch(m, a, init)
    ensures TouchAll(m, [a, b], init) == Touch(Touch(m, a, init), b, init)
  {
    assert TouchAll(m, [], init) == m;
    assert [a][..0] == [] && [a, b][..1] == [a];
  }

  method NormalTxExecute(s: StateDB, tx: Transaction) returns (ok: bool)
    modifies s
    ensures ok == NormalTxSpec(old(s.accounts), tx).Some?
    ensures ok ==> s.accounts == NormalTxSpec(old(s.accounts), tx).value
  {
    if !FitsWord(tx.value) {
      return false;
    }
    TouchTwo(s.accounts, tx.sender, tx.recipient, INIT_BALANCE);
    s.SetInitBalanceIfNotExist([tx.sender, tx.recipient], INIT_BALANCE);
    if !s.CanTransfer(tx.sender, tx.value) {
      return false;
    }
    s.SubBalance(tx.sender, tx.value);
    s.AddBalance(tx.recipient, tx.value);
    return true;
  }

  method RelayTxExecute(s: StateDB, loc: map<Address, int>, shardNum: int, shard: int, tx: Transaction)
    returns (ok: bool)
    requires shardNum > 0
    modifies s
    ensures ok == RelayTxSpec(old(s.accounts), loc, shardNum, shard, tx).Some?
    ensures ok ==> s.accounts == RelayTxSpec(old(s.accounts), loc, shardNum, shard, tx).value
  {
    if !FitsWord(tx.value) {
      return false;
    }
    if tx.relayStage == RELAY1 {
      if LocOf(loc, tx.sender, shardNum) != shard {
        return true;
      }
      TouchTwo(s.accounts, tx.sender, tx.sender, INIT_BALANCE);
      s.SetInitBalanceIfNotExist([tx.sender], INIT_BALANCE);
      if !s.CanTransfer(tx.sender, tx.value) {
        return false;
      }
      s.SubBalance(tx.sender, tx.value);
    } else if tx.relayStage == RELAY2 {
      if LocOf(loc, tx.recipient, shardNum) != shard {
        return true;
      }
      TouchTwo(s.accounts, tx.recipient, tx.recipient, INIT_BALANCE);
      s.SetInitBalanceIfNotExist([tx.recipient], INIT_BALANCE);
      s.AddBalance(tx.recipient, tx.value);
    } else {
      return false;
    }
    return true;
  }

  method BrokerTxExecute(s: StateDB, loc: map<Address, int>, shardNum: int, shard: int, tx: Transaction)
    returns (ok: bool)
    requires shardNum > 0
    modifies s
    ensures ok == BrokerTxSpec(old(s.accounts), loc, shardNum, shard, tx).Some?
    ensures ok ==> s.accounts == BrokerTxSpec(old(s.accounts), loc, shardNum, shard, tx).value
  {
    if !FitsWord(tx.value) {
      return false;
    }
    if tx.brokerStage == SIGMA1 {
      if LocOf(loc, tx.sender, shardNum) != shard {
        return true;
      }
      TouchTwo(s.accounts, tx.sender, tx.sender, INIT_BALANCE);
      s.SetInitBalanceIfNotExist([tx.sender], INIT_BALANCE);
      TouchTwo(s.accounts, tx.broker, tx.broker, BROKER_INIT_BALANCE);
      s.SetInitBalanceIfNotExist([tx.broker], BROKER_INIT_BALANCE);
      if !s.CanTransfer(tx.sender, tx.value) {
        return false;
      }
      s.SubBalance(tx.sender, tx.value);
      s.AddBalance(tx.broker, tx.value);
    } else if tx.brokerStage == SIGMA2 {
      if LocOf(loc, tx.recipient, shardNum) != shard {
        return true;
      }
      TouchTwo(s.accounts, tx.recipient, tx.recipient, INIT_BALANCE);
      s.SetInitBalanceIfNotExist([tx.recipient], INIT_BALANCE);
      TouchTwo(s.accounts, tx.broker, tx.broker, BROKER_INIT_BALANCE);
      s.SetInitBalanceIfNotExist([tx.broker], BROKER_INIT_BALANCE);
      s.SubBalance(tx.broker, tx.value);
      s.AddBalance(tx.recipient, tx.value);
    } else {
      return false;
    }
    return true;
  }

  /** Runs the block's transactions one after another; the executor is thrown away on an error. */
  method ExecuteTxs(s: StateDB, loc: map<Address, int>, shardNum: int, shard: int, txs: seq<Transaction>)
    returns (ok: bool)
    requires shardNum > 0
    modifies s
    ensures ok == ExecTxs(old(s.accounts), loc, shardNum, shard, txs).Some?
    ensures ok ==> s.accounts == ExecTxs(old(s.accounts), loc, shardNum, shard, txs).value
  {
    for i := 0 to |txs|
      invariant ExecTxs(old(s.accounts), loc, shardNum, shard, txs[..i]) == Some(s.accounts)
    {
      assert txs[..i + 1][..i] == txs[..i];
      match TxType(txs[i]) {
        case NormalTx => ok := NormalTxExecute(s, txs[i]);
        case RelayTx => ok := RelayTxExecute(s, loc, shardNum, shard, txs[i]);
        case BrokerTx => ok := BrokerTxExecute(s, loc, shardNum, shard, txs[i]);
        case CreateContractTx => ok := false;
        case CallContractTx => ok := false;
      }
      if !ok {
        FailurePersists(old(s.accounts), loc, shardNum, shard, txs, i + 1);
        return false;
      }
    }
    assert txs[..|txs|] == txs;
    return true;
  }

  lemma {:induction false} FailurePersists(m: Accounts, loc: map<Address, int>, shardNum: int, shard: int,
      txs: seq<Transaction>, i: nat)
    requires shardNum > 0 && i <= |txs|
    requires ExecTxs(m, loc, shardNum, shard, txs[..i]).None?
    ensures ExecTxs(m, loc, shardNum, shard, txs).None?
  {
    if i == |txs| {
      assert txs[..i] == txs;
    } else {
      assert txs[..|txs| - 1][..i] == txs[..i];
      FailurePersists(m, loc, shardNum, shard, txs[..|txs| - 1], i);
    }
  }

  // ---------------------------------------------------------------------------------------------
  // Value
  // ---------------------------------------------------------------------------------------------

  /** The worth of the accounts of `h` as shard state `m` sees them. */
  ghost function Worth(h: set<Address>, m: Accounts): int
  {
    Sum(h, a => BalanceOf(m, a))
  }

  /** The accounts a transaction may touch. */
  function Touched(tx: Transaction): set<Address>
  {
    match TxType(tx)
    case NormalTx => {tx.sender, tx.recipient}
    case RelayTx => if tx.relayStage == RELAY1 then {tx.sender} else {tx.recipient}
    case BrokerTx => if tx.brokerStage == SIGMA1 then {tx.sender, tx.broker} else {tx.recipient, tx.broker}
    case CreateContractTx => {}
    case CallContractTx => {}
  }

  /** The value a relay-2 transaction brings in, and a relay-1 transaction sends out. */
  function InValue(tx: Transaction): int
  {
    if TxType(tx) == RelayTx && tx.relayStage == RELAY2 then tx.value else 0
  }

  function OutValue(tx: Transaction): int
  {
    if TxType(tx) == RelayTx && tx.relayStage == RELAY1 then tx.value else 0
  }

  /** A relay transaction is meant for the shard that executes it. */
  predicate RelayAtHome(loc: map<Address, int>, shardNum: int, shard: int, tx: Transaction)
    requires shardNum > 0
  {
    TxType(tx) == RelayTx ==>
      && (tx.relayStage == RELAY1 ==> LocOf(loc, tx.sender, shardNum) == shard)
      && (tx.relayStage == RELAY2 ==> LocOf(loc, tx.recipient, shardNum) == shard)
  }

  lemma WorthUpdate(h: set<Address>, m: Accounts, m': Accounts, x: Address)
    requires x in h
    requires forall a :: a in h && a != x ==> BalanceOf(m', a) == BalanceOf(m, a)
    ensures Worth(h, m') == Worth(h, m) + BalanceOf(m', x) - BalanceOf(m, x)
  {
    SumUpdate(h, a => BalanceOf(m, a), a => BalanceOf(m', a), x);
  }

  lemma TouchKeepsWorth(h: set<Address>, m: Accounts, x: Address)
    ensures Worth(h, Touch(m, x, INIT_BALANCE)) == Worth(h, m)
  {
    SumCongruent(h, a => BalanceOf(m, a), a => BalanceOf(Touch(m, x, INIT_BALANCE), a));
  }

  /** Two different accounts are together worth no more than all accounts. */
  lemma PairWithinWorth(h: set<Address>, m: Accounts, x: Address, y: Address)
    requires x in h && y in h
    ensures BalanceOf(m, x) <= Worth(h, m)
    ensures x != y ==> BalanceOf(m, x) + BalanceOf(m, y) <= Worth(h, m)
  {
    var f := a => BalanceOf(m, a);
    SumNonNegative(h, f);
    SumRemove(h, f, x);
    SumNonNegative(h - {x}, f);
  }

  lemma TransferKeepsWorth(h: set<Address>, m: Accounts, s: Address, r: Address, v: nat)
    requires s in h && r in h && s in m && r in m
    requires v <= m[s].balance
    requires Worth(h, m) < UINT256
    ensures Worth(h, Credit(Debit(m, s, v), r, v)) == Worth(h, m)
  {
    PairWithinWorth(h, m, s, r);
    var m1 := Debit(m, s, v);
    WorthUpdate(h, m, m1, s);
    WorthUpdate(h, m1, Credit(m1, r, v), r);
  }

  /** One executed transaction changes the worth of the accounts by exactly what it brings in less
      what it sends out, as long as no more value is around than fits a 256-bit word. The unguarded
      broker-2 debit needs the broker to be solvent for that. */
  lemma ExecTxValue(h: set<Address>, m: Accounts, loc: map<Address, int>, shardNum: int, shard: int, tx: Transaction)
    requires shardNum > 0
    requires ExecTx(m, loc, shardNum, shard, tx).Some?
    requires Touched(tx) <= h && RelayAtHome(loc, shardNum, shard, tx)
    requires Worth(h, m) + InValue(tx) < UINT256
    requires TxType(tx) == BrokerTx && tx.brokerStage == SIGMA2 ==> tx.value <= BalanceOf(m, tx.broker)
    ensures Worth(h, ExecTx(m, loc, shardNum, shard, tx).value) == Worth(h, m) + InValue(tx) - OutValue(tx)
  {
    TouchKeepsWorth(h, m, tx.sender);
    TouchKeepsWorth(h, m, tx.recipient);
    match TxType(tx) {
      case NormalTx =>
        TouchKeepsWorth(h, Touch(m, tx.sender, INIT_BALANCE), tx.recipient);
        TransferKeepsWorth(h, Touch(Touch(m, tx.sender, INIT_BALANCE), tx.recipient, INIT_BALANCE), tx.sender,
          tx.recipient, tx.value);
      case RelayTx =>
        if tx.relayStage == RELAY1 {
          var m1 := Touch(m, tx.sender, INIT_BALANCE);
          PairWithinWorth(h, m1, tx.sender, tx.sender);
          WorthUpdate(h, m1, Debit(m1, tx.sender, tx.value), tx.sender);
        } else {
          var m1 := Touch(m, tx.recipient, INIT_BALANCE);
          PairWithinWorth(h, m1, tx.recipient, tx.recipient);
          WorthUpdate(h, m1, Credit(m1, tx.recipient, tx.value), tx.recipient);
        }
      case BrokerTx =>
        if tx.brokerStage == SIGMA1 {
          if LocOf(loc, tx.sender, shardNum) == shard {
            TouchKeepsWorth(h, Touch(m, tx.sender, INIT_BALANCE), tx.broker);
            TransferKeepsWorth(h, Touch(Touch(m, tx.sender, INIT_BALANCE), tx.broker, INIT_BALANCE), tx.sender,
              tx.broker, tx.value);
          }
        } else {
          if LocOf(loc, tx.recipient, shardNum) == shard {
            TouchKeepsWorth(h, Touch(m, tx.recipient, INIT_BALANCE), tx.broker);
            TransferKeepsWorth(h, Touch(Touch(m, tx.recipient, INIT_BALANCE), tx.broker, INIT_BALANCE), tx.broker,
              tx.recipient, tx.value);
          }
        }
    }
  }

  /** Accounts a transaction does not touch are left alone. */
  lemma ExecTxFrame(m: Accounts, loc: map<Address, int>, shardNum: int, shard: int, tx: Transaction, a: Address)
    requires shardNum > 0
    requires ExecTx(m, loc, shardNum, shard, tx).Some?
    requires a !in Touched(tx)
    ensures a in ExecTx(m, loc, shardNum, shard, tx).value <==> a in m
    ensures a in m ==> ExecTx(m, loc, shardNum, shard, tx).value[a] == m[a]
  {
  }

  function InValues(txs: seq<Transaction>): int
  {
    if txs == [] then 0 else InValues(txs[..|txs| - 1]) + InValue(txs[|txs| - 1])
  }

  function OutValues(txs: seq<Transaction>): int
  {
    if txs == [] then 0 else OutValues(txs[..|txs| - 1]) + OutValue(txs[|txs| - 1])
  }

  lemma {:induction false} ExecTxsFrame(m: Accounts, loc: map<Address, int>, shardNum: int, shard: int,
      txs: seq<Transaction>, a: Address)
    requires shardNum > 0
    requires ExecTxs(m, loc, shardNum, shard, txs).Some?
    requires forall i :: 0 <= i < |txs| ==> a !in Touched(txs[i])
    ensures a in ExecTxs(m, loc, shardNum, shard, txs).value <==> a in m
    ensures a in m ==> ExecTxs(m, loc, shardNum, shard, txs).value[a] == m[a]
  {
    if txs != [] {
      ExecTxsFrame(m, loc, shardNum, shard, txs[..|txs| - 1], a);
      ExecTxFrame(ExecTxs(m, loc, shardNum, shard, txs[..|txs| - 1]).value, loc, shardNum, shard, txs[|txs| - 1], a);
    }
  }

  /** A transaction that executed carried a value that fits a word. */
  lemma {:induction false} ExecutedValuesFit(m: Accounts, loc: map<Address, int>, shardNum: int, shard: int,
      txs: seq<Transaction>)
    requires shardNum > 0
    requires ExecTxs(m, loc, shardNum, shard, txs).Some?
    ensures forall i :: 0 <= i < |txs| ==> FitsWord(txs[i].value)
    ensures InValues(txs) >= 0 && OutValues(txs) >= 0
  {
    if txs != [] {
      ExecutedValuesFit(m, loc, shardNum, shard, txs[..|txs| - 1]);
      forall i | 0 <= i < |txs|
        ensures FitsWord(txs[i].value)
      {
        assert i < |txs| - 1 ==> txs[i] == txs[..|txs| - 1][i];
      }
    }
  }

  /** A block of ordinary and relay transactions changes the worth of the shard's accounts by what
      its relay-2 transactions bring in less what its relay-1 transactions send out. */
  lemma {:induction false} ExecTxsValue(h: set<Address>, m: Accounts, loc: map<Address, int>, shardNum: int, shard: int,
      txs: seq<Transaction>)
    requires shardNum > 0
    requires ExecTxs(m, loc, shardNum, shard, txs).Some?
    requires forall i :: 0 <= i < |txs| ==>
      Touched(txs[i]) <= h && RelayAtHome(loc, shardNum, shard, txs[i]) && TxType(txs[i]) != BrokerTx
    requires Worth(h, m) + InValues(txs) < UINT256
    ensures Worth(h, ExecTxs(m, loc, shardNum, shard, txs).value) == Worth(h, m) + InValues(txs) - OutValues(txs)
  {
    if txs != [] {
      var front := txs[..|txs| - 1];
      ExecutedValuesFit(m, loc, shardNum, shard, txs);
      ExecutedValuesFit(m, loc, shardNum, shard, front);
      ExecTxsValue(h, m, loc, shardNum, shard, front);
      ExecTxValue(h, ExecTxs(m, loc, shardNum, shard, front).value, loc, shardNum, shard, txs[|txs| - 1]);
    }
  }

  /** Clearing an emptied account makes it worth the initial balance again at its next touch: this is
      the only way a block commit creates value. */
  lemma ClearedWorth(h: set<Address>, m: Accounts)
    ensures Worth(h, ClearEmpty(m)) == Worth(h, m) + INIT_BALANCE * |Emptied(h, m)|
  {
    var gain := a => if a in Emptied(h, m) then INIT_BALANCE else 0;
    SumPlus(h, a => BalanceOf(m, a), gain, a => BalanceOf(ClearEmpty(m), a));
    SumSplit(h, Emptied(h, m), gain);
    SumScaled(Emptied(h, m), gain, INIT_BALANCE);
    SumScaled(h - Emptied(h, m), gain, 0);
  }

  function Emptied(h: set<Address>, m: Accounts): set<Address>
  {
    set a | a in h && a in m && EmptyAccount(m[a])
  }
}
