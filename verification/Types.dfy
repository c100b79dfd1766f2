/** Values shared by the whole model: addresses, transactions, account states and the default
    location rule. */
module Types {

  datatype Option<+T> = None | Some(value: T)

  /** The next key of a map iteration, whose order the language leaves open. */
  method AnyOf<T(==)>(keys: set<T>) returns (k: T)
    requires keys != {}
    ensures k in keys
  {
    k :| k in keys;
  }

  /** The type of the source's shard and node numbers. */
  type Int64 = x: int | -0x8000_0000_0000_0000 <= x < 0x8000_0000_0000_0000

  /** A 20-byte address read as a big-endian number. */
  type Address = nat

  /** Balance of an ordinary account and of a broker account that no one has touched yet. */
  const INIT_BALANCE: nat := 1_000_000_000_000_000_000_000_000_000_000_000_000
  const BROKER_INIT_BALANCE: nat := 1_000_000_000_000_000_000_000_000_000_000_000_000

  /** The most blocks one catch-up answer may hold. */
  const BLOCKS_FETCH_LIMIT: int := 100

  /** Balances in the state database are 256-bit words. */
  const UINT256: nat := 0x1_0000_0000_0000_0000_0000_0000_0000_0000_0000_0000_0000_0000_0000_0000_0000_0000

  const UINT32: nat := 0x1_0000_0000

  const UNDETERMINED: nat := 0
  const RELAY1: nat := 1
  const RELAY2: nat := 2

  const RAW: nat := 0
  const SIGMA1: nat := 1
  const SIGMA2: nat := 2

  /** A hash is the thing it was taken of, which makes hashing injective; `NoHash` is the empty
      byte string of a transaction that carries no original hash. */
  datatype TxHash = NoHash | HashOf(tx: Transaction)

  /** `tag` stands for the fields the shards only carry along: nonce, fee, gas, signature, time. */
  datatype Transaction = Transaction(
    sender: Address,
    recipient: Address,
    value: int,
    tag: nat,
    data: seq<nat>,
    relayStage: nat,
    rHash: TxHash,
    brokerStage: nat,
    broker: Address,
    bHash: TxHash,
    brokerNonce: nat)

  datatype TxKind = NormalTx | RelayTx | BrokerTx | CreateContractTx | CallContractTx

  const EMPTY_ADDRESS: Address := 0

  function TxType(tx: Transaction): TxKind
  {
    if tx.bHash != NoHash then BrokerTx
    else if tx.rHash != NoHash then RelayTx
    else if tx.data == [] then NormalTx
    else if tx.recipient == EMPTY_ADDRESS then CreateContractTx
    else CallContractTx
  }

  /** An account of the state database. */
  datatype Account = Account(balance: nat, nonce: nat)

  type Accounts = map<Address, Account>

  /** An account state on its way between shards. */
  datatype State = State(balance: nat, nonce: nat, location: int)

  function NewState(location: int): State
  {
    State(INIT_BALANCE, 0, location)
  }

  /** The shard named by the last four bytes of the address. */
  function DefaultAccountLoc(a: Address, shardNum: int): (shard: int)
    requires shardNum > 0
    ensures 0 <= shard < shardNum
  {
    a % UINT32 % shardNum
  }

  /** A location map holds entries for moved accounts over the default rule. */
  function LocOf(loc: map<Address, int>, a: Address, shardNum: int): int
    requires shardNum > 0
  {
    if a in loc then loc[a] else DefaultAccountLoc(a, shardNum)
  }

  /** What the account is worth: one that does not exist holds the initial balance. */
  function BalanceOf(m: Accounts, a: Address): nat
  {
    if a in m then m[a].balance else INIT_BALANCE
  }

  function NonceOf(m: Accounts, a: Address): nat
  {
    if a in m then m[a].nonce else 0
  }

  /** With the last four bytes of an address given one by one, its default shard is the number they spell,
      modulo the number of shards; the other bytes do not matter. */
  lemma DefaultLocOfBytes(others: nat, b3: nat, b2: nat, b1: nat, b0: nat, shardNum: int)
    requires shardNum > 0 && b3 < 256 && b2 < 256 && b1 < 256 && b0 < 256
    ensures var last := b3 * 0x100_0000 + b2 * 0x1_0000 + b1 * 0x100 + b0;
      DefaultAccountLoc(others * 0x1_0000_0000 + last, shardNum) == last % shardNum
  {
    var last := b3 * 0x100_0000 + b2 * 0x1_0000 + b1 * 0x100 + b0;
    assert (others * UINT32 + last) % UINT32 == last;
  }

  /** The state read for hand-over, or the default state when the account does not exist. */
  function ReadState(m: Accounts, a: Address, location: int): State
  {
    if a in m then State(m[a].balance, m[a].nonce, location) else NewState(location)
  }

  /** What is read for hand-over is the balance and the nonce, those of an untouched account if there is
      none. */
  lemma ReadStateExactly(m: Accounts, a: Address, location: int)
    ensures ReadState(m, a, location) == State(BalanceOf(m, a), NonceOf(m, a), location)
  {
  }
}
