/** The ledger of the static broker committee (supervisor/committee/staticbroker.go): what the
    supervisor believes each broker holds in each shard, and what it has promised of that. */
module StaticBrokers {
  import opened Types
  import opened Sums
  import opened Brokers

  /** Balances and pending deductions by broker and shard. */
  datatype Ledger = Ledger(book: Book, balances: map<Address, seq<int>>, pending: map<Address, seq<int>>)

  ghost predicate Shaped(l: Ledger, n: nat)
  {
    && n > 0 && l.balances.Keys == l.pending.Keys == l.book.nonces.Keys
    && forall b :: b in l.balances ==> |l.balances[b]| == |l.pending[b]| == n
  }

  function Initial(brokers: set<Address>, n: nat): Ledger
  {
    Ledger(Brokers.Fresh(brokers), map b | b in brokers :: seq(n, _ => BROKER_INIT_BALANCE),
      map b | b in brokers :: seq(n, _ => 0))
  }

  function Adjust(m: map<Address, seq<int>>, b: Address, k: nat, v: int): map<Address, seq<int>>
    requires b in m && k < |m[b]|
  {
    m[b := m[b][k := m[b][k] + v]]
  }

  // ---------------------------------------------------------------------------------------------
  // Reserving
  // ---------------------------------------------------------------------------------------------

  predicate Affordable(l: Ledger, b: Address, k: nat, v: int)
    requires b in l.balances && b in l.pending && k < |l.balances[b]| && k < |l.pending[b]|
  {
    l.balances[b][k] - l.pending[b][k] >= v
  }

  /** One broker: if it can afford the value, that is reserved, and stays so even if the raw transaction
      is then refused. */
  function TriedOne(l: Ledger, n: nat, tx: Transaction, b: Address): (Ledger, bool)
    requires Shaped(l, n) && b in l.balances
  {
    var k := DefaultAccountLoc(tx.recipient, n);
    if !Affordable(l, b, k, tx.value) then (l, false) else
    var l1 := l.(pending := Adjust(l.pending, b, k, tx.value));
    if Creatable(l1.book, tx, b) then (l1.(book := Created(l1.book, tx, b)), true) else (l1, false)
  }

  lemma TriedOneShaped(l: Ledger, n: nat, tx: Transaction, b: Address)
    requires Shaped(l, n) && b in l.balances
    ensures Shaped(TriedOne(l, n, tx, b).0, n) && TriedOne(l, n, tx, b).0.balances == l.balances
  {
  }

  /** Tries the brokers in the given order until one takes the transaction. */
  function Tried(l: Ledger, n: nat, tx: Transaction, order: seq<Address>): (Ledger, bool)
    requires Shaped(l, n) && forall b :: b in order ==> b in l.balances
    decreases |order|
  {
    if order == [] then (l, false) else
    var (after, taken) := TriedOne(l, n, tx, order[0]);
    TriedOneShaped(l, n, tx, order[0]);
    if taken then (after, true) else Tried(after, n, tx, order[1..])
  }

  /** What becomes of a transaction no broker takes. */
  function FallBack(tx: Transaction): Transaction
  {
    tx.(relayStage := RELAY1, rHash := HashOf(tx))
  }

  // ---------------------------------------------------------------------------------------------
  // Confirming
  // ---------------------------------------------------------------------------------------------

  /** The broker has received the value in the sender's shard. */
  function Received(l: Ledger, n: nat, tx: Transaction, shard: nat): Ledger
    requires Shaped(l, n) && shard < n
  {
    if !Confirms(l.book, tx) then l
    else l.(book := Confirmed(l.book, tx), balances := Adjust(l.balances, tx.broker, shard, tx.value))
  }

  function Cleared(m: map<Address, seq<int>>, b: Address, k: nat, v: int): map<Address, seq<int>>
    requires b in m && k < |m[b]|
  {
    m[b := m[b][k := if m[b][k] - v < 0 then 0 else m[b][k] - v]]
  }

  /** The broker has paid in the recipient's shard; a pending deduction below zero is set to zero. */
  function Paid(l: Ledger, n: nat, tx: Transaction, shard: nat): Ledger
    requires Shaped(l, n) && shard < n
  {
    if !Confirms(l.book, tx) then l
    else l.(book := Confirmed(l.book, tx),
            balances := Adjust(l.balances, tx.broker, shard, -tx.value),
            pending := Cleared(l.pending, tx.broker, shard, tx.value))
  }

  lemma StaysShaped(l: Ledger, n: nat, tx: Transaction, shard: nat)
    requires Shaped(l, n) && shard < n
    ensures Shaped(Received(l, n, tx, shard), n) && Shaped(Paid(l, n, tx, shard), n)
  {
  }

  lemma {:induction false} TriedShaped(l: Ledger, n: nat, tx: Transaction, order: seq<Address>)
    requires Shaped(l, n) && forall b :: b in order ==> b in l.balances
    ensures Shaped(Tried(l, n, tx, order).0, n) && Tried(l, n, tx, order).0.balances == l.balances
    decreases |order|
  {
    if order != [] {
      assert order[0] in order && forall x :: x in order[1..] ==> x in order;
      TriedOneShaped(l, n, tx, order[0]);
      TriedShaped(TriedOne(l, n, tx, order[0]).0, n, tx, order[1..]);
    }
  }

  // ---------------------------------------------------------------------------------------------
  // Solvency
  // ---------------------------------------------------------------------------------------------

  /** What the recorded transaction `h` will cost broker `b` in shard `k`. */
  function ReservedBy(book: Book, n: nat, b: Address, k: nat, h: TxHash): int
    requires n > 0
  {
    if h in book.unconfirmed && book.unconfirmed[h].raw.broker == b
      && DefaultAccountLoc(book.unconfirmed[h].raw.recipient, n) == k
    then book.unconfirmed[h].raw.value else 0
  }

  ghost function Outstanding(book: Book, n: nat, b: Address, k: nat): int
    requires n > 0
  {
    Sum(book.unconfirmed.Keys, (h: TxHash) => ReservedBy(book, n, b, k, h))
  }

  ghost predicate ValuesOk(book: Book)
  {
    forall h :: h in book.unconfirmed ==> book.unconfirmed[h].raw.value >= 0
  }

  /** Everything promised is covered: outstanding values <= pending deductions <= balance. */
  ghost predicate Solvent(l: Ledger, n: nat)
  {
    && Shaped(l, n) && ValuesOk(l.book)
    && forall b, k :: b in l.balances && 0 <= k < n ==> Covered(l, n, b, k)
  }

  ghost predicate Covered(l: Ledger, n: nat, b: Address, k: nat)
    requires n > 0 && b in l.balances && b in l.pending && k < |l.balances[b]| && k < |l.pending[b]|
  {
    Outstanding(l.book, n, b, k) <= l.pending[b][k] <= l.balances[b][k]
  }

  lemma OutstandingBounds(book: Book, n: nat, b: Address, k: nat)
    requires n > 0 && ValuesOk(book)
    ensures Outstanding(book, n, b, k) >= 0
    ensures forall h :: h in book.unconfirmed ==> ReservedBy(book, n, b, k, h) <= Outstanding(book, n, b, k)
  {
    SumNonNegative(book.unconfirmed.Keys, (h: TxHash) => ReservedBy(book, n, b, k, h));
  }

  /** Creating adds the value at the broker and the recipient's shard, and nothing elsewhere. */
  lemma CreatingReserves(book: Book, n: nat, tx: Transaction, c: Address, b: Address, k: nat)
    requires n > 0 && Creatable(book, tx, c)
    ensures Outstanding(Created(book, tx, c), n, b, k)
      == Outstanding(book, n, b, k) + if b == c && DefaultAccountLoc(tx.recipient, n) == k then tx.value else 0
  {
    var after, h0 := Created(book, tx, c), HashOf(tx);
    SumRemove(after.unconfirmed.Keys, (h: TxHash) => ReservedBy(after, n, b, k, h), h0);
    assert after.unconfirmed.Keys - {h0} == book.unconfirmed.Keys;
    SumCongruent(book.unconfirmed.Keys, (h: TxHash) => ReservedBy(book, n, b, k, h),
      (h: TxHash) => ReservedBy(after, n, b, k, h));
  }

  /** The first confirmation changes nothing outstanding, the second takes the value off. */
  lemma ConfirmingReleases(book: Book, n: nat, tx: Transaction, b: Address, k: nat)
    requires n > 0 && Confirms(book, tx)
    ensures Outstanding(Confirmed(book, tx), n, b, k)
      == Outstanding(book, n, b, k) - if tx.brokerStage == SIGMA2 then ReservedBy(book, n, b, k, tx.bHash) else 0
  {
    var after := Confirmed(book, tx);
    if book.unconfirmed[tx.bHash].wait == WaitConfirm1 {
      assert after.unconfirmed.Keys == book.unconfirmed.Keys;
      SumCongruent(book.unconfirmed.Keys, (h: TxHash) => ReservedBy(book, n, b, k, h),
        (h: TxHash) => ReservedBy(after, n, b, k, h));
    } else {
      SumRemove(book.unconfirmed.Keys, (h: TxHash) => ReservedBy(book, n, b, k, h), tx.bHash);
      assert after.unconfirmed.Keys == book.unconfirmed.Keys - {tx.bHash};
      SumCongruent(after.unconfirmed.Keys, (h: TxHash) => ReservedBy(book, n, b, k, h),
        (h: TxHash) => ReservedBy(after, n, b, k, h));
    }
  }

  /** The distance between what is pending and what is outstanding. */
  ghost function Slack(l: Ledger, n: nat, b: Address, k: nat): int
    requires n > 0 && b in l.pending && k < |l.pending[b]|
  {
    l.pending[b][k] - Outstanding(l.book, n, b, k)
  }

  /** Reserving keeps everything covered, whatever the order of the brokers and even if the raw
      transaction is refused. */
  lemma {:induction false} TriedSolvent(l: Ledger, n: nat, tx: Transaction, order: seq<Address>)
    requires Solvent(l, n) && tx.value >= 0 && forall b :: b in order ==> b in l.balances
    ensures Solvent(Tried(l, n, tx, order).0, n)
    decreases |order|
  {
    if order != [] {
      var c, j := order[0], DefaultAccountLoc(tx.recipient, n);
      assert c in order && forall x :: x in order[1..] ==> x in order;
      TriedOneShaped(l, n, tx, c);
      if Affordable(l, c, j, tx.value) {
        ReservedSolvent(l, n, tx, c);
        if Creatable(l.book, tx, c) {
          TakenSolvent(l, n, tx, c);
        }
      }
      TriedSolvent(TriedOne(l, n, tx, c).0, n, tx, order[1..]);
    }
  }

  lemma ReservedSolvent(l: Ledger, n: nat, tx: Transaction, c: Address)
    requires Solvent(l, n) && tx.value >= 0 && c in l.balances
    requires Affordable(l, c, DefaultAccountLoc(tx.recipient, n), tx.value)
    ensures Solvent(l.(pending := Adjust(l.pending, c, DefaultAccountLoc(tx.recipient, n), tx.value)), n)
  {
    var l1 := l.(pending := Adjust(l.pending, c, DefaultAccountLoc(tx.recipient, n), tx.value));
    forall b, k | b in l1.balances && 0 <= k < n
      ensures Covered(l1, n, b, k)
    {
      assert Covered(l, n, b, k);
    }
  }

  lemma TakenSolvent(l: Ledger, n: nat, tx: Transaction, c: Address)
    requires Solvent(l, n) && tx.value >= 0 && c in l.balances && Creatable(l.book, tx, c)
    requires Affordable(l, c, DefaultAccountLoc(tx.recipient, n), tx.value)
    ensures Solvent(l.(pending := Adjust(l.pending, c, DefaultAccountLoc(tx.recipient, n), tx.value),
      book := Created(l.book, tx, c)), n)
  {
    var l1 := l.(pending := Adjust(l.pending, c, DefaultAccountLoc(tx.recipient, n), tx.value),
      book := Created(l.book, tx, c));
    assert l1.book.nonces.Keys == l.book.nonces.Keys;
    forall b, k | b in l1.balances && 0 <= k < n
      ensures Covered(l1, n, b, k)
    {
      assert Covered(l, n, b, k);
      CreatingReserves(l.book, n, tx, c, b, k);
    }
  }

  /** An accepted confirmation repeats what was emitted, from the shard it was sent to. */
  predicate Echoes(book: Book, n: nat, tx: Transaction, shard: int)
    requires n > 0
  {
    Confirms(book, tx) ==>
      var raw := book.unconfirmed[tx.bHash].raw;
      && tx == raw.(brokerStage := tx.brokerStage)
      && shard == DefaultAccountLoc(if tx.brokerStage == SIGMA1 then raw.sender else raw.recipient, n)
  }

  lemma ReceivedSolvent(l: Ledger, n: nat, tx: Transaction, shard: nat)
    requires Solvent(l, n) && shard < n && tx.brokerStage == SIGMA1 && Echoes(l.book, n, tx, shard)
    ensures Solvent(Received(l, n, tx, shard), n)
  {
    if Confirms(l.book, tx) {
      var l1 := Received(l, n, tx, shard);
      StaysShaped(l, n, tx, shard);
      forall b, k | b in l1.balances && 0 <= k < n
        ensures Covered(l1, n, b, k)
      {
        assert Covered(l, n, b, k);
        ConfirmingReleases(l.book, n, tx, b, k);
      }
    }
  }

  /** Paying keeps everything covered, and the pending deduction never has to be set to zero. */
  lemma PaidSolvent(l: Ledger, n: nat, tx: Transaction, shard: nat)
    requires Solvent(l, n) && shard < n && tx.brokerStage == SIGMA2 && Echoes(l.book, n, tx, shard)
    ensures Solvent(Paid(l, n, tx, shard), n)
    ensures Confirms(l.book, tx) ==> l.pending[tx.broker][shard] >= tx.value
  {
    if Confirms(l.book, tx) {
      assert Covered(l, n, tx.broker, shard);
      OutstandingBounds(l.book, n, tx.broker, shard);
      assert ReservedBy(l.book, n, tx.broker, shard, tx.bHash) == tx.value;
      PaidCovered(l, n, tx, shard);
    }
  }

  /** Whatever is confirmed, solvent or not, no pending deduction becomes negative, and one that covers the
      value goes down by exactly that. */
  lemma PaidStaysPending(l: Ledger, n: nat, tx: Transaction, shard: nat, b: Address, k: nat)
    requires Shaped(l, n) && shard < n && b in l.pending && k < n && l.pending[b][k] >= 0
    ensures var after := Paid(l, n, tx, shard);
      && b in after.pending && k < |after.pending[b]| && after.pending[b][k] >= 0
      && (Confirms(l.book, tx) && tx.broker == b && shard == k && tx.value <= l.pending[b][k] ==>
            after.pending[b][k] == l.pending[b][k] - tx.value)
      && (tx.broker != b || shard != k ==> after.pending[b][k] == l.pending[b][k])
  {
  }

  lemma PaidCovered(l: Ledger, n: nat, tx: Transaction, shard: nat)
    requires Solvent(l, n) && shard < n && tx.brokerStage == SIGMA2 && Confirms(l.book, tx)
    requires Echoes(l.book, n, tx, shard)
    requires l.pending[tx.broker][shard] >= tx.value
    ensures Solvent(Paid(l, n, tx, shard), n)
  {
    var l1 := Paid(l, n, tx, shard);
    StaysShaped(l, n, tx, shard);
    forall b, k | b in l1.balances && 0 <= k < n
      ensures Covered(l1, n, b, k)
    {
      assert Covered(l, n, b, k);
      ConfirmingReleases(l.book, n, tx, b, k);
    }
  }

  // ---------------------------------------------------------------------------------------------
  // Over whole runs
  // ---------------------------------------------------------------------------------------------

  datatype LedgerEvent =
    | Inject(tx: Transaction, order: seq<Address>)
    | Flush
    | Report(tx: Transaction, shard: nat)

  ghost predicate Legal(l: Ledger, n: nat, e: LedgerEvent)
    requires Shaped(l, n)
  {
    match e
    case Inject(tx, order) => tx.value >= 0 && forall b :: b in order ==> b in l.balances
    case Flush => true
    case Report(tx, shard) =>
      shard < n && (tx.brokerStage == SIGMA1 || tx.brokerStage == SIGMA2) && Echoes(l.book, n, tx, shard)
  }

  function AfterLedger(l: Ledger, n: nat, e: LedgerEvent): Ledger
    requires Shaped(l, n) && Legal(l, n, e)
  {
    match e
    case Inject(tx, order) => Tried(l, n, tx, order).0
    case Flush => l.(book := Flushed(l.book))
    case Report(tx, shard) => if tx.brokerStage == SIGMA1 then Received(l, n, tx, shard) else Paid(l, n, tx, shard)
  }

  ghost predicate LedgerRun(brokers: set<Address>, n: nat, ls: seq<Ledger>, es: seq<LedgerEvent>)
  {
    && n > 0 && |ls| == |es| + 1 && ls[0] == Initial(brokers, n)
    && forall k :: 0 <= k < |es| ==> LedgerStep(n, ls, es, k)
  }

  ghost predicate LedgerStep(n: nat, ls: seq<Ledger>, es: seq<LedgerEvent>, k: nat)
    requires |ls| == |es| + 1 && k < |es|
  {
    Shaped(ls[k], n) && Legal(ls[k], n, es[k]) && ls[k + 1] == AfterLedger(ls[k], n, es[k])
  }

  /** The value that an event has broker `b` receive, or pay, in shard `k`: that of an accepted first, or
      second, half. */
  function Booked(l: Ledger, e: LedgerEvent, b: Address, k: nat, stage: nat): int
  {
    if e.Report? && Confirms(l.book, e.tx) && e.tx.brokerStage == stage && e.tx.broker == b
      && e.shard == k then e.tx.value
    else 0
  }

  function BookedSum(ls: seq<Ledger>, es: seq<LedgerEvent>, b: Address, k: nat, stage: nat): int
    requires |ls| > |es|
  {
    if es == [] then 0 else
    BookedSum(ls, es[..|es| - 1], b, k, stage) + Booked(ls[|es| - 1], es[|es| - 1], b, k, stage)
  }

  lemma BalanceStep(l: Ledger, n: nat, e: LedgerEvent, b: Address, k: nat)
    requires Shaped(l, n) && Legal(l, n, e) && b in l.balances && k < n
    ensures var after := AfterLedger(l, n, e);
      && Shaped(after, n) && b in after.balances
      && after.balances[b][k] == l.balances[b][k] + Booked(l, e, b, k, SIGMA1) - Booked(l, e, b, k, SIGMA2)
  {
    match e {
      case Inject(tx, order) => TriedShaped(l, n, tx, order);
      case Flush =>
      case Report(tx, shard) => StaysShaped(l, n, tx, shard);
    }
  }

  /** In every run the balance the supervisor keeps of a broker in a shard is the initial one, plus the
      values of the first halves confirmed from there, minus those of the second. */
  lemma {:induction false} BalanceIsBooked(brokers: set<Address>, n: nat, ls: seq<Ledger>, es: seq<LedgerEvent>, m: nat,
      b: Address, k: nat)
    requires LedgerRun(brokers, n, ls, es) && m <= |es| && b in brokers && k < n
    ensures Shaped(ls[m], n) && b in ls[m].balances
    ensures ls[m].balances[b][k]
      == BROKER_INIT_BALANCE + BookedSum(ls, es[..m], b, k, SIGMA1) - BookedSum(ls, es[..m], b, k, SIGMA2)
  {
    if m > 0 {
      BalanceIsBooked(brokers, n, ls, es, m - 1, b, k);
      assert LedgerStep(n, ls, es, m - 1);
      assert es[..m][..m - 1] == es[..m - 1];
      BalanceStep(ls[m - 1], n, es[m - 1], b, k);
    }
  }

  lemma InitialSolvent(brokers: set<Address>, n: nat)
    requires n > 0
    ensures Solvent(Initial(brokers, n), n)
  {
  }

  lemma FlushSolvent(l: Ledger, n: nat)
    requires Solvent(l, n)
    ensures Solvent(l.(book := Flushed(l.book)), n)
  {
    var l1 := l.(book := Flushed(l.book));
    forall b, k | b in l1.balances && 0 <= k < n
      ensures Covered(l1, n, b, k)
    {
      assert Covered(l, n, b, k);
      SumCongruent(l.book.unconfirmed.Keys, (h: TxHash) => ReservedBy(l.book, n, b, k, h),
        (h: TxHash) => ReservedBy(l1.book, n, b, k, h));
    }
  }

  lemma EventSolvent(l: Ledger, n: nat, e: LedgerEvent)
    requires Solvent(l, n) && Legal(l, n, e)
    ensures Solvent(AfterLedger(l, n, e), n)
  {
    match e {
      case Inject(tx, order) => TriedSolvent(l, n, tx, order);
      case Flush => FlushSolvent(l, n);
      case Report(tx, shard) =>
        if tx.brokerStage == SIGMA1 {
          ReceivedSolvent(l, n, tx, shard);
        } else {
          PaidSolvent(l, n, tx, shard);
        }
    }
  }

  /** In every reachable state, for every broker and shard, what is pending covers everything
      outstanding and is covered by the balance, so no balance is ever negative. */
  lemma {:induction false} AlwaysSolvent(brokers: set<Address>, n: nat, ls: seq<Ledger>, es: seq<LedgerEvent>, k: nat)
    requires LedgerRun(brokers, n, ls, es) && k < |ls|
    ensures Solvent(ls[k], n)
    ensures forall b, j :: b in ls[k].balances && 0 <= j < n ==>
      b in ls[k].pending && |ls[k].balances[b]| == |ls[k].pending[b]| == n
        && 0 <= ls[k].pending[b][j] <= ls[k].balances[b][j]
  {
    if k == 0 {
      InitialSolvent(brokers, n);
    } else {
      AlwaysSolvent(brokers, n, ls, es, k - 1);
      assert LedgerStep(n, ls, es, k - 1);
      EventSolvent(ls[k - 1], n, es[k - 1]);
    }
    forall b, j | b in ls[k].balances && 0 <= j < n
      ensures 0 <= ls[k].pending[b][j] <= ls[k].balances[b][j]
    {
      assert Covered(ls[k], n, b, j);
      OutstandingBounds(ls[k].book, n, b, j);
    }
  }
}
