/** The broker manager (pkg/broker/broker.go): a cross-shard transaction goes through a broker in two
    halves, the second only after the first is confirmed. */
module Brokers {
  import opened Types

  datatype Wait = WaitConfirm1 | WaitConfirm2

  datatype Info = Info(raw: Transaction, wait: Wait)

  /** The manager as a value. */
  datatype Book = Book(nonces: map<Address, nat>, unconfirmed: map<TxHash, Info>, ready1: seq<TxHash>,
    ready2: seq<TxHash>)

  function Fresh(brokers: set<Address>): Book
  {
    Book(map b | b in brokers :: 0, map[], [], [])
  }

  function RawOf(m: Book, tx: Transaction, b: Address): Transaction
    requires b in m.nonces
  {
    tx.(brokerStage := RAW, broker := b, bHash := HashOf(tx), brokerNonce := m.nonces[b] + 1)
  }

  /** Refused for an address that is no broker and for a transaction still under way. */
  predicate Creatable(m: Book, tx: Transaction, b: Address)
  {
    b in m.nonces && HashOf(tx) !in m.unconfirmed
  }

  function Created(m: Book, tx: Transaction, b: Address): Book
    requires Creatable(m, tx, b)
  {
    var h := HashOf(tx);
    Book(m.nonces[b := m.nonces[b] + 1], m.unconfirmed[h := Info(RawOf(m, tx, b), WaitConfirm1)], m.ready1 + [h],
      m.ready2)
  }

  predicate Recorded(m: Book, h: TxHash, wait: Wait)
  {
    h in m.unconfirmed && m.unconfirmed[h].wait == wait
  }

  /** The half transactions made for the listed hashes; a hash not recorded at the stage is skipped. */
  function Halves(m: Book, hs: seq<TxHash>, wait: Wait, stage: nat): seq<Transaction>
  {
    if hs == [] then [] else
    var front, h := Halves(m, hs[..|hs| - 1], wait, stage), hs[|hs| - 1];
    if Recorded(m, h, wait) then front + [m.unconfirmed[h].raw.(brokerStage := stage)] else front
  }

  function Flushed(m: Book): Book
  {
    m.(ready1 := [], ready2 := [])
  }

  function StageFor(wait: Wait): nat
  {
    match wait
    case WaitConfirm1 => SIGMA1
    case WaitConfirm2 => SIGMA2
  }

  /** A confirmation counts for a recorded transaction and the half it waits for. */
  predicate Confirms(m: Book, tx: Transaction)
  {
    tx.broker in m.nonces && tx.bHash in m.unconfirmed && tx.brokerStage == StageFor(m.unconfirmed[tx.bHash].wait)
  }

  function Confirmed(m: Book, tx: Transaction): Book
    requires Confirms(m, tx)
  {
    var info := m.unconfirmed[tx.bHash];
    match info.wait
    case WaitConfirm1 => m.(unconfirmed := m.unconfirmed[tx.bHash := info.(wait := WaitConfirm2)],
      ready2 := m.ready2 + [tx.bHash])
    case WaitConfirm2 => m.(unconfirmed := m.unconfirmed - {tx.bHash})
  }

  predicate Finished(m: Book)
  {
    m.unconfirmed == map[] && m.ready1 == [] && m.ready2 == []
  }

  // ---------------------------------------------------------------------------------------------
  // The manager
  // ---------------------------------------------------------------------------------------------

  class Manager {
    var broker2Nonce: map<Address, nat>
    var unconfirmedTxInfo: map<TxHash, Info>
    var readyBroker1TxHashes: seq<TxHash>
    var readyBroker2TxHashes: seq<TxHash>

    function Value(): Book
      reads this
    {
      Book(broker2Nonce, unconfirmedTxInfo, readyBroker1TxHashes, readyBroker2TxHashes)
    }

    constructor (brokers: set<Address>)
      ensures Value() == Fresh(brokers)
    {
      broker2Nonce := map b | b in brokers :: 0;
      unconfirmedTxInfo := map[];
      readyBroker1TxHashes := [];
      readyBroker2TxHashes := [];
    }

    predicate IsBroker(a: Address)
      reads this
    {
      a in broker2Nonce
    }

    method CreateRawTx(tx: Transaction, brokerAddr: Address) returns (r: Option<Transaction>)
      modifies this
      ensures r.Some? == Creatable(old(Value()), tx, brokerAddr)
      ensures r.None? ==> Value() == old(Value())
      ensures r.Some? ==>
        r.value == RawOf(old(Value()), tx, brokerAddr) && Value() == Created(old(Value()), tx, brokerAddr)
    {
      var th := HashOf(tx);
      if !IsBroker(brokerAddr) {
        return None;
      }
      if th in unconfirmedTxInfo {
        return None;
      }
      broker2Nonce := broker2Nonce[brokerAddr := broker2Nonce[brokerAddr] + 1];
      var rawTx := tx.(brokerStage := RAW, broker := brokerAddr, bHash := th, brokerNonce := broker2Nonce[brokerAddr]);
      unconfirmedTxInfo := unconfirmedTxInfo[th := Info(rawTx, WaitConfirm1)];
      readyBroker1TxHashes := readyBroker1TxHashes + [th];
      return Some(rawTx);
    }

    method CreateBrokerTxs() returns (b1Txs: seq<Transaction>, b2Txs: seq<Transaction>)
      modifies this
      ensures b1Txs == Halves(old(Value()), old(readyBroker1TxHashes), WaitConfirm1, SIGMA1)
      ensures b2Txs == Halves(old(Value()), old(readyBroker2TxHashes), WaitConfirm2, SIGMA2)
      ensures Value() == Flushed(old(Value()))
    {
      b1Txs := CreateHalves(readyBroker1TxHashes, WaitConfirm1, SIGMA1);
      b2Txs := CreateHalves(readyBroker2TxHashes, WaitConfirm2, SIGMA2);
      readyBroker1TxHashes := [];
      readyBroker2TxHashes := [];
    }

    method CreateHalves(hs: seq<TxHash>, wait: Wait, stage: nat) returns (txs: seq<Transaction>)
      ensures txs == Halves(Value(), hs, wait, stage)
    {
      txs := [];
      for i := 0 to |hs|
        invariant txs == Halves(Value(), hs[..i], wait, stage)
      {
        assert hs[..i + 1][..i] == hs[..i];
        if hs[i] !in unconfirmedTxInfo || unconfirmedTxInfo[hs[i]].wait != wait {
          continue;
        }
        txs := txs + [unconfirmedTxInfo[hs[i]].raw.(brokerStage := stage)];
      }
      assert hs[..|hs|] == hs;
    }

    method ConfirmBrokerTx(tx: Transaction) returns (ok: bool)
      modifies this
      ensures ok == Confirms(old(Value()), tx)
      ensures Value() == if ok then Confirmed(old(Value()), tx) else old(Value())
    {
      if !IsBroker(tx.broker) {
        return false;
      }
      if tx.bHash !in unconfirmedTxInfo {
        return false;
      }
      var info := unconfirmedTxInfo[tx.bHash];
      match info.wait {
        case WaitConfirm1 =>
          if tx.brokerStage != SIGMA1 {
            return false;
          }
          unconfirmedTxInfo := unconfirmedTxInfo[tx.bHash := info.(wait := WaitConfirm2)];
          readyBroker2TxHashes := readyBroker2TxHashes + [tx.bHash];
        case WaitConfirm2 =>
          if tx.brokerStage != SIGMA2 {
            return false;
          }
          unconfirmedTxInfo := unconfirmedTxInfo - {tx.bHash};
      }
      return true;
    }

    method IsFinished() returns (finished: bool)
      ensures finished == Finished(Value())
    {
      finished := |unconfirmedTxInfo| == 0 && |readyBroker1TxHashes| == 0 && |readyBroker2TxHashes| == 0;
    }
  }

  // ---------------------------------------------------------------------------------------------
  // Consistency of the book
  // ---------------------------------------------------------------------------------------------

  ghost predicate Distinct(hs: seq<TxHash>)
  {
    forall i, j :: 0 <= i < j < |hs| ==> hs[i] != hs[j]
  }

  /** The ready lists hold each hash once and only at its stage; every record is filed under the hash of
      its transaction, for a broker. */
  ghost predicate Consistent(m: Book)
  {
    && Distinct(m.ready1) && Distinct(m.ready2)
    && (forall h :: h in m.ready1 ==> Recorded(m, h, WaitConfirm1))
    && (forall h :: h in m.ready2 ==> Recorded(m, h, WaitConfirm2))
    && forall h :: h in m.unconfirmed ==> m.unconfirmed[h].raw.bHash == h && m.unconfirmed[h].raw.broker in m.nonces
  }

  /** The half the record waits for has been emitted. */
  predicate Awaited(m: Book, h: TxHash)
  {
    h !in m.ready1 && h !in m.ready2
  }

  lemma CreatingKeeps(m: Book, tx: Transaction, b: Address)
    requires Consistent(m) && Creatable(m, tx, b)
    ensures Consistent(Created(m, tx, b))
  {
    NotReady(m, HashOf(tx));
  }

  /** Only recorded transactions are on the ready lists. */
  lemma NotReady(m: Book, h: TxHash)
    requires Consistent(m)
    ensures h !in m.unconfirmed ==> h !in m.ready1 && h !in m.ready2
    ensures Recorded(m, h, WaitConfirm1) ==> h !in m.ready2
    ensures Recorded(m, h, WaitConfirm2) ==> h !in m.ready1
  {
  }

  /** Emitting makes exactly one half for every hash on the ready lists. */
  lemma {:induction false} HalvesComplete(m: Book, hs: seq<TxHash>, wait: Wait, stage: nat)
    requires forall h :: h in hs ==> Recorded(m, h, wait)
    ensures |Halves(m, hs, wait, stage)| == |hs|
    ensures forall i :: 0 <= i < |hs| ==>
      hs[i] in m.unconfirmed && Halves(m, hs, wait, stage)[i] == m.unconfirmed[hs[i]].raw.(brokerStage := stage)
  {
    if hs != [] {
      assert forall h :: h in hs[..|hs| - 1] ==> h in hs;
      assert hs[|hs| - 1] in hs;
      HalvesComplete(m, hs[..|hs| - 1], wait, stage);
    }
  }

  lemma EmittingKeeps(m: Book)
    requires Consistent(m)
    ensures Consistent(Flushed(m))
  {
  }

  /** The code takes a confirmation for a half it has not emitted yet. The book stays consistent exactly
      when it is for one that has been. */
  lemma ConfirmingKeepsExactlyWhen(m: Book, tx: Transaction)
    requires Consistent(m) && Confirms(m, tx)
    ensures Consistent(Confirmed(m, tx)) <==> Awaited(m, tx.bHash)
  {
    var m' := Confirmed(m, tx);
    if Awaited(m, tx.bHash) {
      assert Consistent(m');
    } else if tx.bHash in m.ready1 {
      assert tx.bHash in m'.ready1 && !Recorded(m', tx.bHash, WaitConfirm1);
    } else {
      assert tx.bHash in m'.ready2 && !Recorded(m', tx.bHash, WaitConfirm2);
    }
  }

  // ---------------------------------------------------------------------------------------------
  // The life of a transaction
  // ---------------------------------------------------------------------------------------------

  datatype Event = Create(tx: Transaction, broker: Address) | Emit | Confirm(tx: Transaction)

  /** Everything that has happened: raw transactions created, halves emitted, confirmations accepted. */
  datatype History = History(
    created: seq<Transaction>, emitted1: seq<Transaction>, confirmed1: seq<Transaction>,
    emitted2: seq<Transaction>, confirmed2: seq<Transaction>)

  /** How often a hash occurs as the original hash in a list of broker transactions. */
  function Count(txs: seq<Transaction>, h: TxHash): nat
  {
    if txs == [] then 0 else Count(txs[..|txs| - 1], h) + if txs[|txs| - 1].bHash == h then 1 else 0
  }

  function CountBroker(txs: seq<Transaction>, b: Address): nat
  {
    if txs == [] then 0 else CountBroker(txs[..|txs| - 1], b) + if txs[|txs| - 1].broker == b then 1 else 0
  }

  function AfterBook(m: Book, e: Event): Book
  {
    match e
    case Create(tx, b) => if Creatable(m, tx, b) then Created(m, tx, b) else m
    case Emit => Flushed(m)
    case Confirm(tx) => if Confirms(m, tx) then Confirmed(m, tx) else m
  }

  function AfterHistory(m: Book, hist: History, e: Event): History
  {
    match e
    case Create(tx, b) => if Creatable(m, tx, b) then hist.(created := hist.created + [RawOf(m, tx, b)]) else hist
    case Emit =>
      hist.(emitted1 := hist.emitted1 + Halves(m, m.ready1, WaitConfirm1, SIGMA1),
            emitted2 := hist.emitted2 + Halves(m, m.ready2, WaitConfirm2, SIGMA2))
    case Confirm(tx) =>
      if !Confirms(m, tx) then hist
      else match m.unconfirmed[tx.bHash].wait
           case WaitConfirm1 => hist.(confirmed1 := hist.confirmed1 + [tx])
           case WaitConfirm2 => hist.(confirmed2 := hist.confirmed2 + [tx])
  }

  /** Accepted confirmations are for halves that have been emitted. */
  predicate Proper(m: Book, e: Event)
  {
    e.Confirm? && Confirms(m, e.tx) ==> Awaited(m, e.tx.bHash)
  }

  /** The book and the history after the events, starting with the given brokers and no history. */
  function Play(brokers: set<Address>, es: seq<Event>): (Book, History)
  {
    if es == [] then (Fresh(brokers), History([], [], [], [], [])) else
    var (m, hist) := Play(brokers, es[..|es| - 1]);
    (AfterBook(m, es[|es| - 1]), AfterHistory(m, hist, es[|es| - 1]))
  }

  ghost predicate ProperRun(brokers: set<Address>, es: seq<Event>)
  {
    forall k :: 0 <= k < |es| ==> Proper(Play(brokers, es[..k]).0, es[k])
  }

  /** Where a transaction stands: every count is that of the creations, or one less from the point on
      that the present life has not reached. */
  ghost predicate LifeOk(m: Book, hist: History, h: TxHash)
  {
    var n := Count(hist.created, h);
    && Count(hist.emitted1, h) == (if h in m.ready1 then n - 1 else n)
    && Count(hist.confirmed1, h) == (if Recorded(m, h, WaitConfirm1) then n - 1 else n)
    && Count(hist.emitted2, h) == (if Recorded(m, h, WaitConfirm1) || h in m.ready2 then n - 1 else n)
    && Count(hist.confirmed2, h) == (if h in m.unconfirmed then n - 1 else n)
  }

  ghost predicate LivesOk(m: Book, hist: History)
  {
    Consistent(m) && forall h :: LifeOk(m, hist, h)
  }

  lemma {:induction false} CountAppend(s: seq<Transaction>, t: seq<Transaction>, h: TxHash)
    ensures Count(s + t, h) == Count(s, h) + Count(t, h)
  {
    if t == [] {
      assert s + t == s;
    } else {
      assert (s + t)[..|s + t| - 1] == s + t[..|t| - 1];
      CountAppend(s, t[..|t| - 1], h);
    }
  }

  lemma CountSnoc(s: seq<Transaction>, t: Transaction, h: TxHash)
    ensures Count(s + [t], h) == Count(s, h) + if t.bHash == h then 1 else 0
  {
    assert (s + [t])[..|s|] == s;
  }

  /** The halves made for a duplicate-free list count 1 for each hash on it. */
  lemma {:induction false} CountHalves(m: Book, hs: seq<TxHash>, wait: Wait, stage: nat, h: TxHash)
    requires Distinct(hs) && forall x :: x in hs ==> Recorded(m, x, wait) && m.unconfirmed[x].raw.bHash == x
    ensures Count(Halves(m, hs, wait, stage), h) == if h in hs then 1 else 0
  {
    if hs != [] {
      var front, last := hs[..|hs| - 1], hs[|hs| - 1];
      assert last in hs && forall x :: x in front ==> x in hs;
      assert hs == front + [last];
      CountHalves(m, front, wait, stage, h);
      CountSnoc(Halves(m, front, wait, stage), m.unconfirmed[last].raw.(brokerStage := stage), h);
    }
  }

  lemma CreateLife(m: Book, hist: History, tx: Transaction, b: Address, h: TxHash)
    requires LivesOk(m, hist) && Creatable(m, tx, b)
    ensures LifeOk(Created(m, tx, b), AfterHistory(m, hist, Create(tx, b)), h)
  {
    assert LifeOk(m, hist, h);
    CountSnoc(hist.created, RawOf(m, tx, b), h);
    NotReady(m, h);
    var m', h0 := Created(m, tx, b), HashOf(tx);
    hide Count, Consistent, Distinct;
    assert h in m'.ready1 <==> h in m.ready1 || h == h0;
    assert h == h0 ==> h !in m.unconfirmed;
  }

  lemma EmitLife(m: Book, hist: History, h: TxHash)
    requires LivesOk(m, hist)
    ensures LifeOk(Flushed(m), AfterHistory(m, hist, Emit), h)
  {
    assert LifeOk(m, hist, h);
    CountHalves(m, m.ready1, WaitConfirm1, SIGMA1, h);
    CountHalves(m, m.ready2, WaitConfirm2, SIGMA2, h);
    CountAppend(hist.emitted1, Halves(m, m.ready1, WaitConfirm1, SIGMA1), h);
    CountAppend(hist.emitted2, Halves(m, m.ready2, WaitConfirm2, SIGMA2), h);
  }

  lemma ConfirmFirstLife(m: Book, hist: History, tx: Transaction, h: TxHash)
    requires Consistent(m) && LifeOk(m, hist, h) && Confirms(m, tx) && Recorded(m, tx.bHash, WaitConfirm1)
    requires Awaited(m, tx.bHash)
    ensures LifeOk(Confirmed(m, tx), hist.(confirmed1 := hist.confirmed1 + [tx]), h)
  {
    CountSnoc(hist.confirmed1, tx, h);
    NotReady(m, h);
    var m' := Confirmed(m, tx);
    hide Count, Consistent, Distinct;
    assert m'.ready1 == m.ready1 && m'.unconfirmed.Keys == m.unconfirmed.Keys;
    assert h in m'.ready2 <==> h in m.ready2 || h == tx.bHash;
    assert h != tx.bHash ==> (Recorded(m', h, WaitConfirm1) <==> Recorded(m, h, WaitConfirm1));
  }

  lemma ConfirmSecondLife(m: Book, hist: History, tx: Transaction, h: TxHash)
    requires LifeOk(m, hist, h) && Confirms(m, tx) && Recorded(m, tx.bHash, WaitConfirm2) && Awaited(m, tx.bHash)
    ensures LifeOk(Confirmed(m, tx), hist.(confirmed2 := hist.confirmed2 + [tx]), h)
  {
    CountSnoc(hist.confirmed2, tx, h);
    hide Count;
  }

  lemma ConfirmLife(m: Book, hist: History, tx: Transaction, h: TxHash)
    requires LivesOk(m, hist) && Confirms(m, tx) && Awaited(m, tx.bHash)
    ensures LifeOk(Confirmed(m, tx), AfterHistory(m, hist, Confirm(tx)), h)
  {
    hide LifeOk;
    if m.unconfirmed[tx.bHash].wait == WaitConfirm1 {
      ConfirmFirstLife(m, hist, tx, h);
    } else {
      ConfirmSecondLife(m, hist, tx, h);
    }
  }

  lemma EventKeepsLives(m: Book, hist: History, e: Event)
    requires LivesOk(m, hist) && Proper(m, e)
    ensures LivesOk(AfterBook(m, e), AfterHistory(m, hist, e))
  {
    forall h
      ensures LifeOk(AfterBook(m, e), AfterHistory(m, hist, e), h)
    {
      match e {
        case Create(tx, b) =>
          if Creatable(m, tx, b) {
            CreateLife(m, hist, tx, b, h);
          }
        case Emit => EmitLife(m, hist, h);
        case Confirm(tx) =>
          if Confirms(m, tx) {
            ConfirmLife(m, hist, tx, h);
          }
      }
      assert LifeOk(m, hist, h);
    }
    EventKeepsConsistent(m, e);
  }

  lemma EventKeepsConsistent(m: Book, e: Event)
    requires Consistent(m) && Proper(m, e)
    ensures Consistent(AfterBook(m, e))
  {
    match e {
      case Create(tx, b) =>
        if Creatable(m, tx, b) {
          CreatingKeeps(m, tx, b);
        }
      case Emit => EmittingKeeps(m);
      case Confirm(tx) =>
        if Confirms(m, tx) {
          ConfirmingKeepsExactlyWhen(m, tx);
        }
    }
  }

  lemma {:induction false} RunLives(brokers: set<Address>, es: seq<Event>)
    requires ProperRun(brokers, es)
    ensures var (m, hist) := Play(brokers, es); LivesOk(m, hist)
  {
    if es != [] {
      var front := es[..|es| - 1];
      forall k | 0 <= k < |front|
        ensures Proper(Play(brokers, front[..k]).0, front[k])
      {
        assert front[..k] == es[..k];
      }
      RunLives(brokers, front);
      var (m, hist) := Play(brokers, front);
      EventKeepsLives(m, hist, es[|es| - 1]);
    }
  }

  /** Over any run whose confirmations are for emitted halves: for every transaction, creations, first
      halves, their confirmations, second halves and their confirmations follow one another, each at
      most one behind the creations. So every creation yields exactly one first half, and a second half
      only after that is confirmed, at most once. */
  lemma LifeCycle(brokers: set<Address>, es: seq<Event>, h: TxHash)
    requires ProperRun(brokers, es)
    ensures var (m, hist) := Play(brokers, es);
      && Count(hist.created, h) >= Count(hist.emitted1, h) >= Count(hist.confirmed1, h)
      && Count(hist.confirmed1, h) >= Count(hist.emitted2, h) >= Count(hist.confirmed2, h) >= Count(hist.created, h) - 1
      && (h in m.unconfirmed <==> Count(hist.confirmed2, h) < Count(hist.created, h))
  {
    RunLives(brokers, es);
    var (m, hist) := Play(brokers, es);
    assert LifeOk(m, hist, h);
  }

  /** The manager is finished exactly when every creation has both confirmations. */
  lemma FinishedExactlyWhen(brokers: set<Address>, es: seq<Event>)
    requires ProperRun(brokers, es)
    ensures var (m, hist) := Play(brokers, es);
      Finished(m) <==> forall h :: Count(hist.created, h) == Count(hist.confirmed1, h) == Count(hist.confirmed2, h)
  {
    RunLives(brokers, es);
    var (m, hist) := Play(brokers, es);
    if Finished(m) {
      AllConfirmed(m, hist);
    } else {
      var h := StillOpen(m);
      OneOpen(m, hist, h);
    }
  }

  lemma AllConfirmed(m: Book, hist: History)
    requires LivesOk(m, hist) && Finished(m)
    ensures forall h :: Count(hist.created, h) == Count(hist.confirmed1, h) == Count(hist.confirmed2, h)
  {
    forall h
      ensures Count(hist.created, h) == Count(hist.confirmed1, h) == Count(hist.confirmed2, h)
    {
      assert LifeOk(m, hist, h);
    }
  }

  lemma OneOpen(m: Book, hist: History, h: TxHash)
    requires LivesOk(m, hist) && h in m.unconfirmed
    ensures Count(hist.created, h) != Count(hist.confirmed2, h)
  {
    assert LifeOk(m, hist, h);
  }

  lemma StillOpen(m: Book) returns (h: TxHash)
    requires Consistent(m) && !Finished(m)
    ensures h in m.unconfirmed
  {
    if m.ready1 != [] {
      h := m.ready1[0];
      assert h in m.ready1;
    } else if m.ready2 != [] {
      h := m.ready2[0];
      assert h in m.ready2;
    } else {
      h :| h in m.unconfirmed;
    }
  }

  /** A confirmation of an emitted half is proper when no transaction is injected a second time. */
  lemma EmittedIsProper(m: Book, hist: History, tx: Transaction)
    requires LivesOk(m, hist) && Confirms(m, tx) && Count(hist.created, tx.bHash) <= 1
    requires tx.brokerStage == SIGMA1 ==> Count(hist.emitted1, tx.bHash) >= 1
    requires tx.brokerStage == SIGMA2 ==> Count(hist.emitted2, tx.bHash) >= 1
    ensures Awaited(m, tx.bHash)
  {
    assert LifeOk(m, hist, tx.bHash);
  }

  // ---------------------------------------------------------------------------------------------
  // Nonces
  // ---------------------------------------------------------------------------------------------

  /** The i-th creation for a broker carries nonce i, and the broker's nonce is their number. */
  ghost predicate NoncesOk(m: Book, created: seq<Transaction>)
  {
    && (forall b :: b in m.nonces ==> m.nonces[b] == CountBroker(created, b))
    && forall i :: 0 <= i < |created| ==> created[i].brokerNonce == CountBroker(created[..i + 1], created[i].broker)
  }

  lemma CountBrokerSnoc(s: seq<Transaction>, t: Transaction, b: Address)
    ensures CountBroker(s + [t], b) == CountBroker(s, b) + if t.broker == b then 1 else 0
  {
    assert (s + [t])[..|s|] == s;
  }

  /** The nonces issued for each broker are 1, 2, 3 and so on, without gaps. */
  lemma {:induction false} NoncesWithoutGaps(brokers: set<Address>, es: seq<Event>)
    ensures var (m, hist) := Play(brokers, es); m.nonces.Keys == brokers && NoncesOk(m, hist.created)
  {
    if es != [] {
      var front, e := es[..|es| - 1], es[|es| - 1];
      NoncesWithoutGaps(brokers, front);
      var (m, hist) := Play(brokers, front);
      if e.Create? && Creatable(m, e.tx, e.broker) {
        NonceAdded(m, hist.created, e.tx, e.broker);
      }
    }
  }

  lemma NonceAdded(m: Book, created: seq<Transaction>, tx: Transaction, b: Address)
    requires NoncesOk(m, created) && Creatable(m, tx, b)
    ensures NoncesOk(Created(m, tx, b), created + [RawOf(m, tx, b)])
  {
    var raw := RawOf(m, tx, b);
    var created' := created + [raw];
    forall x | x in m.nonces
      ensures CountBroker(created', x) == CountBroker(created, x) + if x == b then 1 else 0
    {
      CountBrokerSnoc(created, raw, x);
    }
    forall i | 0 <= i < |created'|
      ensures created'[i].brokerNonce == CountBroker(created'[..i + 1], created'[i].broker)
    {
      if i < |created| {
        assert created'[..i + 1] == created[..i + 1];
      } else {
        assert created'[..i + 1] == created';
      }
    }
  }

  // ---------------------------------------------------------------------------------------------
  // What the halves carry
  // ---------------------------------------------------------------------------------------------

  /** A broker transaction that is the original of its hash in everything but the stage, the broker and the
      broker's nonce. */
  predicate Carries(tx: Transaction, stage: nat)
  {
    && TxType(tx) == BrokerTx && tx.bHash.HashOf? && tx.brokerStage == stage
    && tx == tx.bHash.tx.(brokerStage := stage, broker := tx.broker, bHash := tx.bHash, brokerNonce := tx.brokerNonce)
  }

  ghost predicate AllCarry(m: Book, hist: History)
  {
    && (forall h :: h in m.unconfirmed ==> m.unconfirmed[h].raw.bHash == h && Carries(m.unconfirmed[h].raw, RAW))
    && (forall tx :: tx in hist.created ==> Carries(tx, RAW))
    && (forall tx :: tx in hist.emitted1 ==> Carries(tx, SIGMA1))
    && (forall tx :: tx in hist.emitted2 ==> Carries(tx, SIGMA2))
  }

  lemma {:induction false} HalvesCarry(m: Book, hs: seq<TxHash>, wait: Wait, stage: nat)
    requires forall h :: h in m.unconfirmed ==> m.unconfirmed[h].raw.bHash == h && Carries(m.unconfirmed[h].raw, RAW)
    ensures forall tx :: tx in Halves(m, hs, wait, stage) ==> Carries(tx, stage)
  {
    if hs != [] {
      HalvesCarry(m, hs[..|hs| - 1], wait, stage);
    }
  }

  /** Whatever happens, every raw transaction and every half sent is its original in all but the fields of
      the broker. */
  lemma {:induction false} HalvesCarryOriginals(brokers: set<Address>, es: seq<Event>)
    ensures var (m, hist) := Play(brokers, es); AllCarry(m, hist)
  {
    if es != [] {
      var (m, hist) := Play(brokers, es[..|es| - 1]);
      HalvesCarryOriginals(brokers, es[..|es| - 1]);
      HalvesCarry(m, m.ready1, WaitConfirm1, SIGMA1);
      HalvesCarry(m, m.ready2, WaitConfirm2, SIGMA2);
    }
  }
}
