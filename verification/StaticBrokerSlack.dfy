/** When what is pending is exactly what is outstanding: a reservation made for a raw transaction that
    the manager then refuses is never released (supervisor/committee/staticbroker.go). */
module StaticBrokerSlack {
  import opened Types
  import opened Sums
  import opened Brokers
  import opened StaticBrokers

  /** Every pending deduction is what is outstanding, and no more. */
  ghost predicate Tight(l: Ledger, n: nat)
    requires Shaped(l, n)
  {
    forall b, k :: b in l.pending && 0 <= k < n ==> Slack(l, n, b, k) == 0
  }

  /** How many reservations broker `b` is left with for raw transactions refused while `order` is
      tried. */
  function Refusals(l: Ledger, n: nat, tx: Transaction, order: seq<Address>, b: Address): nat
    requires Shaped(l, n) && forall x :: x in order ==> x in l.balances
    decreases |order|
  {
    if order == [] then 0 else
    var (after, taken) := TriedOne(l, n, tx, order[0]);
    TriedOneShaped(l, n, tx, order[0]);
    if taken then 0 else
    (if order[0] == b && Affordable(l, b, DefaultAccountLoc(tx.recipient, n), tx.value) then 1 else 0)
    + Refusals(after, n, tx, order[1..], b)
  }

  // ---------------------------------------------------------------------------------------------
  // Reserving
  // ---------------------------------------------------------------------------------------------

  lemma TriedOneSlack(l: Ledger, n: nat, tx: Transaction, c: Address, b: Address, k: nat)
    requires Shaped(l, n) && c in l.balances && b in l.balances && k < n
    ensures var (after, taken) := TriedOne(l, n, tx, c);
      var j := DefaultAccountLoc(tx.recipient, n);
      && Shaped(after, n) && b in after.pending && k < |after.pending[b]|
      && Slack(after, n, b, k)
        == Slack(l, n, b, k) + if !taken && b == c && k == j && Affordable(l, c, j, tx.value) then tx.value else 0
  {
    TriedOneShaped(l, n, tx, c);
    if Creatable(l.book, tx, c) {
      CreatingReserves(l.book, n, tx, c, b, k);
    }
  }

  /** Trying brokers in any order raises the slack by the value of each refused reservation. */
  lemma {:induction false} TriedSlack(l: Ledger, n: nat, tx: Transaction, order: seq<Address>, b: Address, k: nat)
    requires Shaped(l, n) && b in l.balances && k < n && forall x :: x in order ==> x in l.balances
    ensures var after := Tried(l, n, tx, order).0;
      && Shaped(after, n) && b in after.pending && k < |after.pending[b]|
      && Slack(after, n, b, k)
        == Slack(l, n, b, k) + if k == DefaultAccountLoc(tx.recipient, n) then tx.value * Refusals(l, n, tx, order, b)
          else 0
    decreases |order|
  {
    if order != [] {
      assert order[0] in order && forall x :: x in order[1..] ==> x in order;
      TriedOneShaped(l, n, tx, order[0]);
      TriedOneSlack(l, n, tx, order[0], b, k);
      var (after, taken) := TriedOne(l, n, tx, order[0]);
      if !taken {
        TriedSlack(after, n, tx, order[1..], b, k);
        var first := if order[0] == b && Affordable(l, b, DefaultAccountLoc(tx.recipient, n), tx.value) then 1 else 0;
        assert Refusals(l, n, tx, order, b) == first + Refusals(after, n, tx, order[1..], b);
        TimesStep(tx.value, first, Refusals(after, n, tx, order[1..], b));
      }
    }
  }

  lemma TimesStep(v: int, first: int, rest: int)
    requires first == 0 || first == 1
    ensures v * (first + rest) == v * rest + if first == 1 then v else 0
  {
  }

  ghost predicate Distinct(order: seq<Address>)
  {
    forall i, j :: 0 <= i < j < |order| ==> order[i] != order[j]
  }

  /** A broker is left with a reservation exactly when it is tried, can afford the value, and the
      transaction is still under way; if no broker is tried twice, with one at most. */
  lemma {:induction false} RefusedExactlyWhen(l: Ledger, n: nat, tx: Transaction, order: seq<Address>, b: Address)
    requires Shaped(l, n) && b in l.balances && tx.value >= 0 && forall x :: x in order ==> x in l.balances
    ensures Refusals(l, n, tx, order, b) > 0 <==>
      && HashOf(tx) in l.book.unconfirmed && b in order
      && Affordable(l, b, DefaultAccountLoc(tx.recipient, n), tx.value)
    ensures Distinct(order) ==> Refusals(l, n, tx, order, b) <= 1
    decreases |order|
  {
    if order != [] {
      assert order[0] in order && forall x :: x in order[1..] ==> x in order;
      TriedOneShaped(l, n, tx, order[0]);
      var (after, taken) := TriedOne(l, n, tx, order[0]);
      if !taken {
        assert after.book == l.book;
        RefusedExactlyWhen(after, n, tx, order[1..], b);
        assert b in order <==> b == order[0] || b in order[1..];
      }
    }
  }

  /** An injection that leaves a reservation behind: the value is positive, the transaction is still
      under way, and some broker tried can afford it. */
  ghost predicate Leaks(l: Ledger, n: nat, e: LedgerEvent)
    requires Shaped(l, n) && Legal(l, n, e)
  {
    && e.Inject? && e.tx.value > 0 && HashOf(e.tx) in l.book.unconfirmed
    && exists b :: b in e.order && Affordable(l, b, DefaultAccountLoc(e.tx.recipient, n), e.tx.value)
  }

  /** Injecting adds to the slack of each broker it leaves with a reservation, and to no other; it
      leaves every slack as it was exactly when it does not leak. */
  lemma ReservationLeaksExactlyWhen(l: Ledger, n: nat, tx: Transaction, order: seq<Address>)
    requires Shaped(l, n) && tx.value >= 0 && forall b :: b in order ==> b in l.balances
    ensures var after := Tried(l, n, tx, order).0;
      && Shaped(after, n) && after.pending.Keys == l.pending.Keys
      && (forall b, k :: b in l.pending && 0 <= k < n ==> Slack(after, n, b, k) >= Slack(l, n, b, k))
      && ((forall b, k :: b in l.pending && 0 <= k < n ==> Slack(after, n, b, k) == Slack(l, n, b, k))
          <==> !Leaks(l, n, Inject(tx, order)))
  {
    TriedShaped(l, n, tx, order);
    var after := Tried(l, n, tx, order).0;
    forall b, k | b in l.pending && 0 <= k < n
      ensures Slack(after, n, b, k) >= Slack(l, n, b, k)
      ensures !Leaks(l, n, Inject(tx, order)) ==> Slack(after, n, b, k) == Slack(l, n, b, k)
    {
      TriedSlackGrows(l, n, tx, order, b, k);
    }
    if Leaks(l, n, Inject(tx, order)) {
      var b :| b in order && Affordable(l, b, DefaultAccountLoc(tx.recipient, n), tx.value);
      TriedSlackGrows(l, n, tx, order, b, DefaultAccountLoc(tx.recipient, n));
    }
  }

  lemma TriedSlackGrows(l: Ledger, n: nat, tx: Transaction, order: seq<Address>, b: Address, k: nat)
    requires Shaped(l, n) && tx.value >= 0 && b in l.balances && k < n && forall x :: x in order ==> x in l.balances
    ensures var after := Tried(l, n, tx, order).0;
      && Shaped(after, n) && b in after.pending && k < |after.pending[b]|
      && Slack(after, n, b, k) >= Slack(l, n, b, k)
      && (Slack(after, n, b, k) > Slack(l, n, b, k) <==>
            && k == DefaultAccountLoc(tx.recipient, n) && tx.value > 0 && HashOf(tx) in l.book.unconfirmed
            && b in order && Affordable(l, b, k, tx.value))
  {
    hide Tried, Slack, Refusals, Affordable;
    TriedSlack(l, n, tx, order, b, k);
    RefusedExactlyWhen(l, n, tx, order, b);
    Product(tx.value, Refusals(l, n, tx, order, b));
  }

  lemma Product(v: nat, r: nat)
    ensures v * r >= 0 && (v * r > 0 <==> v > 0 && r > 0)
  {
  }

  // ---------------------------------------------------------------------------------------------
  // Emitting and confirming
  // ---------------------------------------------------------------------------------------------

  /** Emitting and confirming what was emitted leave every slack as it is. */
  lemma QuietSlack(l: Ledger, n: nat, e: LedgerEvent, b: Address, k: nat)
    requires Solvent(l, n) && Legal(l, n, e) && !e.Inject? && b in l.pending && k < n
    ensures var after := AfterLedger(l, n, e);
      && Shaped(after, n) && after.pending.Keys == l.pending.Keys && Slack(after, n, b, k) == Slack(l, n, b, k)
  {
    match e {
      case Flush =>
        var after := AfterLedger(l, n, e);
        SumCongruent(l.book.unconfirmed.Keys,
          (h: TxHash) => ReservedBy(l.book, n, b, k, h), (h: TxHash) => ReservedBy(after.book, n, b, k, h));
      case Report(tx, shard) =>
        StaysShaped(l, n, tx, shard);
        if Confirms(l.book, tx) {
          ConfirmingReleases(l.book, n, tx, b, k);
          if tx.brokerStage == SIGMA2 {
            PaidSolvent(l, n, tx, shard);
          }
        }
    }
  }

  // ---------------------------------------------------------------------------------------------
  // Over whole runs
  // ---------------------------------------------------------------------------------------------

  /** An event leaves the ledger tight exactly when the ledger was tight and the event does not leak. */
  lemma TightExactlyWhen(l: Ledger, n: nat, e: LedgerEvent)
    requires Solvent(l, n) && Legal(l, n, e)
    ensures Shaped(AfterLedger(l, n, e), n) && (Tight(AfterLedger(l, n, e), n) <==> Tight(l, n) && !Leaks(l, n, e))
  {
    var after := AfterLedger(l, n, e);
    EventSolvent(l, n, e);
    if e.Inject? {
      ReservationLeaksExactlyWhen(l, n, e.tx, e.order);
    } else {
      QuietKeys(l, n, e);
      forall b, k | b in l.pending && 0 <= k < n
        ensures Slack(after, n, b, k) == Slack(l, n, b, k)
      {
        QuietSlack(l, n, e, b, k);
      }
    }
    SlackNonNegative(l, n);
  }

  lemma QuietKeys(l: Ledger, n: nat, e: LedgerEvent)
    requires Solvent(l, n) && Legal(l, n, e) && !e.Inject?
    ensures AfterLedger(l, n, e).pending.Keys == l.pending.Keys
  {
  }

  lemma SlackNonNegative(l: Ledger, n: nat)
    requires Solvent(l, n)
    ensures forall b, k :: b in l.pending && 0 <= k < n ==> Slack(l, n, b, k) >= 0
  {
    forall b, k | b in l.pending && 0 <= k < n
      ensures Slack(l, n, b, k) >= 0
    {
      assert Covered(l, n, b, k);
    }
  }

  lemma InitialTight(brokers: set<Address>, n: nat)
    requires n > 0
    ensures Tight(Initial(brokers, n), n)
  {
  }

  /** In every run, what is pending equals what is outstanding, for every broker and shard, exactly as
      long as no transaction of positive value was injected again, while under way, past a broker who
      could afford it. */
  lemma {:induction false} PendingIsOutstandingExactlyWhen(brokers: set<Address>, n: nat, ls: seq<Ledger>,
      es: seq<LedgerEvent>, k: nat)
    requires LedgerRun(brokers, n, ls, es) && k < |ls|
    ensures Shaped(ls[k], n)
    ensures forall i :: 0 <= i < k ==> Shaped(ls[i], n) && Legal(ls[i], n, es[i])
    ensures Tight(ls[k], n) <==> forall i :: 0 <= i < k ==> !Leaks(ls[i], n, es[i])
  {
    AlwaysSolvent(brokers, n, ls, es, k);
    if k == 0 {
      InitialTight(brokers, n);
    } else {
      PendingIsOutstandingExactlyWhen(brokers, n, ls, es, k - 1);
      AlwaysSolvent(brokers, n, ls, es, k - 1);
      assert LedgerStep(n, ls, es, k - 1);
      TightExactlyWhen(ls[k - 1], n, es[k - 1]);
    }
  }
}
