/** The books of the whole platform, currency by currency. */
module Totals {
  import opened Sums
  import opened Ledger
  import opened Books
  import opened PayoutQueue

  function BalanceIn(currency: Id): Wallet -> int
  {
    (w: Wallet) => if w.currency == currency then w.balance else 0
  }

  function DepositIn(txns: map<Id, Kind>, currency: Id): Entry -> int
  {
    (e: Entry) => if e.currency == currency && e.txn in txns && txns[e.txn] == DepositTxn then e.amount else 0
  }

  function SucceededIn(currency: Id): Intent -> int
  {
    (i: Intent) => if i.currency == currency && i.status == Succeeded then i.amount else 0
  }

  /** Money that has left or is on its way: a failed payout has been credited back. */
  function OutIn(currency: Id): Payout -> int
  {
    (p: Payout) => if p.currency == currency && p.status != Failed then p.amount else 0
  }

  ghost predicate BookBalances(db: Db, currency: Id)
  {
    Sum(db.wallets, BalanceIn(currency))
    == Sum(db.entries, DepositIn(db.txns, currency)) + Sum(db.intents, SucceededIn(currency))
       - Sum(db.payouts, OutIn(currency))
  }

  /** Wallets hold what was deposited and charged, less what is being or has been paid out. */
  ghost predicate BooksBalance(db: Db)
  {
    forall currency: Id :: BookBalances(db, currency)
  }

  lemma DepositsAfterInsert(db: Db, txn: Id, kind: Kind, es: seq<Entry>, c: Id)
    requires EntriesOk(db) && txn !in db.txns
    ensures var db' := Insert(db, txn, kind, es);
            Sum(db'.entries, DepositIn(db'.txns, c))
            == Sum(db.entries, DepositIn(db.txns, c)) + Sum(es, DepositIn(db'.txns, c))
  {
    var db' := Insert(db, txn, kind, es);
    SumAppend(db.entries, es, DepositIn(db'.txns, c));
    forall k | 0 <= k < |db.entries|
      ensures DepositIn(db'.txns, c)(db.entries[k]) == DepositIn(db.txns, c)(db.entries[k])
    {
      assert EntryOk(db, db.entries[k]);
    }
    SumCongruent(db.entries, DepositIn(db'.txns, c), DepositIn(db.txns, c));
  }

  /** What a single posting does to both sides of the book of currency `c`, before any other row changes. */
  lemma SingleMovesBook(db: Db, kind: Kind, e: Entry, c: Id)
    requires EntriesOk(db) && Postable(db, e)
    ensures var db' := Single(db, kind, e);
            var delta := if e.currency == c then Signed(e) else 0;
            && Sum(db'.wallets, BalanceIn(c)) == Sum(db.wallets, BalanceIn(c)) + delta
            && Sum(db'.entries, DepositIn(db'.txns, c))
               == Sum(db.entries, DepositIn(db.txns, c)) + (if kind == DepositTxn && e.currency == c then e.amount else 0)
  {
    var txns' := db.txns[e.txn := kind];
    SumUpdate(db.wallets, e.wallet, Moved(db.wallets[e.wallet], Signed(e)), BalanceIn(c));
    DepositsAfterInsert(db, e.txn, kind, [e], c);
    SumOne([], e, DepositIn(txns', c));
    assert [] + [e] == [e];
  }

  lemma DoubleKeepsHoldings(db: Db, from: Id, to: Id, amount: int, printed: int, txn: Id, c: Id)
    requires Transferable(db, from, to, amount, printed, txn)
    ensures Sum(Double(db, from, to, amount, printed, txn).wallets, BalanceIn(c)) == Sum(db.wallets, BalanceIn(c))
  {
    var f, t := Bumped(db.wallets[from], -amount), Bumped(db.wallets[to], amount);
    SumUpdate(db.wallets, from, f, BalanceIn(c));
    SumUpdate(db.wallets[from := f], to, t, BalanceIn(c));
  }

  lemma DoubleDepositsNothing(db: Db, from: Id, to: Id, amount: int, printed: int, txn: Id, c: Id)
    requires EntriesOk(db) && Transferable(db, from, to, amount, printed, txn)
    ensures var db' := Double(db, from, to, amount, printed, txn);
            Sum(db'.entries, DepositIn(db'.txns, c)) == Sum(db.entries, DepositIn(db.txns, c))
  {
    var currency := db.wallets[from].currency;
    var d, k := Entry(txn, from, Debit, printed, currency), Entry(txn, to, Credit, printed, currency);
    var txns' := db.txns[txn := TransferTxn];
    DepositsAfterInsert(db, txn, TransferTxn, [d, k], c);
    SumOne([], d, DepositIn(txns', c));
    SumOne([d], k, DepositIn(txns', c));
    assert [] + [d] == [d] && [d] + [k] == [d, k];
  }

  lemma ConfirmKeepsBook(op: Op, st: State, c: Id)
    requires EntriesOk(st.db) && Guard(op, st) && BookBalances(st.db, c) && op.Confirm?
    ensures BookBalances(Apply(op, st).db, c)
  {
    var db := st.db;
    SingleMovesBook(db, ChargeTxn, ChargeEntry(st, op.intent, op.wallet, op.txn), c);
    SumUpdate(db.intents, op.intent, db.intents[op.intent].(status := Succeeded), SucceededIn(c));
  }

  lemma SweepKeepsBook(op: Op, st: State, c: Id)
    requires EntriesOk(st.db) && Guard(op, st) && BookBalances(st.db, c) && op.Sweep?
    ensures BookBalances(Apply(op, st).db, c)
  {
    hide Sum;
    var w := st.db.wallets[op.wallet];
    var e := SweepEntry(st, op.wallet, op.txn);
    var row := PendingPayout(w.merchant, op.wallet, op.account, w.currency, w.balance, op.txn, op.at);
    var db' := Apply(op, st).db;
    assert Sum(db'.wallets, BalanceIn(c)) == Sum(st.db.wallets, BalanceIn(c)) + (if e.currency == c then -e.amount else 0)
        && Sum(db'.entries, DepositIn(db'.txns, c)) == Sum(st.db.entries, DepositIn(st.db.txns, c)) by {
      SingleMovesBook(st.db, PayoutTxn, e, c);
    }
    assert Sum(db'.payouts, OutIn(c)) == Sum(st.db.payouts, OutIn(c)) + (if e.currency == c then e.amount else 0) by {
      SumOne(st.db.payouts, row, OutIn(c));
    }
  }

  lemma PayoutStepKeepsBook(op: Op, st: State, c: Id)
    requires EntriesOk(st.db) && ClaimsOk(st) && Guard(op, st) && BookBalances(st.db, c)
    requires op.Lease? || op.Pay? || op.Retry? || op.Reverse?
    ensures BookBalances(Apply(op, st).db, c)
  {
    var p := if op.Lease? then op.payout else st.claims[op.claim].payout;
    if !op.Lease? {
      LiveClaimIsCurrent(st, op.claim);
    }
    if op.Reverse? {
      SingleMovesBook(st.db, ReversalTxn, ReversalEntry(st.claims[op.claim].row, op.txn), c);
    }
    SumUpdate(st.db.payouts, p, Apply(op, st).db.payouts[p], OutIn(c));
  }

  lemma StepKeepsBook(op: Op, st: State, c: Id)
    requires EntriesOk(st.db) && ClaimsOk(st) && Guard(op, st) && BookBalances(st.db, c)
    ensures BookBalances(Apply(op, st).db, c)
  {
    var db := st.db;
    match op
    case OpenWallet(m, k) =>
      SumOne(db.wallets, Wallet(m, k, 0, 0), BalanceIn(c));
    case CreateIntent(m, amount, k) =>
      SumOne(db.intents, Intent(m, amount, k, RequiresConfirmation), SucceededIn(c));
    case Deposit(w, amount, txn) =>
      SingleMovesBook(db, DepositTxn, DepositEntry(st, w, amount, txn), c);
    case Transfer(_, from, to, amount, printed, txn) =>
      DoubleKeepsHoldings(db, from, to, amount, printed, txn, c);
      DoubleDepositsNothing(db, from, to, amount, printed, txn, c);
    case Confirm(_, _, _, _, _, _) =>
      ConfirmKeepsBook(op, st, c);
    case Cancel(_, i) =>
      SumUpdate(db.intents, i, db.intents[i].(status := Canceled), SucceededIn(c));
    case Sweep(_, _, _, _, _) =>
      SweepKeepsBook(op, st, c);
    case Lease(_) => PayoutStepKeepsBook(op, st, c);
    case Pay(_, _) => PayoutStepKeepsBook(op, st, c);
    case Retry(_) => PayoutStepKeepsBook(op, st, c);
    case Reverse(_, _, _, _) => PayoutStepKeepsBook(op, st, c);
    case _ =>
  }
}
