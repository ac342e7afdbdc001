/**
 * The cached balances against the double-entry ledger: every balance is its entries' credits minus debits, every
 * transaction has the shape of its kind, and a wallet's version counts the transfers on it.
 */
module Books {
  import opened Sums
  import opened Ledger

  // ---- The entries of one transaction ----

  function EntriesOf(entries: seq<Entry>, txn: Id): seq<Entry>
  {
    if entries == [] then []
    else
      var e := entries[|entries| - 1];
      EntriesOf(entries[..|entries| - 1], txn) + (if e.txn == txn then [e] else [])
  }

  lemma {:induction false} EntriesOfAppend(a: seq<Entry>, b: seq<Entry>, txn: Id)
    ensures EntriesOf(a + b, txn) == EntriesOf(a, txn) + EntriesOf(b, txn)
  {
    if b == [] {
      assert a + b == a;
    } else {
      var c := b[..|b| - 1];
      assert (a + b)[..|a + b| - 1] == a + c;
      EntriesOfAppend(a, c, txn);
    }
  }

  lemma {:induction false} NoEntriesOf(entries: seq<Entry>, txn: Id)
    requires forall i | 0 <= i < |entries| :: entries[i].txn != txn
    ensures EntriesOf(entries, txn) == []
  {
    if entries != [] {
      NoEntriesOf(entries[..|entries| - 1], txn);
    }
  }

  lemma {:induction false} AllEntriesOf(entries: seq<Entry>, txn: Id)
    requires forall i | 0 <= i < |entries| :: entries[i].txn == txn
    ensures EntriesOf(entries, txn) == entries
  {
    if entries != [] {
      AllEntriesOf(entries[..|entries| - 1], txn);
    }
  }

  ghost predicate EntriesOk(db: Db)
  {
    forall k | 0 <= k < |db.entries| :: EntryOk(db, db.entries[k])
  }

  ghost predicate EntryOk(db: Db, e: Entry)
  {
    && e.txn in db.txns
    && e.wallet < |db.wallets|
    && 0 < e.amount
    && e.currency == db.wallets[e.wallet].currency
  }

  /** Posting a fresh transaction leaves the entries of every other one alone. */
  lemma InsertKeepsEntries(db: Db, txn: Id, kind: Kind, entries: seq<Entry>)
    requires EntriesOk(db) && txn !in db.txns
    requires forall i | 0 <= i < |entries| :: entries[i].txn == txn
    ensures EntriesOf(Insert(db, txn, kind, entries).entries, txn) == entries
    ensures forall t | t != txn :: EntriesOf(Insert(db, txn, kind, entries).entries, t) == EntriesOf(db.entries, t)
  {
    forall t
      ensures EntriesOf(db.entries + entries, t)
           == if t == txn then entries else EntriesOf(db.entries, t)
    {
      EntriesOfAppend(db.entries, entries, t);
      if t == txn {
        assert forall k | 0 <= k < |db.entries| :: EntryOk(db, db.entries[k]);
        NoEntriesOf(db.entries, t);
        AllEntriesOf(entries, t);
      } else {
        NoEntriesOf(entries, t);
      }
    }
  }

  // ---- The invariants ----

  function SignedOn(wallet: Id): Entry -> int
  {
    (e: Entry) => if e.wallet == wallet then Signed(e) else 0
  }

  /** How far a cached balance is from its entries. */
  ghost function Gap(db: Db, w: Id): int
    requires w < |db.wallets|
  {
    db.wallets[w].balance - Sum(db.entries, SignedOn(w))
  }

  ghost predicate BalancesAgree(db: Db)
  {
    forall w | 0 <= w < |db.wallets| :: Gap(db, w) == 0
  }

  predicate BalancesInRange(db: Db)
  {
    forall w | 0 <= w < |db.wallets| :: 0 <= db.wallets[w].balance <= MAX_BIGINT
  }

  /** A transfer is one debit and one credit of equal amount and currency on two wallets; any other kind is one entry. */
  ghost predicate Shaped(kind: Kind, es: seq<Entry>)
  {
    match kind
    case TransferTxn =>
      && |es| == 2 && es[0].direction == Debit && es[1].direction == Credit
      && es[0].amount == es[1].amount && es[0].currency == es[1].currency && es[0].wallet != es[1].wallet
    case PayoutTxn => |es| == 1 && es[0].direction == Debit
    case _ => |es| == 1 && es[0].direction == Credit
  }

  ghost predicate TxnsShaped(db: Db)
  {
    forall t | t in db.txns :: Shaped(db.txns[t], EntriesOf(db.entries, t))
  }

  /** The committed transfer transactions with an entry on `wallet`. */
  ghost function TransfersOn(db: Db, wallet: Id): set<Id>
  {
    set t | t in db.txns && db.txns[t] == TransferTxn && Touches(EntriesOf(db.entries, t), wallet)
  }

  ghost predicate Touches(es: seq<Entry>, wallet: Id)
  {
    exists i | 0 <= i < |es| :: es[i].wallet == wallet
  }

  ghost predicate VersionsCount(db: Db)
  {
    forall w | 0 <= w < |db.wallets| :: db.wallets[w].version == |TransfersOn(db, w)|
  }

  ghost predicate LedgerOk(db: Db)
  {
    EntriesOk(db) && BalancesInRange(db) && TxnsShaped(db) && VersionsCount(db)
  }

  // ---- Preservation by the two ways of posting ----

  /** A posting with one entry moves the balance by what it enters. */
  lemma SingleKeepsGaps(db: Db, kind: Kind, e: Entry, w: Id)
    requires Postable(db, e) && w < |db.wallets|
    ensures Gap(Single(db, kind, e), w) == Gap(db, w)
  {
    hide Sum;
    SumOne(db.entries, e, SignedOn(w));
  }

  lemma SingleKeepsLedger(db: Db, kind: Kind, e: Entry)
    requires LedgerOk(db) && Postable(db, e) && Shaped(kind, [e])
    ensures LedgerOk(Single(db, kind, e))
  {
    hide EntriesOf;
    var db' := Single(db, kind, e);
    InsertKeepsEntries(db, e.txn, kind, [e]);
    forall k | 0 <= k < |db'.entries|
      ensures EntryOk(db', db'.entries[k])
    {
      assert k < |db.entries| ==> EntryOk(db, db.entries[k]);
    }
    forall w | 0 <= w < |db'.wallets|
      ensures db'.wallets[w].version == |TransfersOn(db', w)|
    {
      assert TransfersOn(db', w) == TransfersOn(db, w);
    }
  }

  ghost predicate Transferable(db: Db, from: Id, to: Id, amount: int, printed: int, txn: Id)
  {
    && from < |db.wallets| && to < |db.wallets| && from != to && txn !in db.txns
    && db.wallets[from].currency == db.wallets[to].currency
    && 0 < amount <= db.wallets[from].balance && db.wallets[to].balance + amount <= MAX_BIGINT
    && 0 < printed <= MAX_BIGINT
  }

  /** A transfer moves each of its two balances by its amount, and their entries by the printed one. */
  lemma DoubleMovesGaps(db: Db, from: Id, to: Id, amount: int, printed: int, txn: Id, w: Id)
    requires Transferable(db, from, to, amount, printed, txn) && w < |db.wallets|
    ensures Gap(Double(db, from, to, amount, printed, txn), w)
         == Gap(db, w) + (if w == from then printed - amount else if w == to then amount - printed else 0)
  {
    hide Sum;
    var db' := Double(db, from, to, amount, printed, txn);
    var currency := db.wallets[from].currency;
    var d, c := Entry(txn, from, Debit, printed, currency), Entry(txn, to, Credit, printed, currency);
    assert db'.entries == db.entries + [d] + [c];
    SumOne(db.entries, d, SignedOn(w));
    SumOne(db.entries + [d], c, SignedOn(w));
  }

  lemma DoubleKeepsShapes(db: Db, from: Id, to: Id, amount: int, printed: int, txn: Id)
    requires EntriesOk(db) && TxnsShaped(db) && Transferable(db, from, to, amount, printed, txn)
    ensures TxnsShaped(Double(db, from, to, amount, printed, txn))
  {
    var currency := db.wallets[from].currency;
    var d, c := Entry(txn, from, Debit, printed, currency), Entry(txn, to, Credit, printed, currency);
    InsertKeepsEntries(db, txn, TransferTxn, [d, c]);
  }

  lemma DoubleKeepsEntries(db: Db, from: Id, to: Id, amount: int, printed: int, txn: Id)
    requires EntriesOk(db) && Transferable(db, from, to, amount, printed, txn)
    ensures EntriesOk(Double(db, from, to, amount, printed, txn))
  {
    var db' := Double(db, from, to, amount, printed, txn);
    forall k | 0 <= k < |db'.entries|
      ensures EntryOk(db', db'.entries[k])
    {
      assert k < |db.entries| ==> EntryOk(db, db.entries[k]);
    }
  }

  lemma DoubleKeepsLedger(db: Db, from: Id, to: Id, amount: int, printed: int, txn: Id)
    requires LedgerOk(db) && Transferable(db, from, to, amount, printed, txn)
    ensures LedgerOk(Double(db, from, to, amount, printed, txn))
  {
    DoubleKeepsEntries(db, from, to, amount, printed, txn);
    DoubleKeepsShapes(db, from, to, amount, printed, txn);
    forall w | 0 <= w < |db.wallets|
      ensures Double(db, from, to, amount, printed, txn).wallets[w].version == |TransfersOn(Double(db, from, to, amount, printed, txn), w)|
    {
      DoubleTouches(db, from, to, amount, printed, txn, w);
    }
  }

  lemma DoubleTouches(db: Db, from: Id, to: Id, amount: int, printed: int, txn: Id, w: Id)
    requires EntriesOk(db) && txn !in db.txns && from < |db.wallets| && to < |db.wallets|
    ensures TransfersOn(Double(db, from, to, amount, printed, txn), w)
         == TransfersOn(db, w) + if w == from || w == to then {txn} else {}
  {
    var db' := Double(db, from, to, amount, printed, txn);
    var currency := db.wallets[from].currency;
    var es := [Entry(txn, from, Debit, printed, currency), Entry(txn, to, Credit, printed, currency)];
    InsertKeepsEntries(db, txn, TransferTxn, es);
    assert Touches(es, w) <==> w == from || w == to by {
      assert es[0].wallet == from && es[1].wallet == to;
    }
  }

  lemma {:induction false} NothingOnNewWallet(entries: seq<Entry>, wallet: Id)
    requires forall k | 0 <= k < |entries| :: entries[k].wallet != wallet
    ensures Sum(entries, SignedOn(wallet)) == 0
    ensures forall t :: !Touches(EntriesOf(entries, t), wallet)
  {
    if entries != [] {
      NothingOnNewWallet(entries[..|entries| - 1], wallet);
    }
  }

  lemma OpenWalletKeepsLedger(db: Db, w: Wallet)
    requires LedgerOk(db) && w.balance == 0 && w.version == 0
    ensures LedgerOk(db.(wallets := db.wallets + [w]))
  {
    var db' := db.(wallets := db.wallets + [w]);
    forall k | 0 <= k < |db.entries|
      ensures EntryOk(db', db.entries[k]) && db.entries[k].wallet != |db.wallets|
    {
      assert EntryOk(db, db.entries[k]);
    }
    NothingOnNewWallet(db.entries, |db.wallets|);
    forall x | 0 <= x < |db'.wallets|
      ensures db'.wallets[x].version == |TransfersOn(db', x)|
    {
      if x == |db.wallets| {
        assert TransfersOn(db', x) == {};
      } else {
        assert TransfersOn(db', x) == TransfersOn(db, x);
      }
    }
  }

  lemma SameLedger(db: Db, db': Db)
    requires LedgerOk(db)
    requires db'.wallets == db.wallets && db'.txns == db.txns && db'.entries == db.entries
    ensures LedgerOk(db')
  {
    forall k | 0 <= k < |db.entries|
      ensures EntryOk(db', db.entries[k])
    {
      assert EntryOk(db, db.entries[k]);
    }
    forall w | 0 <= w < |db.wallets|
      ensures TransfersOn(db', w) == TransfersOn(db, w)
    {
    }
  }

  lemma StepKeepsLedger(op: Op, st: State)
    requires LedgerOk(st.db) && Guard(op, st)
    ensures LedgerOk(Apply(op, st).db)
  {
    var db := st.db;
    match op
    case OpenWallet(m, c) =>
      OpenWalletKeepsLedger(db, Wallet(m, c, 0, 0));
    case Deposit(w, amount, txn) =>
      SingleKeepsLedger(db, DepositTxn, DepositEntry(st, w, amount, txn));
    case Transfer(_, from, to, amount, printed, txn) =>
      DoubleKeepsLedger(db, from, to, amount, printed, txn);
    case Confirm(_, i, w, txn, _, _) =>
      SingleKeepsLedger(db, ChargeTxn, ChargeEntry(st, i, w, txn));
      SameLedger(Single(db, ChargeTxn, ChargeEntry(st, i, w, txn)), Apply(op, st).db);
    case Sweep(w, _, _, txn, _) =>
      SingleKeepsLedger(db, PayoutTxn, SweepEntry(st, w, txn));
      SameLedger(Single(db, PayoutTxn, SweepEntry(st, w, txn)), Apply(op, st).db);
    case Reverse(c, _, txn, _) =>
      SingleKeepsLedger(db, ReversalTxn, ReversalEntry(st.claims[c].row, txn));
      SameLedger(Single(db, ReversalTxn, ReversalEntry(st.claims[c].row, txn)), Apply(op, st).db);
    case _ =>
      SameLedger(db, Apply(op, st).db);
  }

  // ---- The amount printed into the ledger ----

  /** What an operation puts between a wallet's balance and its entries: nothing, unless a transfer prints its amount inexactly. */
  function OpGap(op: Op, w: Id): int
  {
    match op
    case Transfer(_, from, to, amount, printed, _) =>
      if w == from then printed - amount else if w == to then amount - printed else 0
    case _ => 0
  }

  lemma StepMovesGap(op: Op, st: State, w: Id)
    requires EntriesOk(st.db) && Guard(op, st) && w < |Apply(op, st).db.wallets|
    ensures Gap(Apply(op, st).db, w) == (if w < |st.db.wallets| then Gap(st.db, w) else 0) + OpGap(op, w)
  {
    hide Sum;
    var db := st.db;
    match op
    case OpenWallet(m, c) =>
      if w == |db.wallets| {
        assert forall k | 0 <= k < |db.entries| :: EntryOk(db, db.entries[k]);
        NothingOnNewWallet(db.entries, w);
      }
    case Deposit(x, amount, txn) => SingleKeepsGaps(db, DepositTxn, DepositEntry(st, x, amount, txn), w);
    case Transfer(_, from, to, amount, printed, txn) => DoubleMovesGaps(db, from, to, amount, printed, txn, w);
    case Confirm(_, i, x, txn, _, _) => SingleKeepsGaps(db, ChargeTxn, ChargeEntry(st, i, x, txn), w);
    case Sweep(x, _, _, txn, _) => SingleKeepsGaps(db, PayoutTxn, SweepEntry(st, x, txn), w);
    case Reverse(c, _, txn, _) => SingleKeepsGaps(db, ReversalTxn, ReversalEntry(st.claims[c].row, txn), w);
    case _ =>
  }

  /** The cached balances keep agreeing with the ledger exactly when the two spellings of the amount agree. */
  lemma LedgerAgreesIffPrintedExactly(db: Db, from: Id, to: Id, amount: int, printed: int, txn: Id)
    requires BalancesAgree(db) && Transferable(db, from, to, amount, printed, txn)
    ensures BalancesAgree(Double(db, from, to, amount, printed, txn)) <==> printed == amount
  {
    hide Gap;
    forall w | 0 <= w < |db.wallets|
      ensures Gap(Double(db, from, to, amount, printed, txn), w)
           == if w == from then printed - amount else if w == to then amount - printed else 0
    {
      assert Gap(db, w) == 0;
      DoubleMovesGaps(db, from, to, amount, printed, txn, w);
    }
    assert Gap(Double(db, from, to, amount, printed, txn), from) == printed - amount;
  }
}
