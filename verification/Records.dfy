/**
 * Payment intents and payouts tied to the ledger: an intent has succeeded exactly when one charge credited its
 * merchant, and a payout has failed exactly when one reversal gave back what its sweep took.
 */
module Records {
  import opened Options
  import opened Ledger
  import opened Books
  import opened PayoutQueue

  // ---- Charges ----

  /** The charge fulfils a succeeded intent and is backed by one credit of its amount to the merchant's wallet. */
  ghost predicate ChargeOk(db: Db, c: Charge)
  {
    && c.intent < |db.intents|
    && db.intents[c.intent] == Intent(c.merchant, c.amount, c.currency, Succeeded)
    && c.txn in db.txns && db.txns[c.txn] == ChargeTxn
    && BacksCharge(db, c, EntriesOf(db.entries, c.txn))
  }

  ghost predicate BacksCharge(db: Db, c: Charge, es: seq<Entry>)
  {
    && |es| == 1 && es[0].wallet < |db.wallets|
    && es[0] == Entry(c.txn, es[0].wallet, Credit, c.amount, c.currency)
    && db.wallets[es[0].wallet].merchant == c.merchant && db.wallets[es[0].wallet].currency == c.currency
  }

  ghost predicate HasCharge(db: Db, intent: Id)
  {
    exists k | 0 <= k < |db.charges| :: db.charges[k].intent == intent
  }

  ghost predicate HasChargeFor(db: Db, txn: Id)
  {
    exists k | 0 <= k < |db.charges| :: db.charges[k].txn == txn
  }

  ghost predicate ChargesOk(db: Db)
  {
    && (forall k | 0 <= k < |db.charges| :: ChargeOk(db, db.charges[k]))
    && (forall j, k | 0 <= j < k < |db.charges| ::
          db.charges[j].intent != db.charges[k].intent && db.charges[j].txn != db.charges[k].txn)
    && (forall i | 0 <= i < |db.intents| && db.intents[i].status == Succeeded :: HasCharge(db, i))
    && (forall t | t in db.txns && db.txns[t] == ChargeTxn :: HasChargeFor(db, t))
  }

  /** An intent has succeeded if and only if there is a charge for it, and then there is only one. */
  lemma SucceededIffChargedOnce(db: Db, i: Id)
    requires ChargesOk(db) && i < |db.intents|
    ensures db.intents[i].status == Succeeded <==>
            exists k | 0 <= k < |db.charges| ::
              && db.charges[k].intent == i
              && forall j | 0 <= j < |db.charges| && db.charges[j].intent == i :: j == k
  {
    if db.intents[i].status == Succeeded {
      assert HasCharge(db, i);
      var k :| 0 <= k < |db.charges| && db.charges[k].intent == i;
      assert forall j | 0 <= j < |db.charges| && db.charges[j].intent == i :: j == k;
    } else if k :| 0 <= k < |db.charges| && db.charges[k].intent == i {
      assert ChargeOk(db, db.charges[k]);
    }
  }

  // ---- Payouts ----

  ghost predicate PayoutOk(db: Db, p: Payout)
  {
    && 0 < p.amount
    && p.wallet < |db.wallets| && db.wallets[p.wallet].merchant == p.merchant && db.wallets[p.wallet].currency == p.currency
    && p.account < |db.accounts| && db.accounts[p.account].merchant == p.merchant && db.accounts[p.account].currency == p.currency
    && p.txn in db.txns && db.txns[p.txn] == PayoutTxn
    && EntriesOf(db.entries, p.txn) == [Entry(p.txn, p.wallet, Debit, p.amount, p.currency)]
    && (p.status == Failed <==> p.reversal.Some?)
    && (p.reversal.Some? ==> ReversalOk(db, p, p.reversal.value))
    && p.attempts <= POLICY.maxAttempts
    && (p.status == Failed <==> p.attempts == POLICY.maxAttempts)
  }

  /** The reversal credits exactly what the sweep debited, to the same wallet. */
  ghost predicate ReversalOk(db: Db, p: Payout, r: Id)
  {
    && r in db.txns && db.txns[r] == ReversalTxn
    && EntriesOf(db.entries, r) == [Entry(r, p.wallet, Credit, p.amount, p.currency)]
  }

  ghost predicate HasPayout(db: Db, txn: Id)
  {
    exists p | 0 <= p < |db.payouts| :: db.payouts[p].txn == txn
  }

  ghost predicate HasReversedPayout(db: Db, txn: Id)
  {
    exists p | 0 <= p < |db.payouts| :: db.payouts[p].reversal == Some(txn)
  }

  ghost predicate PayoutRowsOk(db: Db)
  {
    forall p | 0 <= p < |db.payouts| :: PayoutOk(db, db.payouts[p])
  }

  ghost predicate PayoutsDistinct(db: Db)
  {
    forall p, q | 0 <= p < q < |db.payouts| ::
      && db.payouts[p].txn != db.payouts[q].txn
      && (db.payouts[p].reversal.Some? ==> db.payouts[p].reversal != db.payouts[q].reversal)
  }

  ghost predicate PayoutTxnsOwned(db: Db)
  {
    && (forall t | t in db.txns && db.txns[t] == PayoutTxn :: HasPayout(db, t))
    && (forall t | t in db.txns && db.txns[t] == ReversalTxn :: HasReversedPayout(db, t))
  }

  /** Payout and reversal transactions are matched one to one with payouts and failed payouts. */
  ghost predicate PayoutsOk(db: Db)
  {
    PayoutRowsOk(db) && PayoutsDistinct(db) && PayoutTxnsOwned(db)
  }

  // ---- Preservation: a posting and the record it belongs to ----

  ghost predicate KeepsOwners(db: Db, db': Db)
  {
    && |db.wallets| <= |db'.wallets|
    && (forall w | 0 <= w < |db.wallets| ::
          db'.wallets[w].merchant == db.wallets[w].merchant && db'.wallets[w].currency == db.wallets[w].currency)
    && |db.accounts| <= |db'.accounts|
    && (forall a | 0 <= a < |db.accounts| ::
          db'.accounts[a].merchant == db.accounts[a].merchant && db'.accounts[a].currency == db.accounts[a].currency)
  }

  ghost predicate SameTxn(db: Db, db': Db, t: Id)
  {
    && t in db.txns && t in db'.txns && db'.txns[t] == db.txns[t]
    && EntriesOf(db'.entries, t) == EntriesOf(db.entries, t)
  }

  ghost predicate KeepsTxns(db: Db, db': Db, added: set<Id>)
  {
    && (forall t | t in db.txns :: SameTxn(db, db', t))
    && (forall t | t in db'.txns :: t in db.txns || t in added)
  }

  /** Rows keep their owners, and the ledger gains at most the transactions `added`. */
  ghost predicate GrowsBy(db: Db, db': Db, added: set<Id>)
  {
    KeepsOwners(db, db') && KeepsTxns(db, db', added)
  }

  function TxnOf(op: Op): set<Id>
  {
    match op
    case Deposit(_, _, t) => {t}
    case Transfer(_, _, _, _, _, t) => {t}
    case Confirm(_, _, _, t, _, _) => {t}
    case Sweep(_, _, _, t, _) => {t}
    case Reverse(_, _, t, _) => {t}
    case _ => {}
  }

  lemma SingleGrows(db: Db, kind: Kind, e: Entry)
    requires EntriesOk(db) && Postable(db, e)
    ensures GrowsBy(db, Single(db, kind, e), {e.txn})
    ensures EntriesOf(Single(db, kind, e).entries, e.txn) == [e]
  {
    hide EntriesOf;
    var db' := Single(db, kind, e);
    assert KeepsOwners(db, db');
    assert KeepsTxns(db, db', {e.txn}) && EntriesOf(db'.entries, e.txn) == [e] by {
      InsertKeepsEntries(db, e.txn, kind, [e]);
    }
  }

  lemma DoubleGrows(db: Db, from: Id, to: Id, amount: int, printed: int, txn: Id)
    requires EntriesOk(db) && Transferable(db, from, to, amount, printed, txn)
    ensures GrowsBy(db, Double(db, from, to, amount, printed, txn), {txn})
  {
    hide EntriesOf;
    var db' := Double(db, from, to, amount, printed, txn);
    var c := db.wallets[from].currency;
    assert KeepsOwners(db, db');
    assert KeepsTxns(db, db', {txn}) by {
      InsertKeepsEntries(db, txn, TransferTxn, [Entry(txn, from, Debit, printed, c), Entry(txn, to, Credit, printed, c)]);
    }
  }

  lemma StepGrows(op: Op, st: State)
    requires EntriesOk(st.db) && Guard(op, st)
    ensures GrowsBy(st.db, Apply(op, st).db, TxnOf(op))
    ensures forall t | t in TxnOf(op) :: t !in st.db.txns
  {
    hide EntriesOf;
    var db := st.db;
    match op
    case Deposit(w, amount, txn) => SingleGrows(db, DepositTxn, DepositEntry(st, w, amount, txn));
    case Transfer(_, from, to, amount, printed, txn) => DoubleGrows(db, from, to, amount, printed, txn);
    case Confirm(_, i, w, txn, _, _) => SingleGrows(db, ChargeTxn, ChargeEntry(st, i, w, txn));
    case Sweep(w, _, _, txn, _) => SingleGrows(db, PayoutTxn, SweepEntry(st, w, txn));
    case Reverse(c, _, txn, _) => SingleGrows(db, ReversalTxn, ReversalEntry(st.claims[c].row, txn));
    case _ =>
  }

  lemma ChargeOwnersStay(db: Db, db': Db)
    requires db.charges <= db'.charges
    ensures forall i | HasCharge(db, i) :: HasCharge(db', i)
    ensures forall t | HasChargeFor(db, t) :: HasChargeFor(db', t)
  {
    forall i | HasCharge(db, i)
      ensures HasCharge(db', i)
    {
      var k :| 0 <= k < |db.charges| && db.charges[k].intent == i;
      assert db'.charges[k].intent == i;
    }
    forall t | HasChargeFor(db, t)
      ensures HasChargeFor(db', t)
    {
      var k :| 0 <= k < |db.charges| && db.charges[k].txn == t;
      assert db'.charges[k].txn == t;
    }
  }

  lemma ChargeStaysOk(db: Db, db': Db, added: set<Id>, c: Charge)
    requires GrowsBy(db, db', added) && ChargeOk(db, c)
    requires c.intent < |db'.intents| && db'.intents[c.intent] == db.intents[c.intent]
    ensures ChargeOk(db', c)
  {
  }

  /** A confirm adds one charge, of the intent's terms, and makes that intent alone succeed. */
  lemma ConfirmAddsCharge(op: Op, st: State)
    requires EntriesOk(st.db) && Guard(op, st) && op.Confirm?
    ensures op.intent < |st.db.intents|
    ensures var db, db' := st.db, Apply(op, st).db;
            var c := Charge(op.charge, op.intent, op.merchant, db.intents[op.intent].amount, db.intents[op.intent].currency, op.txn);
            && db'.charges == db.charges + [c] && ChargeOk(db', c)
            && op.txn !in db.txns && db'.txns == db.txns[op.txn := ChargeTxn]
            && db.intents[op.intent].status == RequiresConfirmation
            && db'.intents == db.intents[op.intent := db.intents[op.intent].(status := Succeeded)]
            && GrowsBy(db, db', {op.txn})
  {
    hide EntriesOf, EndpointsOf, NoDuplicates;
    var db, db' := st.db, Apply(op, st).db;
    var e := ChargeEntry(st, op.intent, op.wallet, op.txn);
    assert GrowsBy(db, db', {op.txn}) && EntriesOf(db'.entries, op.txn) == [e] by {
      SingleGrows(db, ChargeTxn, e);
    }
  }

  lemma NewChargeIsFound(db: Db, db': Db, c: Charge)
    requires db'.charges == db.charges + [c]
    ensures HasCharge(db', c.intent) && HasChargeFor(db', c.txn)
  {
    assert db'.charges[|db.charges|] == c;
  }

  lemma ConfirmKeepsCharges(op: Op, st: State)
    requires EntriesOk(st.db) && ChargesOk(st.db) && Guard(op, st) && op.Confirm?
    ensures ChargesOk(Apply(op, st).db)
  {
    hide EntriesOf, Guard, Apply, GrowsBy, BacksCharge, HasCharge, HasChargeFor;
    var db, db' := st.db, Apply(op, st).db;
    ConfirmAddsCharge(op, st);
    ChargeOwnersStay(db, db');
    NewChargeIsFound(db, db', db'.charges[|db.charges|]);
    assert HasCharge(db', op.intent) && HasChargeFor(db', op.txn);
    forall k | 0 <= k < |db.charges|
      ensures ChargeOk(db', db'.charges[k]) && db.charges[k].intent != op.intent && db.charges[k].txn != op.txn
    {
      assert ChargeOk(db, db.charges[k]);
      ChargeStaysOk(db, db', {op.txn}, db.charges[k]);
    }
  }

  /** Nothing but a confirm adds a charge or its transaction, or touches an intent that has succeeded or is to. */
  lemma OthersAddNoCharge(op: Op, st: State)
    requires Guard(op, st) && !op.Confirm?
    ensures var db, db' := st.db, Apply(op, st).db;
            && db'.charges == db.charges && |db.intents| <= |db'.intents|
            && (forall i | 0 <= i < |db.intents| && db.intents[i].status == Succeeded :: db'.intents[i] == db.intents[i])
            && (forall i | 0 <= i < |db'.intents| && db'.intents[i].status == Succeeded ::
                  i < |db.intents| && db.intents[i].status == Succeeded)
            && (forall t | t in db'.txns && db'.txns[t] == ChargeTxn :: t in db.txns && db.txns[t] == ChargeTxn)
  {
    hide EndpointsOf, NoDuplicates;
  }

  lemma StepKeepsCharges(op: Op, st: State)
    requires EntriesOk(st.db) && ChargesOk(st.db) && Guard(op, st)
    ensures ChargesOk(Apply(op, st).db)
  {
    hide EntriesOf, Guard, Apply, GrowsBy, BacksCharge, HasCharge, HasChargeFor;
    if op.Confirm? {
      ConfirmKeepsCharges(op, st);
    } else {
      var db, db' := st.db, Apply(op, st).db;
      StepGrows(op, st);
      OthersAddNoCharge(op, st);
      ChargeOwnersStay(db, db');
      forall k | 0 <= k < |db.charges|
        ensures ChargeOk(db', db'.charges[k])
      {
        assert ChargeOk(db, db.charges[k]);
        ChargeStaysOk(db, db', TxnOf(op), db.charges[k]);
      }
    }
  }

  lemma PayoutStaysOk(db: Db, db': Db, added: set<Id>, p: Payout)
    requires GrowsBy(db, db', added) && PayoutOk(db, p)
    ensures PayoutOk(db', p)
  {
  }

  lemma PayoutOwnersStay(db: Db, db': Db)
    requires |db.payouts| <= |db'.payouts|
    requires forall q | 0 <= q < |db.payouts| ::
               && db'.payouts[q].txn == db.payouts[q].txn
               && (db.payouts[q].reversal.Some? ==> db'.payouts[q].reversal == db.payouts[q].reversal)
    ensures forall t | HasPayout(db, t) :: HasPayout(db', t)
    ensures forall t: Id | HasReversedPayout(db, t) :: HasReversedPayout(db', t)
  {
    forall t | HasPayout(db, t)
      ensures HasPayout(db', t)
    {
      var q :| 0 <= q < |db.payouts| && db.payouts[q].txn == t;
      assert db'.payouts[q].txn == t;
    }
    forall t: Id | HasReversedPayout(db, t)
      ensures HasReversedPayout(db', t)
    {
      var q :| 0 <= q < |db.payouts| && db.payouts[q].reversal == Some(t);
      assert db'.payouts[q].reversal == Some(t);
    }
  }

  /** The transactions of the table before keep their owners, and any new one has one. */
  lemma OwnersKept(db: Db, db': Db, added: set<Id>)
    requires PayoutTxnsOwned(db) && KeepsTxns(db, db', added)
    requires |db.payouts| <= |db'.payouts|
    requires forall q | 0 <= q < |db.payouts| ::
               && db'.payouts[q].txn == db.payouts[q].txn
               && (db.payouts[q].reversal.Some? ==> db'.payouts[q].reversal == db.payouts[q].reversal)
    requires forall t | t in added && t in db'.txns && db'.txns[t] == PayoutTxn :: HasPayout(db', t)
    requires forall t | t in added && t in db'.txns && db'.txns[t] == ReversalTxn :: HasReversedPayout(db', t)
    ensures PayoutTxnsOwned(db')
  {
    hide EntriesOf;
    PayoutOwnersStay(db, db');
    forall t | t in db'.txns
      ensures db'.txns[t] == PayoutTxn ==> HasPayout(db', t)
      ensures db'.txns[t] == ReversalTxn ==> HasReversedPayout(db', t)
    {
      assert t in db.txns ==> SameTxn(db, db', t);
    }
  }

  lemma RowsStayOk(db: Db, db': Db, added: set<Id>, except: Id)
    requires PayoutRowsOk(db) && GrowsBy(db, db', added) && |db.payouts| <= |db'.payouts|
    requires forall q | 0 <= q < |db.payouts| && q != except :: db'.payouts[q] == db.payouts[q]
    ensures forall q | 0 <= q < |db.payouts| && q != except :: PayoutOk(db', db'.payouts[q])
    ensures forall q, t | 0 <= q < |db.payouts| && t !in db.txns ::
              db.payouts[q].txn != t && db.payouts[q].reversal != Some(t)
  {
    hide EntriesOf;
    forall q | 0 <= q < |db.payouts|
      ensures q != except ==> PayoutOk(db', db'.payouts[q])
      ensures forall t | t !in db.txns :: db.payouts[q].txn != t && db.payouts[q].reversal != Some(t)
    {
      assert PayoutOk(db, db.payouts[q]);
      PayoutStaysOk(db, db', added, db.payouts[q]);
    }
  }

  lemma SweepKeepsPayouts(op: Op, st: State)
    requires EntriesOk(st.db) && PayoutsOk(st.db) && Guard(op, st) && op.Sweep?
    ensures PayoutsOk(Apply(op, st).db)
  {
    hide EntriesOf, PayoutTxnsOwned, GrowsBy;
    var db, db' := st.db, Apply(op, st).db;
    var n := |db.payouts|;
    var e := SweepEntry(st, op.wallet, op.txn);
    SingleGrows(db, PayoutTxn, e);
    assert GrowsBy(db, db', {op.txn}) by { StepGrows(op, st); }
    RowsStayOk(db, db', {op.txn}, n);
    assert PayoutOk(db', db'.payouts[n]);
    assert PayoutTxnsOwned(db') by {
      assert HasPayout(db', op.txn);
      SweepKeepsOwners(op, st);
    }
  }

  lemma SweepKeepsOwners(op: Op, st: State)
    requires EntriesOk(st.db) && PayoutTxnsOwned(st.db) && Guard(op, st) && op.Sweep?
    requires HasPayout(Apply(op, st).db, op.txn)
    ensures PayoutTxnsOwned(Apply(op, st).db)
  {
    hide EntriesOf, PayoutTxnsOwned;
    StepGrows(op, st);
    OwnersKept(st.db, Apply(op, st).db, {op.txn});
  }

  lemma SecondReversalOrphansTheFirst(db: Db, p: Id, row: Payout, txn: Id, endpoints: seq<Id>)
    requires PayoutRowsOk(db) && PayoutsDistinct(db) && p < |db.payouts| && db.payouts[p].status == Failed
    requires row.wallet < |db.wallets| && txn !in db.txns
    ensures !PayoutTxnsOwned(Reversed(db, p, row, txn, endpoints))
  {
    hide EntriesOf;
    var db' := Reversed(db, p, row, txn, endpoints);
    assert PayoutOk(db, db.payouts[p]);
    var r := db.payouts[p].reversal.value;
    assert r in db'.txns && db'.txns[r] == ReversalTxn && r != txn;
    forall q | 0 <= q < |db'.payouts|
      ensures db'.payouts[q].reversal != Some(r)
    {
    }
    assert !HasReversedPayout(db', r);
  }

  lemma ReversalGrows(db: Db, p: Id, row: Payout, txn: Id, endpoints: seq<Id>)
    requires EntriesOk(db) && p < |db.payouts| && Postable(db, ReversalEntry(row, txn))
    ensures GrowsBy(db, Reversed(db, p, row, txn, endpoints), {txn})
    ensures EntriesOf(Reversed(db, p, row, txn, endpoints).entries, txn) == [ReversalEntry(row, txn)]
  {
    hide EntriesOf;
    SingleGrows(db, ReversalTxn, ReversalEntry(row, txn));
  }

  lemma ReversalKeepsPayouts(db: Db, p: Id, row: Payout, txn: Id, endpoints: seq<Id>)
    requires EntriesOk(db) && PayoutsOk(db) && p < |db.payouts| && db.payouts[p].status != Failed
    requires SameTerms(row, db.payouts[p]) && row.attempts + 1 == POLICY.maxAttempts
    requires row.wallet < |db.wallets| && Postable(db, ReversalEntry(row, txn))
    ensures PayoutsOk(Reversed(db, p, row, txn, endpoints))
  {
    hide EntriesOf, PayoutTxnsOwned;
    var db' := Reversed(db, p, row, txn, endpoints);
    ReversalGrows(db, p, row, txn, endpoints);
    RowsStayOk(db, db', {txn}, p);
    assert PayoutOk(db, db.payouts[p]);
    assert PayoutOk(db', db'.payouts[p]) by {
      PayoutStaysOk(db, db', {txn}, db.payouts[p]);
    }
    assert PayoutTxnsOwned(db') by {
      assert HasReversedPayout(db', txn);
      OwnersKept(db, db', {txn});
    }
  }

  /** Leases, retries and payments change one payout's scheduling or mark it paid. */
  lemma ScheduleKeepsPayouts(db: Db, db': Db, p: Id)
    requires PayoutsOk(db) && GrowsBy(db, db', {}) && p < |db.payouts| == |db'.payouts|
    requires forall q | 0 <= q < |db.payouts| && q != p :: db'.payouts[q] == db.payouts[q]
    requires SameTerms(db.payouts[p], db'.payouts[p]) && db'.payouts[p].reversal == db.payouts[p].reversal
    requires db.payouts[p].status != Failed && db'.payouts[p].status != Failed
    requires db'.payouts[p].attempts < POLICY.maxAttempts
    ensures PayoutsOk(db')
  {
    hide EntriesOf, PayoutTxnsOwned;
    RowsStayOk(db, db', {}, p);
    assert PayoutOk(db, db.payouts[p]);
    PayoutStaysOk(db, db', {}, db.payouts[p]);
    OwnersKept(db, db', {});
  }

  lemma StepKeepsPayouts(op: Op, st: State)
    requires EntriesOk(st.db) && PayoutsOk(st.db) && (Writes(op) ==> ClaimsOk(st)) && Guard(op, st)
    ensures PayoutsOk(Apply(op, st).db)
  {
    hide EntriesOf, PayoutTxnsOwned, PayoutsDistinct, ClaimsOk, EntriesOk;
    var db, db' := st.db, Apply(op, st).db;
    if op.Sweep? {
      SweepKeepsPayouts(op, st);
    } else if op.Reverse? {
      LiveClaimIsCurrent(st, op.claim);
      ReversalKeepsPayouts(db, st.claims[op.claim].payout, st.claims[op.claim].row, op.txn, op.endpoints);
    } else if op.Lease? || op.Pay? || op.Retry? {
      var p := if op.Lease? then op.payout else st.claims[op.claim].payout;
      if !op.Lease? {
        LiveClaimIsCurrent(st, op.claim);
      }
      assert PayoutOk(db, db.payouts[p]);
      StepGrows(op, st);
      ScheduleKeepsPayouts(db, db', p);
    } else {
      StepGrows(op, st);
      OtherOpsKeepPayouts(db, db', TxnOf(op));
    }
  }

  lemma OtherOpsKeepPayouts(db: Db, db': Db, added: set<Id>)
    requires PayoutsOk(db) && GrowsBy(db, db', added) && db'.payouts == db.payouts
    requires forall t | t in added && t in db'.txns :: db'.txns[t] != PayoutTxn && db'.txns[t] != ReversalTxn
    ensures PayoutsOk(db')
  {
    hide EntriesOf, PayoutTxnsOwned;
    RowsStayOk(db, db', added, |db.payouts|);
    OwnersKept(db, db', added);
  }
}
