/** Everything that holds of the committed money tables in every run of atomic operations. */
module Invariants {
  import opened Options
  import opened Sums
  import opened Ledger
  import opened Books
  import opened Totals
  import opened PayoutQueue
  import opened Records
  import opened Outbox
  import Q = LeaseQueue

  ghost predicate Consistent(st: State)
  {
    && LedgerOk(st.db)
    && BooksBalance(st.db)
    && ChargesOk(st.db)
    && PayoutsOk(st.db)
    && ClaimsOk(st)
    && OutboxOk(st.db)
  }

  lemma InitialIsConsistent()
    ensures Consistent(Initial)
  {
    forall currency: Id
      ensures BookBalances(EmptyDb, currency)
    {
    }
  }

  lemma StepKeepsConsistent(op: Op, st: State)
    requires Consistent(st) && Guard(op, st)
    ensures Consistent(Apply(op, st))
  {
    hide Guard, Apply, ChargesOk, PayoutsOk, OutboxOk, ClaimsOk, BookBalances, EntriesOk, BalancesInRange, TxnsShaped, VersionsCount;
    StepKeepsLedger(op, st);
    StepKeepsCharges(op, st);
    StepKeepsPayouts(op, st);
    StepKeepsClaims(op, st);
    StepKeepsOutbox(op, st);
    forall currency: Id
      ensures BookBalances(Apply(op, st).db, currency)
    {
      StepKeepsBook(op, st, currency);
    }
  }

  lemma {:induction false} RunIsConsistent(ops: seq<Op>)
    requires ValidRun(Initial, ops)
    ensures Consistent(After(Initial, ops))
    decreases |ops|
  {
    hide Consistent, Guard, Apply;
    if ops == [] {
      InitialIsConsistent();
    } else {
      var before := ops[..|ops| - 1];
      RunIsConsistent(before);
      StepKeepsConsistent(ops[|ops| - 1], After(Initial, before));
    }
  }

  // ---- What later states remember of earlier ones ----

  /**
   * Tables only grow; wallets keep their owner and never lose a version; terms never change; statuses that are final
   * are never left; posted transactions, entries, charges and events stay.
   */
  ghost predicate Remembers(db: Db, db': Db)
  {
    && KeepsReports(db, db')
    && KeepsWallets(db, db')
    && (forall i | 0 <= i < |db.intents| ::
          && db'.intents[i].(status := db.intents[i].status) == db.intents[i]
          && (db.intents[i].status != RequiresConfirmation ==> db'.intents[i] == db.intents[i]))
    && (forall p | 0 <= p < |db.payouts| :: SameTerms(db.payouts[p], db'.payouts[p]))
    && |db.accounts| <= |db'.accounts|
    && (forall a | 0 <= a < |db.accounts| ::
          db'.accounts[a].merchant == db.accounts[a].merchant && db'.accounts[a].currency == db.accounts[a].currency)
    && db.txns.Keys <= db'.txns.Keys
    && (forall t | t in db.txns :: db'.txns[t] == db.txns[t])
    && db.entries <= db'.entries
    && db.events <= db'.events
  }

  ghost predicate KeepsWallets(db: Db, db': Db)
  {
    && |db.wallets| <= |db'.wallets|
    && forall w | 0 <= w < |db.wallets| :: KeepsWallet(db.wallets[w], db'.wallets[w])
  }

  ghost predicate KeepsWallet(w: Wallet, w': Wallet)
  {
    w'.merchant == w.merchant && w'.currency == w.currency && w.version <= w'.version
  }

  lemma StepKeepsWallets(op: Op, st: State)
    requires ClaimsOk(st) && Guard(op, st)
    ensures KeepsWallets(st.db, Apply(op, st).db)
  {
    hide ClaimsOk, EndpointsOf, NoDuplicates;
  }

  lemma StepRemembers(op: Op, st: State)
    requires ClaimsOk(st) && Guard(op, st)
    ensures Remembers(st.db, Apply(op, st).db)
  {
    hide ClaimsOk, KeepsReports, KeepsWallets, EndpointsOf, NoDuplicates;
    StepKeepsReports(op, st);
    StepKeepsWallets(op, st);
  }

  lemma RemembersIsTransitive(a: Db, b: Db, c: Db)
    requires Remembers(a, b) && Remembers(b, c)
    ensures Remembers(a, c)
  {
  }

  lemma {:induction false} LaterRemembers(ops: seq<Op>, n: nat)
    requires ValidRun(Initial, ops) && n <= |ops|
    ensures ValidRun(Initial, ops[..n])
    ensures Remembers(After(Initial, ops[..n]).db, After(Initial, ops).db)
    decreases |ops|
  {
    hide Remembers, Guard, Apply, Consistent;
    if n == |ops| {
      assert ops[..n] == ops;
      RemembersItself(After(Initial, ops).db);
    } else {
      var before := ops[..|ops| - 1];
      assert before[..n] == ops[..n];
      LaterRemembers(before, n);
      RunIsConsistent(before);
      ConsistentClaims(After(Initial, before));
      StepRemembers(ops[|ops| - 1], After(Initial, before));
      RemembersIsTransitive(After(Initial, ops[..n]).db, After(Initial, before).db, After(Initial, ops).db);
    }
  }

  lemma RemembersItself(db: Db)
    ensures Remembers(db, db)
  {
  }

  lemma ConsistentClaims(st: State)
    requires Consistent(st)
    ensures ClaimsOk(st)
  {
  }

  // ---- Main results on runs ----

  /** In every run, for each currency, money in wallets is money that came in less money that went out. */
  lemma BooksBalanceInEveryRun(ops: seq<Op>, currency: Id)
    requires ValidRun(Initial, ops)
    ensures var db := After(Initial, ops).db;
            Sum(db.wallets, BalanceIn(currency))
            == Sum(db.entries, DepositIn(db.txns, currency)) + Sum(db.intents, SucceededIn(currency))
               - Sum(db.payouts, OutIn(currency))
  {
    hide Sum, Guard, Apply;
    RunIsConsistent(ops);
    assert BookBalances(After(Initial, ops).db, currency);
  }

  /** What the transfers of a run put between a wallet's balance and its entries by printing their amounts inexactly. */
  function Drift(ops: seq<Op>, w: Id): int
  {
    if ops == [] then 0 else Drift(ops[..|ops| - 1], w) + OpGap(ops[|ops| - 1], w)
  }

  lemma {:induction false} GapIsDrift(ops: seq<Op>, w: Id)
    requires ValidRun(Initial, ops) && w < |After(Initial, ops).db.wallets|
    ensures Gap(After(Initial, ops).db, w) == Drift(ops, w)
    decreases |ops|
  {
    hide Guard, Apply, Gap, OpGap;
    var n := |ops| - 1;
    var before := After(Initial, ops[..n]);
    if w < |before.db.wallets| {
      GapIsDrift(ops[..n], w);
    } else {
      NoDriftBeforeOpening(ops[..n], w);
    }
    RunIsConsistent(ops[..n]);
    StepMovesGap(ops[n], before, w);
  }

  lemma {:induction false} NoDriftBeforeOpening(ops: seq<Op>, w: Id)
    requires ValidRun(Initial, ops) && |After(Initial, ops).db.wallets| <= w
    ensures Drift(ops, w) == 0
    decreases |ops|
  {
    hide ClaimsOk;
    if ops != [] {
      var n := |ops| - 1;
      RunIsConsistent(ops[..n]);
      ConsistentClaims(After(Initial, ops[..n]));
      StepKeepsWallets(ops[n], After(Initial, ops[..n]));
      NoDriftBeforeOpening(ops[..n], w);
    }
  }

  /**
   * In every run each balance is its ledger's credits minus debits plus what inexactly printed transfers put between
   * them, and is never negative; and each version counts transfers.
   */
  lemma BalancesAgreeInEveryRun(ops: seq<Op>, w: Id)
    requires ValidRun(Initial, ops) && w < |After(Initial, ops).db.wallets|
    ensures var db := After(Initial, ops).db;
            && 0 <= db.wallets[w].balance == Sum(db.entries, SignedOn(w)) + Drift(ops, w)
            && db.wallets[w].version == |TransfersOn(db, w)|
  {
    hide Sum, Guard, Apply, Drift;
    RunIsConsistent(ops);
    GapIsDrift(ops, w);
  }

  /** In every run each transfer is one debit and one credit of the same positive amount, in the currency of both wallets. */
  lemma TransfersBalanceInEveryRun(ops: seq<Op>, t: Id)
    requires ValidRun(Initial, ops) && t in After(Initial, ops).db.txns && After(Initial, ops).db.txns[t] == TransferTxn
    ensures var db := After(Initial, ops).db;
            var es := EntriesOf(db.entries, t);
            && |es| == 2 && 0 < es[0].amount
            && es[0].wallet < |db.wallets| && es[1].wallet < |db.wallets| && es[0].wallet != es[1].wallet
            && db.wallets[es[0].wallet].currency == db.wallets[es[1].wallet].currency
            && es == [Entry(t, es[0].wallet, Debit, es[0].amount, db.wallets[es[0].wallet].currency),
                      Entry(t, es[1].wallet, Credit, es[0].amount, db.wallets[es[0].wallet].currency)]
  {
    hide Guard, Apply, BooksBalance, ChargesOk, PayoutsOk, ClaimsOk, OutboxOk, EntriesOf;
    RunIsConsistent(ops);
    EntriesOfAreEntries(After(Initial, ops).db.entries, t);
  }

  lemma {:induction false} EntriesOfAreEntries(entries: seq<Entry>, t: Id)
    ensures forall e | e in EntriesOf(entries, t) :: e in entries && e.txn == t
  {
    if entries != [] {
      EntriesOfAreEntries(entries[..|entries| - 1], t);
    }
  }

  /** The reversals of `payout` among the posted transactions. */
  ghost function ReversalsOf(db: Db, p: Payout): set<Id>
  {
    set t | t in db.txns && db.txns[t] == ReversalTxn && p.reversal == Some(t)
  }

  /**
   * In every run: a failed payout has exactly one reversal, which credits what its sweep debited to the same wallet;
   * a pending or paid one has none; and every posted reversal belongs to exactly one payout.
   */
  lemma CompensatedExactlyOnce(ops: seq<Op>, p: Id)
    requires ValidRun(Initial, ops) && p < |After(Initial, ops).db.payouts|
    ensures var db := After(Initial, ops).db;
            var payout := db.payouts[p];
            && EntriesOf(db.entries, payout.txn) == [Entry(payout.txn, payout.wallet, Debit, payout.amount, payout.currency)]
            && |ReversalsOf(db, payout)| == (if payout.status == Failed then 1 else 0)
            && (forall r | r in ReversalsOf(db, payout) ::
                  && EntriesOf(db.entries, r) == [Entry(r, payout.wallet, Credit, payout.amount, payout.currency)]
                  && forall q | 0 <= q < |db.payouts| && r in ReversalsOf(db, db.payouts[q]) :: q == p)
            && (forall t | t in db.txns && db.txns[t] == ReversalTxn :: HasReversedPayout(db, t))
  {
    hide Guard, Apply, LedgerOk, BooksBalance, ChargesOk, ClaimsOk, OutboxOk, EntriesOf;
    RunIsConsistent(ops);
    var db := After(Initial, ops).db;
    assert PayoutOk(db, db.payouts[p]);
    if db.payouts[p].status == Failed {
      assert ReversalsOf(db, db.payouts[p]) == {db.payouts[p].reversal.value};
    } else {
      assert ReversalsOf(db, db.payouts[p]) == {};
    }
  }

  /** In every run: attempts recorded, and the least time between the first failure and a reversal. */
  lemma PayoutAttemptsAndTiming(ops: seq<Op>, op: Op)
    requires ValidRun(Initial, ops) && Guard(op, After(Initial, ops))
    ensures var db := After(Initial, ops).db;
            forall p | 0 <= p < |db.payouts| ::
              if db.payouts[p].status == Failed then db.payouts[p].attempts == 3 else db.payouts[p].attempts <= 2
    ensures var st := After(Initial, ops);
            op.Reverse? ==>
              var payout := st.db.payouts[st.claims[op.claim].payout];
              payout.status == Pending && |payout.failures| == 2 && payout.failures[0] + 30 <= st.now
  {
    hide Apply, LedgerOk, BooksBalance, ChargesOk, ClaimsOk, OutboxOk, EntriesOf;
    RunIsConsistent(ops);
    var st := After(Initial, ops);
    forall p | 0 <= p < |st.db.payouts|
      ensures if st.db.payouts[p].status == Failed then st.db.payouts[p].attempts == 3 else st.db.payouts[p].attempts <= 2
    {
      assert PayoutOk(st.db, st.db.payouts[p]);
    }
    if op.Reverse? {
      LiveClaimIsCurrent(st, op.claim);
      Q.Delays();
    }
  }

  /** In every run no payout is under two live leases, and a leased payout is pending and not due. */
  lemma PayoutLeasesAreExclusive(ops: seq<Op>, c: Id, d: Id)
    requires ValidRun(Initial, ops) && Live(After(Initial, ops), c) && Live(After(Initial, ops), d)
    ensures var st := After(Initial, ops);
            && (c != d ==> st.claims[c].payout != st.claims[d].payout)
            && st.db.payouts[st.claims[c].payout].status == Pending
            && !Guard(Lease(st.claims[c].payout), st)
  {
    hide Apply, LedgerOk, BooksBalance, ChargesOk, PayoutsOk, OutboxOk;
    RunIsConsistent(ops);
    var st := After(Initial, ops);
    LiveClaimIsCurrent(st, c);
    assert Q.Live(QueueOf(st), c) && Q.Live(QueueOf(st), d);
  }

  /** In every run an intent has succeeded if and only if exactly one charge, backed by one credit, fulfils it. */
  lemma IntentsTiedToMoney(ops: seq<Op>, i: Id)
    requires ValidRun(Initial, ops) && i < |After(Initial, ops).db.intents|
    ensures var db := After(Initial, ops).db;
            && (db.intents[i].status == Succeeded <==>
                exists k | 0 <= k < |db.charges| ::
                  && db.charges[k].intent == i
                  && forall j | 0 <= j < |db.charges| && db.charges[j].intent == i :: j == k)
            && forall k | 0 <= k < |db.charges| && db.charges[k].intent == i :: ChargeOk(db, db.charges[k])
  {
    hide Guard, Apply, LedgerOk, BooksBalance, PayoutsOk, ClaimsOk, OutboxOk, EntriesOf;
    RunIsConsistent(ops);
    SucceededIffChargedOnce(After(Initial, ops).db, i);
  }

  lemma {:induction false} ValidAt(ops: seq<Op>, k: nat)
    requires ValidRun(Initial, ops) && k < |ops|
    ensures ValidRun(Initial, ops[..k]) && Guard(ops[k], After(Initial, ops[..k]))
    ensures ValidRun(Initial, ops[..k + 1]) && After(Initial, ops[..k + 1]) == Apply(ops[k], After(Initial, ops[..k]))
    decreases |ops|
  {
    hide Guard, Apply;
    var n := |ops| - 1;
    if k < n {
      ValidAt(ops[..n], k);
      assert ops[..n][..k] == ops[..k] && ops[..n][..k + 1] == ops[..k + 1];
    } else {
      assert ops[..k + 1] == ops && ops[..k + 1][..k] == ops[..k];
    }
  }

  predicate Ends(op: Op, intent: Id)
  {
    (op.Confirm? || op.Cancel?) && op.intent == intent
  }

  lemma EndsInFinalStatus(op: Op, st: State, intent: Id)
    requires Guard(op, st) && Ends(op, intent)
    ensures intent < |st.db.intents| && st.db.intents[intent].status == RequiresConfirmation
    ensures intent < |Apply(op, st).db.intents| && Apply(op, st).db.intents[intent].status != RequiresConfirmation
  {
  }

  /** At most one confirm or cancel of an intent commits in a whole run. */
  lemma IntentsEndOnce(ops: seq<Op>, intent: Id, j: nat, k: nat)
    requires ValidRun(Initial, ops) && j < |ops| && k < |ops|
    requires Ends(ops[j], intent) && Ends(ops[k], intent)
    ensures j == k
  {
    hide Guard, Apply;
    if j < k {
      EndedIntentsStayEnded(ops, intent, j, k);
    } else if k < j {
      EndedIntentsStayEnded(ops, intent, k, j);
    }
  }

  lemma EndedIntentsStayEnded(ops: seq<Op>, intent: Id, j: nat, k: nat)
    requires ValidRun(Initial, ops) && j < k < |ops| && Ends(ops[j], intent)
    ensures !Ends(ops[k], intent)
  {
    hide Guard, Apply, ValidRun, After, KeepsReports, KeepsWallets;
    ValidAt(ops, j);
    ValidAt(ops, k);
    EndsInFinalStatus(ops[j], After(Initial, ops[..j]), intent);
    assert ops[..k][..j + 1] == ops[..j + 1];
    LaterRemembers(ops[..k], j + 1);
    if Ends(ops[k], intent) {
      EndsInFinalStatus(ops[k], After(Initial, ops[..k]), intent);
    }
  }

  // ---- The outbox over a run ----

  /** The event `op` writes for `endpoint` when it commits in state `st`, if it writes one. */
  ghost predicate Emits(op: Op, st: State, e: Event)
    requires Guard(op, st)
  {
    match op
    case Confirm(m, i, _, _, charge, eps) =>
      e.source == PaymentSucceeded(i, charge) && e.merchant == m && e.endpoint in eps
      && e.amount == st.db.intents[i].amount && e.currency == st.db.intents[i].currency
    case Pay(c, eps) => e.source == PayoutPaid(st.claims[c].payout) && e.endpoint in eps && Reports(st.claims[c].row, e)
    case Reverse(c, _, _, eps) => e.source == PayoutFailed(st.claims[c].payout) && e.endpoint in eps && Reports(st.claims[c].row, e)
    case _ => false
  }

  lemma StepEmits(op: Op, st: State)
    requires Guard(op, st)
    ensures var old', new' := st.db.events, Apply(op, st).db.events;
            old' <= new' && forall e :: e in new'[|old'|..] <==> Emits(op, st, e)
  {
    var old', new' := st.db.events, Apply(op, st).db.events;
    forall e
      ensures e in new'[|old'|..] <==> Emits(op, st, e)
    {
      match op
      case Confirm(m, i, _, _, charge, eps) =>
        FanoutHas(PaymentSucceeded(i, charge), m, eps, st.db.intents[i].amount, st.db.intents[i].currency, e);
        assert new'[|old'|..] == Fanout(PaymentSucceeded(i, charge), m, eps, st.db.intents[i].amount, st.db.intents[i].currency);
      case Pay(c, eps) =>
        var Claim(p, row) := st.claims[c];
        FanoutHas(PayoutPaid(p), row.merchant, eps, row.amount, row.currency, e);
        assert new'[|old'|..] == Fanout(PayoutPaid(p), row.merchant, eps, row.amount, row.currency);
      case Reverse(c, _, _, eps) =>
        var Claim(p, row) := st.claims[c];
        FanoutHas(PayoutFailed(p), row.merchant, eps, row.amount, row.currency, e);
        assert new'[|old'|..] == Fanout(PayoutFailed(p), row.merchant, eps, row.amount, row.currency);
      case _ =>
    }
  }

  lemma FanoutHas(s: Source, merchant: Id, eps: seq<Id>, amount: int, currency: Id, e: Event)
    ensures e in Fanout(s, merchant, eps, amount, currency)
       <==> e == Event(s, merchant, e.endpoint, amount, currency) && e.endpoint in eps
  {
    var f := Fanout(s, merchant, eps, amount, currency);
    if e == Event(s, merchant, e.endpoint, amount, currency) && e.endpoint in eps {
      var i :| 0 <= i < |eps| && eps[i] == e.endpoint;
      assert f[i] == e;
    }
  }

  ghost predicate EmittedInRun(ops: seq<Op>, e: Event)
    requires ValidRun(Initial, ops)
  {
    exists k | 0 <= k < |ops| :: EmittedAt(ops, k, e)
  }

  ghost predicate EmittedAt(ops: seq<Op>, k: nat, e: Event)
    requires k < |ops|
  {
    ValidRun(Initial, ops[..k]) && Guard(ops[k], After(Initial, ops[..k])) && Emits(ops[k], After(Initial, ops[..k]), e)
  }

  /** No event without a committed change, no committed change without its events. */
  lemma {:induction false} EventsAreExactlyEmissions(ops: seq<Op>)
    requires ValidRun(Initial, ops)
    ensures forall e :: e in After(Initial, ops).db.events <==> EmittedInRun(ops, e)
    decreases |ops|
  {
    hide Guard, Apply, Emits;
    if ops != [] {
      var n := |ops| - 1;
      var before := ops[..n];
      EventsAreExactlyEmissions(before);
      StepEmits(ops[n], After(Initial, before));
      var old', new' := After(Initial, before).db.events, After(Initial, ops).db.events;
      forall e
        ensures e in new' <==> EmittedInRun(ops, e)
      {
        assert new' == old' + new'[|old'|..];
        assert EmittedAt(ops, n, e) <==> Emits(ops[n], After(Initial, before), e);
        forall k | 0 <= k < n
          ensures EmittedAt(ops, k, e) <==> EmittedAt(before, k, e)
        {
          assert ops[..k] == before[..k];
        }
      }
    }
  }

  /** In every run each committed change has exactly one outbox row for each endpoint its fan-out read. */
  lemma OutboxExactlyOnce(ops: seq<Op>, k: nat, e: Event)
    requires ValidRun(Initial, ops) && k < |ops| && EmittedAt(ops, k, e)
    ensures var events := After(Initial, ops).db.events;
            exists j | 0 <= j < |events| ::
              && events[j] == e
              && forall i | 0 <= i < |events| && SameChange(events[i].source, e.source) && events[i].endpoint == e.endpoint :: i == j
  {
    hide Guard, Apply, Emits, LedgerOk, BooksBalance, ChargesOk, PayoutsOk, ClaimsOk, EventRowsOk;
    EventsAreExactlyEmissions(ops);
    RunIsConsistent(ops);
    var events := After(Initial, ops).db.events;
    assert EmittedInRun(ops, e);
    var j :| 0 <= j < |events| && events[j] == e;
    forall i | 0 <= i < |events| && SameChange(events[i].source, e.source) && events[i].endpoint == e.endpoint
      ensures i == j
    {
      assert SameChange(events[j].source, events[i].source);
    }
  }
}
