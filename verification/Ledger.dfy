/**
 * The rows of the money tables and the atomic operations on them: what one committed database transaction may do.
 * Wallets, intents, payouts, accounts and endpoints are never deleted and their ids are opaque, so a row's id is its
 * position in its table. Transactions and charges take their ids from a supply of fresh ones before they commit.
 */
module Ledger {
  import opened Options
  import LeaseQueue

  type Id = nat

  const MAX_BIGINT: int := 0x7FFF_FFFF_FFFF_FFFF

  datatype Wallet = Wallet(merchant: Id, currency: Id, balance: int, version: nat)

  datatype Direction = Debit | Credit

  datatype Kind = DepositTxn | TransferTxn | ChargeTxn | PayoutTxn | ReversalTxn

  datatype Entry = Entry(txn: Id, wallet: Id, direction: Direction, amount: int, currency: Id)

  datatype IntentStatus = RequiresConfirmation | Succeeded | Canceled

  datatype Intent = Intent(merchant: Id, amount: int, currency: Id, status: IntentStatus)

  datatype Charge = Charge(id: Id, intent: Id, merchant: Id, amount: int, currency: Id, txn: Id)

  datatype PayoutStatus = Pending | Paid | Failed

  /** `failures` is a history variable: the times at which markRetry was recorded. */
  datatype Payout = Payout(
    merchant: Id, wallet: Id, account: Id, currency: Id, amount: int, txn: Id,
    status: PayoutStatus, reversal: Option<Id>, attempts: nat, nextAt: nat, failures: seq<nat>)

  datatype Account = Account(merchant: Id, currency: Id, active: bool)

  datatype Endpoint = Endpoint(merchant: Id, active: bool)

  datatype Source = PaymentSucceeded(intent: Id, charge: Id) | PayoutPaid(paid: Id) | PayoutFailed(failed: Id)

  /** One outbox row: what happened, and the endpoint it is to be delivered to. */
  datatype Event = Event(source: Source, merchant: Id, endpoint: Id, amount: int, currency: Id)

  datatype Db = Db(
    wallets: seq<Wallet>, txns: map<Id, Kind>, entries: seq<Entry>, intents: seq<Intent>, charges: seq<Charge>,
    payouts: seq<Payout>, accounts: seq<Account>, endpoints: seq<Endpoint>, events: seq<Event>)

  /** A payout row as a worker's claim statement returned it; its lease ends at `row.nextAt`. */
  datatype Claim = Claim(payout: Id, row: Payout)

  datatype State = State(db: Db, now: nat, claims: map<Id, Claim>, nextClaim: Id)

  const EmptyDb := Db([], map[], [], [], [], [], [], [], [])

  const Initial := State(EmptyDb, 0, map[], 0)

  datatype Op =
    | Skip
    | Tick(seconds: nat)
    | OpenWallet(merchant: Id, currency: Id)
    | OpenAccount(merchant: Id, currency: Id)
    | SetAccountActive(account: Id, active: bool)
    | OpenEndpoint(merchant: Id)
    | SetEndpointActive(endpoint: Id, active: bool)
    | CreateIntent(merchant: Id, amount: int, currency: Id)
    | Deposit(wallet: Id, amount: int, txn: Id)
    | Transfer(caller: Id, from: Id, to: Id, amount: int, printed: int, txn: Id)
    | Confirm(merchant: Id, intent: Id, wallet: Id, txn: Id, charge: Id, endpoints: seq<Id>)
    | Cancel(merchant: Id, intent: Id)
    | Sweep(wallet: Id, account: Id, min: int, txn: Id, at: nat)
    | Lease(payout: Id)
    | Pay(claim: Id, endpoints: seq<Id>)
    | Retry(claim: Id)
    | Reverse(claim: Id, wallet: Id, txn: Id, endpoints: seq<Id>)

  /** A credit adds to a balance and a debit takes from it. */
  function Signed(e: Entry): int
  {
    if e.direction == Credit then e.amount else -e.amount
  }

  predicate NoDuplicates(ids: seq<Id>)
  {
    forall i, j | 0 <= i < j < |ids| :: ids[i] != ids[j]
  }

  /** `ids` are distinct endpoints of `merchant`: what a fan-out may have read at some moment. */
  predicate EndpointsOf(db: Db, merchant: Id, ids: seq<Id>)
  {
    && NoDuplicates(ids)
    && forall i | 0 <= i < |ids| :: ids[i] < |db.endpoints| && db.endpoints[ids[i]].merchant == merchant
  }

  /** One outbox row per endpoint. */
  function Fanout(source: Source, merchant: Id, endpoints: seq<Id>, amount: int, currency: Id): (r: seq<Event>)
    ensures |r| == |endpoints|
  {
    seq(|endpoints|, i requires 0 <= i < |endpoints| => Event(source, merchant, endpoints[i], amount, currency))
  }

  function Insert(db: Db, txn: Id, kind: Kind, entries: seq<Entry>): Db
  {
    db.(txns := db.txns[txn := kind], entries := db.entries + entries)
  }

  function Moved(w: Wallet, delta: int): Wallet
  {
    w.(balance := w.balance + delta)
  }

  function Bumped(w: Wallet, delta: int): Wallet
  {
    w.(balance := w.balance + delta, version := w.version + 1)
  }

  /** A ledger transaction with one entry, and the wallet adjusted by it. */
  function Single(db: Db, kind: Kind, e: Entry): Db
    requires e.wallet < |db.wallets|
  {
    var db' := Insert(db, e.txn, kind, [e]);
    db'.(wallets := db.wallets[e.wallet := Moved(db.wallets[e.wallet], Signed(e))])
  }

  /**
   * A transfer: a balanced pair of entries, both balances moved and both versions bumped. The entries carry the
   * request's number as text, `printed`, and the balances move by the same number as a BigInt, `amount`.
   */
  function Double(db: Db, from: Id, to: Id, amount: int, printed: int, txn: Id): Db
    requires from < |db.wallets| && to < |db.wallets|
  {
    var currency := db.wallets[from].currency;
    var db' := Insert(db, txn, TransferTxn,
                      [Entry(txn, from, Debit, printed, currency), Entry(txn, to, Credit, printed, currency)]);
    db'.(wallets := db.wallets[from := Bumped(db.wallets[from], -amount)][to := Bumped(db.wallets[to], amount)])
  }

  /** The single-entry posting is one the schema's CHECKs let through. */
  predicate Postable(db: Db, e: Entry)
  {
    && e.txn !in db.txns
    && 0 < e.amount
    && e.wallet < |db.wallets|
    && e.currency == db.wallets[e.wallet].currency
    && 0 <= db.wallets[e.wallet].balance + Signed(e) <= MAX_BIGINT
  }

  predicate Live(st: State, claim: Id)
  {
    claim in st.claims && st.claims[claim].payout < |st.db.payouts| && st.now < st.claims[claim].row.nextAt
  }

  function DepositEntry(st: State, wallet: Id, amount: int, txn: Id): Entry
    requires wallet < |st.db.wallets|
  {
    Entry(txn, wallet, Credit, amount, st.db.wallets[wallet].currency)
  }

  function ChargeEntry(st: State, intent: Id, wallet: Id, txn: Id): Entry
    requires intent < |st.db.intents|
  {
    Entry(txn, wallet, Credit, st.db.intents[intent].amount, st.db.intents[intent].currency)
  }

  function SweepEntry(st: State, wallet: Id, txn: Id): Entry
    requires wallet < |st.db.wallets|
  {
    Entry(txn, wallet, Debit, st.db.wallets[wallet].balance, st.db.wallets[wallet].currency)
  }

  function ReversalEntry(row: Payout, txn: Id): Entry
  {
    Entry(txn, row.wallet, Credit, row.amount, row.currency)
  }

  function PendingPayout(merchant: Id, wallet: Id, account: Id, currency: Id, amount: int, txn: Id, at: nat): Payout
  {
    Payout(merchant, wallet, account, currency, amount, txn, Pending, None, 0, at, [])
  }

  predicate Guard(op: Op, st: State)
  {
    var db := st.db;
    match op
    case Skip => true
    case Tick(_) => true
    case OpenWallet(m, c) => forall w | 0 <= w < |db.wallets| :: db.wallets[w].merchant != m || db.wallets[w].currency != c
    case OpenAccount(m, c) => forall a | 0 <= a < |db.accounts| :: db.accounts[a].merchant != m || db.accounts[a].currency != c
    case SetAccountActive(a, _) => a < |db.accounts|
    case OpenEndpoint(_) => true
    case SetEndpointActive(e, _) => e < |db.endpoints|
    case CreateIntent(m, amount, c) =>
      0 < amount && exists w | 0 <= w < |db.wallets| :: db.wallets[w].merchant == m && db.wallets[w].currency == c
    case Deposit(w, amount, txn) =>
      w < |db.wallets| && Postable(db, DepositEntry(st, w, amount, txn))
    case Transfer(caller, from, to, amount, printed, txn) =>
      && from != to && from < |db.wallets| && to < |db.wallets| && 0 < amount && txn !in db.txns
      && 0 < printed <= MAX_BIGINT
      && db.wallets[from].merchant == caller
      && db.wallets[from].currency == db.wallets[to].currency
      && amount <= db.wallets[from].balance
      && db.wallets[to].balance + amount <= MAX_BIGINT
    case Confirm(m, i, w, txn, charge, eps) =>
      && i < |db.intents| && db.intents[i].merchant == m && db.intents[i].status == RequiresConfirmation
      && Postable(db, ChargeEntry(st, i, w, txn))
      && db.wallets[w].merchant == m
      && EndpointsOf(db, m, eps)
    case Cancel(m, i) =>
      i < |db.intents| && db.intents[i].merchant == m && db.intents[i].status == RequiresConfirmation
    case Sweep(w, a, min, txn, at) =>
      && w < |db.wallets| && a < |db.accounts| && at <= st.now
      && db.accounts[a].merchant == db.wallets[w].merchant
      && db.accounts[a].currency == db.wallets[w].currency
      && min <= db.wallets[w].balance
      && Postable(db, SweepEntry(st, w, txn))
    case Lease(p) =>
      p < |db.payouts| && db.payouts[p].status == Pending && db.payouts[p].nextAt <= st.now
    case Pay(c, eps) =>
      Live(st, c) && EndpointsOf(db, st.claims[c].row.merchant, eps)
    case Retry(c) =>
      Live(st, c) && st.claims[c].row.attempts + 1 < LeaseQueue.PAYOUT_POLICY.maxAttempts
    case Reverse(c, w, txn, eps) =>
      && Live(st, c) && st.claims[c].row.wallet == w && LeaseQueue.PAYOUT_POLICY.maxAttempts <= st.claims[c].row.attempts + 1
      && Postable(db, ReversalEntry(st.claims[c].row, txn))
      && EndpointsOf(db, st.claims[c].row.merchant, eps)
  }

  /** The worker that held `claim` has made its one write and moves on. */
  function Spend(st: State, claim: Id, db: Db): State
  {
    st.(db := db, claims := st.claims - {claim})
  }

  function Confirmed(db: Db, op: Op): Db
    requires op.Confirm? && op.intent < |db.intents|
  {
    var i := db.intents[op.intent];
    db.(charges := db.charges + [Charge(op.charge, op.intent, op.merchant, i.amount, i.currency, op.txn)],
        intents := db.intents[op.intent := i.(status := Succeeded)],
        events := db.events + Fanout(PaymentSucceeded(op.intent, op.charge), op.merchant, op.endpoints, i.amount, i.currency))
  }

  function PaidOut(db: Db, payout: Id, row: Payout, endpoints: seq<Id>): Db
    requires payout < |db.payouts|
  {
    db.(payouts := db.payouts[payout := db.payouts[payout].(status := Paid)],
        events := db.events + Fanout(PayoutPaid(payout), row.merchant, endpoints, row.amount, row.currency))
  }

  function RetriedPayout(row: Payout, attempts: nat, now: nat): Payout
    requires 0 < attempts
  {
    row.(attempts := attempts,
         nextAt := now + LeaseQueue.Backoff(LeaseQueue.PAYOUT_POLICY, attempts),
         failures := row.failures + [now])
  }

  function FailedPayout(row: Payout, attempts: nat, reversal: Id): Payout
  {
    row.(status := Failed, attempts := attempts, reversal := Some(reversal))
  }

  /** The compensation as the code writes it: everything but the credit comes from the row the worker claimed. */
  function Reversed(db: Db, payout: Id, row: Payout, txn: Id, endpoints: seq<Id>): Db
    requires payout < |db.payouts| && row.wallet < |db.wallets|
  {
    var db' := Single(db, ReversalTxn, ReversalEntry(row, txn));
    db'.(payouts := db.payouts[payout := FailedPayout(db.payouts[payout], row.attempts + 1, txn)],
         events := db.events + Fanout(PayoutFailed(payout), row.merchant, endpoints, row.amount, row.currency))
  }

  function Apply(op: Op, st: State): State
    requires Guard(op, st)
  {
    var db := st.db;
    match op
    case Skip => st
    case Tick(d) => st.(now := st.now + d)
    case OpenWallet(m, c) => st.(db := db.(wallets := db.wallets + [Wallet(m, c, 0, 0)]))
    case OpenAccount(m, c) => st.(db := db.(accounts := db.accounts + [Account(m, c, true)]))
    case SetAccountActive(a, b) => st.(db := db.(accounts := db.accounts[a := db.accounts[a].(active := b)]))
    case OpenEndpoint(m) => st.(db := db.(endpoints := db.endpoints + [Endpoint(m, true)]))
    case SetEndpointActive(e, b) => st.(db := db.(endpoints := db.endpoints[e := db.endpoints[e].(active := b)]))
    case CreateIntent(m, amount, c) =>
      st.(db := db.(intents := db.intents + [Intent(m, amount, c, RequiresConfirmation)]))
    case Deposit(w, amount, txn) => st.(db := Single(db, DepositTxn, DepositEntry(st, w, amount, txn)))
    case Transfer(_, from, to, amount, printed, txn) => st.(db := Double(db, from, to, amount, printed, txn))
    case Confirm(_, i, w, txn, _, _) =>
      st.(db := Confirmed(Single(db, ChargeTxn, ChargeEntry(st, i, w, txn)), op))
    case Cancel(_, i) => st.(db := db.(intents := db.intents[i := db.intents[i].(status := Canceled)]))
    case Sweep(w, a, _, txn, at) =>
      var x := db.wallets[w];
      var db' := Single(db, PayoutTxn, SweepEntry(st, w, txn));
      st.(db := db'.(payouts := db.payouts + [PendingPayout(x.merchant, w, a, x.currency, x.balance, txn, at)]))
    case Lease(p) =>
      var row := db.payouts[p].(nextAt := st.now + LeaseQueue.PAYOUT_POLICY.lease);
      st.(db := db.(payouts := db.payouts[p := row]),
          claims := st.claims[st.nextClaim := Claim(p, row)],
          nextClaim := st.nextClaim + 1)
    case Pay(c, eps) =>
      Spend(st, c, PaidOut(db, st.claims[c].payout, st.claims[c].row, eps))
    case Retry(c) =>
      var Claim(p, row) := st.claims[c];
      Spend(st, c, db.(payouts := db.payouts[p := RetriedPayout(db.payouts[p], row.attempts + 1, st.now)]))
    case Reverse(c, _, txn, eps) =>
      Spend(st, c, Reversed(db, st.claims[c].payout, st.claims[c].row, txn, eps))
  }

  // ---- Runs of atomic operations ----

  predicate ValidRun(st: State, ops: seq<Op>)
    decreases |ops|, 0
  {
    ops == [] || (ValidRun(st, ops[..|ops| - 1]) && Guard(ops[|ops| - 1], After(st, ops[..|ops| - 1])))
  }

  function After(st: State, ops: seq<Op>): State
    requires ValidRun(st, ops)
    decreases |ops|, 1
  {
    if ops == [] then st else Apply(ops[|ops| - 1], After(st, ops[..|ops| - 1]))
  }

  lemma RunExtends(st: State, ops: seq<Op>, op: Op)
    requires ValidRun(st, ops) && Guard(op, After(st, ops))
    ensures ValidRun(st, ops + [op]) && After(st, ops + [op]) == Apply(op, After(st, ops))
  {
    assert (ops + [op])[..|ops|] == ops;
  }
}
