/**
 * Database transactions as the server runs them: one statement at a time, interleaved with every other session's.
 * A job's code between two awaits is the function `Next` from the replies so far to the next statement. Plain reads see
 * committed rows, `FOR UPDATE` reads and updates take row locks that are held to the end, writes are staged until
 * commit, and an update re-evaluates its WHERE on the newest committed row once it has the lock (READ COMMITTED).
 */
module Sessions {
  import opened Options
  import opened Ledger
  import opened PayoutQueue

  const MAX_RETRIES: nat := 5

  // ---- Statements and replies ----

  datatype Row = WalletRow(wallet: Id) | IntentRow(intent: Id) | PayoutRow(payout: Id)

  datatype Stmt =
    | SelectWallet(wallet: Id)
    | SelectWalletForUpdate(wallet: Id)
    | SelectWalletOf(merchant: Id, currency: Id)
    | CountEntriesOn(wallet: Id)
    | SelectIntentForUpdate(merchant: Id, intent: Id)
    | SelectActiveEndpoints(merchant: Id)
    | InsertTxn(kind: Kind)
    | InsertEntry(entry: Entry)
    | InsertCharge(intent: Id, merchant: Id, amount: int, currency: Id, txn: Id)
    | InsertPayout(merchant: Id, wallet: Id, account: Id, currency: Id, amount: int, txn: Id)
    | InsertEvent(event: Event)
    | UpdateBalance(wallet: Id, delta: int)
    | UpdateBalanceIfVersion(wallet: Id, delta: int, version: nat)
    | UpdateIntentStatus(intent: Id, status: IntentStatus)
    | UpdatePayoutPaid(payout: Id)
    | UpdatePayoutFailed(payout: Id, attempts: nat, reversal: Id)

  datatype Reply =
    | RWallet(wallet: Option<Wallet>)
    | RWalletId(walletId: Option<Id>)
    | RIntent(intent: Option<Intent>)
    | REndpoints(endpoints: seq<Id>)
    | RId(id: Id)
    | RCount(count: nat)
    | RTime(at: nat)
    | RDone

  datatype Error =
    | SourceNotFound | DestinationNotFound | Forbidden | CurrencyMismatch | InsufficientFunds | ConcurrencyConflict
    | IntentNotFound | InvalidTransition | NoWalletForCurrency | WalletMissing | CheckViolation | Aborted

  datatype Action = Do(stmt: Stmt) | Commit | Throw(error: Error)

  // ---- The jobs: what the services do inside one database transaction ----

  datatype Job =
    | TransferJob(caller: Id, from: Id, to: Id, amount: int, printed: int)
    | DepositJob(wallet: Id, currency: Id, amount: int)
    | ConfirmJob(merchant: Id, intent: Id)
    | CancelJob(merchant: Id, intent: Id)
    | SweepJob(wallet: Id, account: Id, min: int)
    | PayJob(claim: Id, payout: Id, row: Payout)
    | ReverseJob(claim: Id, payout: Id, row: Payout)

  function WalletIn(r: Reply): Option<Wallet> { if r.RWallet? then r.wallet else None }
  function WalletIdIn(r: Reply): Option<Id> { if r.RWalletId? then r.walletId else None }
  function IntentIn(r: Reply): Option<Intent> { if r.RIntent? then r.intent else None }
  function EndpointsIn(r: Reply): seq<Id> { if r.REndpoints? then r.endpoints else [] }
  function IdIn(r: Reply): Id { if r.RId? then r.id else 0 }
  function TimeIn(r: Reply): nat { if r.RTime? then r.at else 0 }

  function Validate(from: Option<Wallet>, to: Option<Wallet>, caller: Id, amount: int): Result<(Wallet, Wallet), Error>
  {
    if from.None? then Failure(SourceNotFound)
    else if to.None? then Failure(DestinationNotFound)
    else if from.value.merchant != caller then Failure(Forbidden)
    else if from.value.currency != to.value.currency then Failure(CurrencyMismatch)
    else if from.value.balance < amount then Failure(InsufficientFunds)
    else Success((from.value, to.value))
  }

  function NextTransfer(j: Job, rs: seq<Reply>): Action
    requires j.TransferJob?
  {
    if |rs| == 0 then Do(SelectWallet(j.from))
    else if |rs| == 1 then Do(SelectWallet(j.to))
    else
      match Validate(WalletIn(rs[0]), WalletIn(rs[1]), j.caller, j.amount)
      case Failure(e) => Throw(e)
      case Success((f, t)) =>
        if |rs| == 2 then Do(InsertTxn(TransferTxn))
        else if |rs| == 3 then Do(InsertEntry(Entry(IdIn(rs[2]), j.from, Debit, j.printed, f.currency)))
        else if |rs| == 4 then Do(InsertEntry(Entry(IdIn(rs[2]), j.to, Credit, j.printed, t.currency)))
        else if |rs| == 5 then Do(UpdateBalanceIfVersion(j.from, -j.amount, f.version))
        else if |rs| == 6 then Do(UpdateBalanceIfVersion(j.to, j.amount, t.version))
        else if rs[5] != RCount(1) || rs[6] != RCount(1) then Throw(ConcurrencyConflict)
        else Commit
  }

  function NextDeposit(j: Job, rs: seq<Reply>): Action
    requires j.DepositJob?
  {
    if |rs| == 0 then Do(CountEntriesOn(j.wallet))
    else if rs[0] != RCount(0) then Commit
    else if |rs| == 1 then Do(InsertTxn(DepositTxn))
    else if |rs| == 2 then Do(InsertEntry(Entry(IdIn(rs[1]), j.wallet, Credit, j.amount, j.currency)))
    else if |rs| == 3 then Do(UpdateBalance(j.wallet, j.amount))
    else Commit
  }

  /** TRANSITIONS: the statuses an intent may move to. */
  function Transitions(from: IntentStatus): set<IntentStatus>
  {
    match from
    case RequiresConfirmation => {Succeeded, Canceled}
    case Succeeded => {}
    case Canceled => {}
  }

  function NextConfirm(j: Job, rs: seq<Reply>): Action
    requires j.ConfirmJob?
  {
    if |rs| == 0 then Do(SelectIntentForUpdate(j.merchant, j.intent))
    else
      match IntentIn(rs[0])
      case None => Throw(IntentNotFound)
      case Some(i) =>
        if Succeeded !in Transitions(i.status) then Throw(InvalidTransition)
        else if |rs| == 1 then Do(SelectWalletOf(j.merchant, i.currency))
        else
          match WalletIdIn(rs[1])
          case None => Throw(NoWalletForCurrency)
          case Some(w) =>
            if |rs| == 2 then Do(InsertTxn(ChargeTxn))
            else if |rs| == 3 then Do(InsertEntry(Entry(IdIn(rs[2]), w, Credit, i.amount, i.currency)))
            else if |rs| == 4 then Do(UpdateBalance(w, i.amount))
            else if |rs| == 5 then Do(InsertCharge(j.intent, j.merchant, i.amount, i.currency, IdIn(rs[2])))
            else if |rs| == 6 then Do(UpdateIntentStatus(j.intent, Succeeded))
            else NextEmit(rs, 7, PaymentSucceeded(j.intent, IdIn(rs[5])), j.merchant, i.amount, i.currency)
  }

  function NextCancel(j: Job, rs: seq<Reply>): Action
    requires j.CancelJob?
  {
    if |rs| == 0 then Do(SelectIntentForUpdate(j.merchant, j.intent))
    else
      match IntentIn(rs[0])
      case None => Throw(IntentNotFound)
      case Some(i) =>
        if Canceled !in Transitions(i.status) then Throw(InvalidTransition)
        else if |rs| == 1 then Do(UpdateIntentStatus(j.intent, Canceled))
        else Commit
  }

  function NextSweep(j: Job, rs: seq<Reply>): Action
    requires j.SweepJob?
  {
    if |rs| == 0 then Do(SelectWalletForUpdate(j.wallet))
    else
      match WalletIn(rs[0])
      case None => Commit
      case Some(w) =>
        if w.balance < j.min then Commit
        else if |rs| == 1 then Do(InsertTxn(PayoutTxn))
        else if |rs| == 2 then Do(InsertEntry(Entry(IdIn(rs[1]), j.wallet, Debit, w.balance, w.currency)))
        else if |rs| == 3 then Do(UpdateBalance(j.wallet, -w.balance))
        else if |rs| == 4 then Do(InsertPayout(w.merchant, j.wallet, j.account, w.currency, w.balance, IdIn(rs[1])))
        else Commit
  }

  function NextPay(j: Job, rs: seq<Reply>): Action
    requires j.PayJob?
  {
    if |rs| == 0 then Do(UpdatePayoutPaid(j.payout))
    else NextEmit(rs, 1, PayoutPaid(j.payout), j.row.merchant, j.row.amount, j.row.currency)
  }

  function NextReverse(j: Job, rs: seq<Reply>): Action
    requires j.ReverseJob?
  {
    if |rs| == 0 then Do(SelectWalletForUpdate(j.row.wallet))
    else if WalletIn(rs[0]).None? then Throw(WalletMissing)
    else if |rs| == 1 then Do(InsertTxn(ReversalTxn))
    else if |rs| == 2 then Do(InsertEntry(Entry(IdIn(rs[1]), j.row.wallet, Credit, j.row.amount, j.row.currency)))
    else if |rs| == 3 then Do(UpdateBalance(j.row.wallet, j.row.amount))
    else if |rs| == 4 then Do(UpdatePayoutFailed(j.payout, j.row.attempts + 1, IdIn(rs[1])))
    else NextEmit(rs, 5, PayoutFailed(j.payout), j.row.merchant, j.row.amount, j.row.currency)
  }

  /** emit: read the merchant's active endpoints, then insert one outbox row for each; `base` replies came before. */
  function NextEmit(rs: seq<Reply>, base: nat, source: Source, merchant: Id, amount: int, currency: Id): Action
    requires base <= |rs|
  {
    if |rs| == base then Do(SelectActiveEndpoints(merchant))
    else
      var endpoints := EndpointsIn(rs[base]);
      var sent := |rs| - base - 1;
      if sent < |endpoints| then Do(InsertEvent(Event(source, merchant, endpoints[sent], amount, currency)))
      else Commit
  }

  function Next(j: Job, rs: seq<Reply>): Action
  {
    match j
    case TransferJob(_, _, _, _, _) => NextTransfer(j, rs)
    case DepositJob(_, _, _) => NextDeposit(j, rs)
    case ConfirmJob(_, _) => NextConfirm(j, rs)
    case CancelJob(_, _) => NextCancel(j, rs)
    case SweepJob(_, _, _) => NextSweep(j, rs)
    case PayJob(_, _, _) => NextPay(j, rs)
    case ReverseJob(_, _, _) => NextReverse(j, rs)
  }

  // ---- The database's side of a statement ----

  /** A session's own uncommitted writes: new versions of rows it has locked, and inserts. */
  datatype Stage = Stage(
    wallets: map<Id, Wallet>, intents: map<Id, Intent>, payouts: map<Id, Payout>, txns: map<Id, Kind>,
    entries: seq<Entry>, charges: seq<Charge>, newPayouts: seq<Payout>, events: seq<Event>)

  const NoWrites := Stage(map[], map[], map[], map[], [], [], [], [])

  function Seen<T>(rows: seq<T>, staged: map<Id, T>, id: Id): T
    requires id < |rows|
  {
    if id in staged then staged[id] else rows[id]
  }

  function Overlay<T>(rows: seq<T>, staged: map<Id, T>): (r: seq<T>)
    ensures |r| == |rows| && forall i: nat | i < |rows| :: r[i] == Seen(rows, staged, i)
  {
    seq(|rows|, (i: nat) requires i < |rows| => Seen(rows, staged, i))
  }

  function FindWallet(wallets: seq<Wallet>, merchant: Id, currency: Id): (r: Option<Id>)
    ensures r.Some? ==> r.value < |wallets| && wallets[r.value].merchant == merchant && wallets[r.value].currency == currency
    ensures r.None? ==> forall w | 0 <= w < |wallets| :: wallets[w].merchant != merchant || wallets[w].currency != currency
  {
    if wallets == [] then None
    else
      var n := |wallets| - 1;
      if wallets[n].merchant == merchant && wallets[n].currency == currency then Some(n)
      else FindWallet(wallets[..n], merchant, currency)
  }

  function CountOn(entries: seq<Entry>, wallet: Id): (n: nat)
    ensures n == 0 <==> forall i | 0 <= i < |entries| :: entries[i].wallet != wallet
  {
    if entries == [] then 0
    else CountOn(entries[..|entries| - 1], wallet) + (if entries[|entries| - 1].wallet == wallet then 1 else 0)
  }

  /** The merchant's active endpoints, each once, and no others. */
  function ActiveEndpoints(endpoints: seq<Endpoint>, merchant: Id): (r: seq<Id>)
    ensures NoDuplicates(r)
    ensures forall e: Id :: e in r <==> 0 <= e < |endpoints| && endpoints[e] == Endpoint(merchant, true)
  {
    if endpoints == [] then []
    else
      var n := |endpoints| - 1;
      var r := ActiveEndpoints(endpoints[..n], merchant);
      assert forall i | 0 <= i < |r| :: r[i] in r;
      if endpoints[n] == Endpoint(merchant, true) then r + [n] else r
  }

  function ReplyTo(s: Stmt, st: State, stage: Stage, supply: Id): Reply
  {
    var db := st.db;
    match s
    case SelectWallet(w) => RWallet(if w < |db.wallets| then Some(Seen(db.wallets, stage.wallets, w)) else None)
    case SelectWalletForUpdate(w) => RWallet(if w < |db.wallets| then Some(Seen(db.wallets, stage.wallets, w)) else None)
    case SelectWalletOf(m, c) => RWalletId(FindWallet(db.wallets, m, c))
    case CountEntriesOn(w) => RCount(CountOn(db.entries, w) + CountOn(stage.entries, w))
    case SelectIntentForUpdate(m, i) =>
      RIntent(if i < |db.intents| && db.intents[i].merchant == m then Some(Seen(db.intents, stage.intents, i)) else None)
    case SelectActiveEndpoints(m) => REndpoints(ActiveEndpoints(db.endpoints, m))
    case InsertTxn(_) => RId(supply)
    case InsertCharge(_, _, _, _, _) => RId(supply)
    case InsertPayout(_, _, _, _, _, _) => RTime(st.now)
    case UpdateBalanceIfVersion(w, _, v) =>
      RCount(if w < |db.wallets| && Seen(db.wallets, stage.wallets, w).version == v then 1 else 0)
    case _ => RDone
  }

  /** The statement's writes, on top of what the session has staged. */
  function StageAfter(s: Stmt, reply: Reply, stage: Stage, db: Db): Stage
  {
    match s
    case InsertTxn(kind) => stage.(txns := stage.txns[IdIn(reply) := kind])
    case InsertEntry(e) => stage.(entries := stage.entries + [e])
    case InsertCharge(i, m, a, c, t) => stage.(charges := stage.charges + [Charge(IdIn(reply), i, m, a, c, t)])
    case InsertPayout(m, w, acct, c, a, t) =>
      stage.(newPayouts := stage.newPayouts + [PendingPayout(m, w, acct, c, a, t, TimeIn(reply))])
    case InsertEvent(e) => stage.(events := stage.events + [e])
    case UpdateBalance(w, d) =>
      if w < |db.wallets| then stage.(wallets := stage.wallets[w := Moved(Seen(db.wallets, stage.wallets, w), d)])
      else stage
    case UpdateBalanceIfVersion(w, d, _) =>
      if w < |db.wallets| && reply == RCount(1)
      then stage.(wallets := stage.wallets[w := Bumped(Seen(db.wallets, stage.wallets, w), d)])
      else stage
    case UpdateIntentStatus(i, status) =>
      if i < |db.intents|
      then stage.(intents := stage.intents[i := Seen(db.intents, stage.intents, i).(status := status)])
      else stage
    case UpdatePayoutPaid(p) =>
      if p < |db.payouts|
      then stage.(payouts := stage.payouts[p := Seen(db.payouts, stage.payouts, p).(status := Paid)])
      else stage
    case UpdatePayoutFailed(p, attempts, r) =>
      if p < |db.payouts|
      then stage.(payouts := stage.payouts[p := FailedPayout(Seen(db.payouts, stage.payouts, p), attempts, r)])
      else stage
    case _ => stage
  }

  predicate InRange(balance: int)
  {
    0 <= balance <= MAX_BIGINT
  }

  /** The statement breaks a CHECK of the schema or a column's range, and the database aborts the transaction. */
  predicate Violates(s: Stmt, stage: Stage, db: Db)
  {
    match s
    case InsertEntry(e) => !(0 < e.amount <= MAX_BIGINT)
    case InsertPayout(_, _, _, _, a, _) => a <= 0
    case UpdateBalance(w, d) =>
      w < |db.wallets| && !InRange(Seen(db.wallets, stage.wallets, w).balance + d)
    case UpdateBalanceIfVersion(w, d, v) =>
      && w < |db.wallets| && Seen(db.wallets, stage.wallets, w).version == v
      && !InRange(Seen(db.wallets, stage.wallets, w).balance + d)
    case _ => false
  }

  /** The rows the statement locks; a version-checked update that matches no row locks none. */
  function Locks(s: Stmt, stage: Stage, db: Db): set<Row>
  {
    match s
    case SelectWalletForUpdate(w) => if w < |db.wallets| then {WalletRow(w)} else {}
    case SelectIntentForUpdate(m, i) => if i < |db.intents| && db.intents[i].merchant == m then {IntentRow(i)} else {}
    case UpdateBalance(w, _) => if w < |db.wallets| then {WalletRow(w)} else {}
    case UpdateBalanceIfVersion(w, _, v) =>
      if w < |db.wallets| && Seen(db.wallets, stage.wallets, w).version == v then {WalletRow(w)} else {}
    case UpdateIntentStatus(i, _) => if i < |db.intents| then {IntentRow(i)} else {}
    case UpdatePayoutPaid(p) => if p < |db.payouts| then {PayoutRow(p)} else {}
    case UpdatePayoutFailed(p, _, _) => if p < |db.payouts| then {PayoutRow(p)} else {}
    case _ => {}
  }

  /** COMMIT: the staged rows replace the committed ones and the inserts are appended. */
  function Publish(db: Db, stage: Stage): Db
  {
    db.(wallets := Overlay(db.wallets, stage.wallets),
        intents := Overlay(db.intents, stage.intents),
        payouts := Overlay(db.payouts, stage.payouts) + stage.newPayouts,
        txns := db.txns + stage.txns,
        entries := db.entries + stage.entries,
        charges := db.charges + stage.charges,
        events := db.events + stage.events)
  }

  // ---- Sessions side by side ----

  datatype Phase = Running | Done(at: nat) | Thrown(error: Error)

  /**
   * One call of a service. `born` and `began` are history variables: the length of the commit log when the call and
   * its current attempt started.
   */
  datatype Proc = Proc(
    job: Job, attempt: nat, phase: Phase, rs: seq<Reply>, stage: Stage, locks: set<Row>, born: nat, began: nat)

  /** One committed operation, and the call that made it unless it was a single autocommitted statement. */
  datatype Record = Record(pid: Option<nat>, op: Op)

  /** `supply` is the next fresh id; `log` lists every committed operation in commit order. */
  datatype Sys = Sys(st: State, procs: seq<Proc>, supply: Id, log: seq<Record>)

  const Start := Sys(Initial, [], 0, [])

  datatype Label = Spawn(job: Job) | Run(pid: nat) | Kill(pid: nat) | Auto(op: Op)

  /** Statements the services run outside a transaction: each is one atomic operation of its own. */
  predicate Autocommitted(op: Op)
  {
    op.Tick? || op.OpenWallet? || op.OpenAccount? || op.SetAccountActive? || op.OpenEndpoint? || op.SetEndpointActive?
    || op.CreateIntent? || op.Lease? || op.Retry?
  }

  function RowsWritten(op: Op, st: State): set<Row>
    requires Guard(op, st)
  {
    match op
    case Lease(p) => {PayoutRow(p)}
    case Retry(c) => {PayoutRow(st.claims[c].payout)}
    case _ => {}
  }

  predicate Free(sys: Sys, rows: set<Row>, pid: nat)
  {
    forall q | 0 <= q < |sys.procs| && q != pid :: rows * sys.procs[q].locks == {}
  }

  /** What a caller of the service has established, and what the model assumes of it. */
  predicate JobOk(j: Job, st: State)
  {
    match j
    case TransferJob(_, from, to, amount, _) => from != to && 0 < amount
    case DepositJob(w, currency, _) => w < |st.db.wallets| && st.db.wallets[w].currency == currency
    case SweepJob(w, a, _) =>
      && w < |st.db.wallets| && a < |st.db.accounts|
      && st.db.accounts[a].merchant == st.db.wallets[w].merchant
      && st.db.accounts[a].currency == st.db.wallets[w].currency
    case PayJob(c, p, row) => ClaimJobOk(c, p, row, st)
    case ReverseJob(c, p, row) => ClaimJobOk(c, p, row, st) && POLICY.maxAttempts <= row.attempts + 1
    case _ => true
  }

  /** The worker acts on a row its claim statement returned. */
  predicate ClaimJobOk(c: Id, p: Id, row: Payout, st: State)
  {
    && c < st.nextClaim && p < |st.db.payouts| && SameTerms(row, st.db.payouts[p])
    && (c in st.claims ==> st.claims[c] == Claim(p, row))
  }

  function ClaimOf(j: Job): Option<Id>
  {
    match j
    case PayJob(c, _, _) => Some(c)
    case ReverseJob(c, _, _) => Some(c)
    case _ => None
  }

  /** Not waiting for another session's lock; and a worker writes only while its lease is live. */
  predicate CanProceed(sys: Sys, pid: nat)
    requires pid < |sys.procs|
  {
    var p := sys.procs[pid];
    match Next(p.job, p.rs)
    case Do(s) => Free(sys, Locks(s, p.stage, sys.st.db), pid)
    case Commit => ClaimOf(p.job).Some? ==> Live(sys.st, ClaimOf(p.job).value)
    case Throw(_) => true
  }

  predicate Enabled(sys: Sys, l: Label)
  {
    match l
    case Spawn(j) => JobOk(j, sys.st)
    case Run(pid) => pid < |sys.procs| && sys.procs[pid].phase == Running && CanProceed(sys, pid)
    case Kill(pid) => pid < |sys.procs| && sys.procs[pid].phase == Running
    case Auto(op) => Autocommitted(op) && Guard(op, sys.st) && Free(sys, RowsWritten(op, sys.st), |sys.procs|)
  }

  /** The atomic operation a job's commit amounts to, read off its replies. */
  function OpOf(j: Job, rs: seq<Reply>): Op
  {
    match j
    case TransferJob(caller, from, to, amount, printed) =>
      if 2 < |rs| then Transfer(caller, from, to, amount, printed, IdIn(rs[2])) else Skip
    case DepositJob(w, _, amount) => if 1 < |rs| then Deposit(w, amount, IdIn(rs[1])) else Skip
    case ConfirmJob(m, i) =>
      if 7 < |rs| && WalletIdIn(rs[1]).Some?
      then Confirm(m, i, WalletIdIn(rs[1]).value, IdIn(rs[2]), IdIn(rs[5]), EndpointsIn(rs[7])) else Skip
    case CancelJob(m, i) => Cancel(m, i)
    case SweepJob(w, a, min) => if 4 < |rs| then Sweep(w, a, min, IdIn(rs[1]), TimeIn(rs[4])) else Skip
    case PayJob(c, _, _) => if 1 < |rs| then Pay(c, EndpointsIn(rs[1])) else Skip
    case ReverseJob(c, _, row) => if 5 < |rs| then Reverse(c, row.wallet, IdIn(rs[1]), EndpointsIn(rs[5])) else Skip
  }

  function Ended(p: Proc, phase: Phase): Proc
  {
    p.(phase := phase, stage := NoWrites, locks := {})
  }

  function WithProc(sys: Sys, pid: nat, p: Proc): Sys
    requires pid < |sys.procs|
  {
    sys.(procs := sys.procs[pid := p])
  }

  function Execute(sys: Sys, pid: nat, s: Stmt): Sys
    requires pid < |sys.procs|
  {
    var p := sys.procs[pid];
    if Violates(s, p.stage, sys.st.db) then WithProc(sys, pid, Ended(p, Thrown(CheckViolation)))
    else
      var reply := ReplyTo(s, sys.st, p.stage, sys.supply);
      WithProc(sys, pid, p.(rs := p.rs + [reply],
                            stage := StageAfter(s, reply, p.stage, sys.st.db),
                            locks := p.locks + Locks(s, p.stage, sys.st.db)))
      .(supply := if reply.RId? then sys.supply + 1 else sys.supply)
  }

  /** COMMIT publishes the staged writes; a worker's claim is spent by the one transaction it commits. */
  function Committed(st: State, p: Proc): State
  {
    st.(db := Publish(st.db, p.stage),
        claims := if ClaimOf(p.job).Some? then st.claims - {ClaimOf(p.job).value} else st.claims)
  }

  /** ROLLBACK and throw, unless it is a conflict and the transfer has attempts left. */
  function RolledBack(sys: Sys, pid: nat, e: Error): Sys
    requires pid < |sys.procs|
  {
    var p := sys.procs[pid];
    if e == ConcurrencyConflict && p.attempt < MAX_RETRIES
    then WithProc(sys, pid, Ended(p, Running).(attempt := p.attempt + 1, rs := [], began := |sys.log|))
    else WithProc(sys, pid, Ended(p, Thrown(e)))
  }

  function Step(sys: Sys, l: Label): Sys
    requires Enabled(sys, l)
  {
    match l
    case Spawn(j) => sys.(procs := sys.procs + [Proc(j, 1, Running, [], NoWrites, {}, |sys.log|, |sys.log|)])
    case Run(pid) =>
      var p := sys.procs[pid];
      (match Next(p.job, p.rs)
       case Do(s) => Execute(sys, pid, s)
       case Commit =>
         WithProc(sys, pid, Ended(p, Done(|sys.log|)))
         .(st := Committed(sys.st, p), log := sys.log + [Record(Some(pid), OpOf(p.job, p.rs))])
       case Throw(e) => RolledBack(sys, pid, e))
    case Kill(pid) => WithProc(sys, pid, Ended(sys.procs[pid], Thrown(Aborted)))
    case Auto(op) => sys.(st := Apply(op, sys.st), log := sys.log + [Record(None, op)])
  }
}
