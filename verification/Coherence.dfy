/**
 * What a running session knows of the committed state, however the other sessions interleave: its staged writes are
 * what its statements would stage on the committed rows of now, because every row it wrote is locked.
 */
module Coherence {
  import opened Ledger
  import opened Invariants
  import opened Sessions

  /** What the job's statements stage when evaluated against `db`. */
  ghost function Replay(j: Job, rs: seq<Reply>, db: Db): Stage
    decreases |rs|
  {
    if rs == [] then NoWrites
    else
      var n := |rs| - 1;
      var a := Next(j, rs[..n]);
      if a.Do? then StageAfter(a.stmt, rs[n], Replay(j, rs[..n], db), db) else NoWrites
  }

  lemma ReplayNext(j: Job, rs: seq<Reply>, db: Db, k: nat)
    requires k < |rs| && Next(j, rs[..k]).Do?
    ensures Replay(j, rs[..k + 1], db) == StageAfter(Next(j, rs[..k]).stmt, rs[k], Replay(j, rs[..k], db), db)
  {
    hide Next, StageAfter;
    assert rs[..k + 1][..k] == rs[..k];
  }

  /** The rows an update names exist, and a version it expects is not from the future. */
  ghost predicate StmtOk(s: Stmt, db: Db)
  {
    match s
    case UpdateBalance(w, _) => w < |db.wallets|
    case UpdateBalanceIfVersion(w, _, v) => w < |db.wallets| && v <= db.wallets[w].version
    case UpdateIntentStatus(i, _) => i < |db.intents|
    case UpdatePayoutPaid(p) => p < |db.payouts|
    case UpdatePayoutFailed(p, _, _) => p < |db.payouts|
    case _ => true
  }

  /** What the reply still tells about the committed state, given the session's locks. */
  ghost predicate ReplyOk(s: Stmt, r: Reply, locks: set<Row>, st: State)
  {
    var db := st.db;
    StmtOk(s, db) &&
    match s
    case SelectWallet(w) =>
      r.RWallet? && (r.wallet.Some? ==> w < |db.wallets| && KeepsWallet(r.wallet.value, db.wallets[w]))
    case SelectWalletForUpdate(w) =>
      r.RWallet? && (r.wallet.Some? ==> w < |db.wallets| && WalletRow(w) in locks && r.wallet.value == db.wallets[w])
    case SelectWalletOf(m, c) =>
      r.RWalletId? && (r.walletId.Some? ==>
        var w := r.walletId.value; w < |db.wallets| && db.wallets[w].merchant == m && db.wallets[w].currency == c)
    case CountEntriesOn(_) => r.RCount?
    case SelectIntentForUpdate(m, i) =>
      r.RIntent? && (r.intent.Some? ==>
        i < |db.intents| && IntentRow(i) in locks && r.intent.value == db.intents[i] && db.intents[i].merchant == m)
    case SelectActiveEndpoints(m) => r.REndpoints? && EndpointsOf(db, m, r.endpoints)
    case InsertTxn(_) => r.RId?
    case InsertCharge(_, _, _, _, _) => r.RId?
    case InsertPayout(_, _, _, _, _, _) => r.RTime? && r.at <= st.now
    case UpdateBalance(w, _) => r.RDone? && WalletRow(w) in locks
    case UpdateBalanceIfVersion(w, _, v) =>
      if r == RCount(1) then WalletRow(w) in locks && db.wallets[w].version == v
      else r == RCount(0) && v < db.wallets[w].version
    case UpdateIntentStatus(i, _) => r.RDone? && IntentRow(i) in locks
    case UpdatePayoutPaid(p) => r.RDone? && PayoutRow(p) in locks
    case UpdatePayoutFailed(p, _, _) => r.RDone? && PayoutRow(p) in locks
    case _ => r.RDone?
  }

  ghost predicate ReplyAt(j: Job, rs: seq<Reply>, k: nat, locks: set<Row>, st: State)
    requires k < |rs|
  {
    Next(j, rs[..k]).Do? && ReplyOk(Next(j, rs[..k]).stmt, rs[k], locks, st)
  }

  ghost predicate RepliesOk(j: Job, rs: seq<Reply>, locks: set<Row>, st: State)
  {
    forall k: nat | k < |rs| :: ReplyAt(j, rs, k, locks, st)
  }

  /** Staged rows are locked, keep their owners, and pass the schema's CHECKs. */
  ghost predicate StageOk(stage: Stage, locks: set<Row>, db: Db)
  {
    && (forall w | w in stage.wallets ::
          && w < |db.wallets| && WalletRow(w) in locks
          && KeepsWallet(db.wallets[w], stage.wallets[w]) && InRange(stage.wallets[w].balance))
    && (forall i | i in stage.intents :: i < |db.intents| && IntentRow(i) in locks)
    && (forall p | p in stage.payouts :: p < |db.payouts| && PayoutRow(p) in locks)
    && (forall k | 0 <= k < |stage.entries| :: 0 < stage.entries[k].amount <= MAX_BIGINT)
    && (forall k | 0 <= k < |stage.newPayouts| :: 0 < stage.newPayouts[k].amount)
  }

  ghost predicate Coherent(p: Proc, st: State)
  {
    && JobOk(p.job, st)
    && RepliesOk(p.job, p.rs, p.locks, st)
    && StageOk(p.stage, p.locks, st.db)
    && p.stage == Replay(p.job, p.rs, st.db)
  }

  // ---- Other sessions' commits ----

  /** Committed changes that leave the rows in `locks` alone. */
  ghost predicate Undisturbed(locks: set<Row>, st: State, st': State)
  {
    && Remembers(st.db, st'.db)
    && (forall w | 0 <= w < |st.db.wallets| && WalletRow(w) in locks :: st'.db.wallets[w] == st.db.wallets[w])
    && (forall i | 0 <= i < |st.db.intents| && IntentRow(i) in locks :: st'.db.intents[i] == st.db.intents[i])
    && (forall p | 0 <= p < |st.db.payouts| && PayoutRow(p) in locks :: st'.db.payouts[p] == st.db.payouts[p])
    && st.now <= st'.now
    && st.nextClaim <= st'.nextClaim
    && (forall c | c in st'.claims && c < st.nextClaim :: c in st.claims && st'.claims[c] == st.claims[c])
  }

  lemma ReplyStaysOk(s: Stmt, r: Reply, locks: set<Row>, st: State, st': State)
    requires Undisturbed(locks, st, st') && ReplyOk(s, r, locks, st)
    ensures ReplyOk(s, r, locks, st')
  {
  }

  lemma StageStaysOk(stage: Stage, locks: set<Row>, st: State, st': State)
    requires Undisturbed(locks, st, st') && StageOk(stage, locks, st.db)
    ensures StageOk(stage, locks, st'.db)
  {
  }

  lemma JobStaysOk(j: Job, locks: set<Row>, st: State, st': State)
    requires Undisturbed(locks, st, st') && JobOk(j, st)
    ensures JobOk(j, st')
  {
  }

  lemma StageAfterStays(s: Stmt, r: Reply, stage: Stage, locks: set<Row>, st: State, st': State)
    requires Undisturbed(locks, st, st') && ReplyOk(s, r, locks, st)
    ensures StageAfter(s, r, stage, st'.db) == StageAfter(s, r, stage, st.db)
  {
  }

  lemma {:induction false} ReplayStays(j: Job, rs: seq<Reply>, locks: set<Row>, st: State, st': State, n: nat)
    requires Undisturbed(locks, st, st') && RepliesOk(j, rs, locks, st) && n <= |rs|
    ensures Replay(j, rs[..n], st'.db) == Replay(j, rs[..n], st.db)
  {
    hide Next, StageAfter, ReplyOk, Undisturbed;
    if 0 < n {
      ReplayStays(j, rs, locks, st, st', n - 1);
      assert ReplyAt(j, rs, n - 1, locks, st);
      ReplayNext(j, rs, st.db, n - 1);
      ReplayNext(j, rs, st'.db, n - 1);
      StageAfterStays(Next(j, rs[..n - 1]).stmt, rs[n - 1], Replay(j, rs[..n - 1], st.db), locks, st, st');
    }
  }

  /** A session's view survives every commit that does not touch a row it has locked. */
  lemma CoherenceIsStable(p: Proc, st: State, st': State)
    requires Coherent(p, st) && Undisturbed(p.locks, st, st')
    ensures Coherent(p, st')
  {
    hide Next, StageAfter, ReplyOk, Undisturbed, JobOk, StageOk, Replay;
    JobStaysOk(p.job, p.locks, st, st');
    StageStaysOk(p.stage, p.locks, st, st');
    ReplayStays(p.job, p.rs, p.locks, st, st', |p.rs|);
    assert p.rs[..|p.rs|] == p.rs;
    forall k: nat | k < |p.rs|
      ensures ReplyAt(p.job, p.rs, k, p.locks, st')
    {
      assert ReplyAt(p.job, p.rs, k, p.locks, st);
      ReplyStaysOk(Next(p.job, p.rs[..k]).stmt, p.rs[k], p.locks, st, st');
    }
  }

  // ---- The session's own statements ----

  lemma ReplyKeepsUnderMoreLocks(s: Stmt, r: Reply, locks: set<Row>, more: set<Row>, st: State)
    requires ReplyOk(s, r, locks, st)
    ensures ReplyOk(s, r, locks + more, st)
  {
  }

  /** In this job no statement reads or updates a row it has already staged. */
  ghost predicate FirstTouch(s: Stmt, stage: Stage)
  {
    match s
    case SelectWallet(w) => w !in stage.wallets
    case SelectWalletForUpdate(w) => w !in stage.wallets
    case SelectIntentForUpdate(_, i) => i !in stage.intents
    case UpdateBalance(w, _) => w !in stage.wallets
    case UpdateBalanceIfVersion(w, _, _) => w !in stage.wallets
    case _ => true
  }

  lemma FreshReplyOk(s: Stmt, st: State, stage: Stage, supply: Id, locks: set<Row>)
    requires StmtOk(s, st.db) && FirstTouch(s, stage)
    ensures ReplyOk(s, ReplyTo(s, st, stage, supply), locks + Locks(s, stage, st.db), st)
  {
    if s.SelectActiveEndpoints? {
      var r := ActiveEndpoints(st.db.endpoints, s.merchant);
      assert forall i | 0 <= i < |r| :: r[i] in r;
    }
  }

  lemma FreshStageOk(s: Stmt, st: State, stage: Stage, supply: Id, locks: set<Row>)
    requires StmtOk(s, st.db) && FirstTouch(s, stage) && StageOk(stage, locks, st.db) && !Violates(s, stage, st.db)
    ensures StageOk(StageAfter(s, ReplyTo(s, st, stage, supply), stage, st.db), locks + Locks(s, stage, st.db), st.db)
  {
  }

  lemma StatementKeepsCoherence(p: Proc, st: State, supply: Id)
    requires Coherent(p, st) && Next(p.job, p.rs).Do?
    requires var s := Next(p.job, p.rs).stmt; StmtOk(s, st.db) && FirstTouch(s, p.stage) && !Violates(s, p.stage, st.db)
    ensures var s := Next(p.job, p.rs).stmt;
            var reply := ReplyTo(s, st, p.stage, supply);
            Coherent(p.(rs := p.rs + [reply], stage := StageAfter(s, reply, p.stage, st.db),
                        locks := p.locks + Locks(s, p.stage, st.db)), st)
  {
    hide Next, StageAfter, ReplyOk, ReplyTo, Locks, StageOk, StmtOk, FirstTouch, Violates, JobOk, Replay;
    var s := Next(p.job, p.rs).stmt;
    var reply := ReplyTo(s, st, p.stage, supply);
    var rs' := p.rs + [reply];
    var locks' := p.locks + Locks(s, p.stage, st.db);
    FreshReplyOk(s, st, p.stage, supply, p.locks);
    FreshStageOk(s, st, p.stage, supply, p.locks);
    assert rs'[..|p.rs|] == p.rs && rs'[..|rs'|] == rs';
    ReplayNext(p.job, rs', st.db, |p.rs|);
    forall k: nat | k < |rs'|
      ensures ReplyAt(p.job, rs', k, locks', st)
    {
      assert rs'[..k] == p.rs[..k];
      if k < |p.rs| {
        assert ReplyAt(p.job, p.rs, k, p.locks, st);
        ReplyKeepsUnderMoreLocks(Next(p.job, p.rs[..k]).stmt, p.rs[k], p.locks, Locks(s, p.stage, st.db), st);
      }
    }
  }
}
