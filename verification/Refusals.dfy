/**
 * When a service throws a domain error, what it complains of is true: of the committed rows as they are when it cannot
 * have changed, and otherwise of a committed state that was current since the attempt began.
 */
module Refusals {
  import opened Ledger
  import opened Invariants
  import opened Sessions
  import opened Coherence
  import opened Jobs
  import opened Refinement
  import opened Calls

  // ---- Plain reads are snapshots ----

  /** `st` was the committed state when `n` operations had been logged. */
  ghost predicate Snapshot(log: seq<Record>, n: nat, st: State)
  {
    n <= |log| && ValidRun(Initial, Ops(log)[..n]) && After(Initial, Ops(log)[..n]) == st
  }

  predicate Reads(s: Stmt)
  {
    s.SelectWallet? || s.SelectWalletForUpdate? || s.SelectWalletOf? || s.SelectIntentForUpdate? || s.SelectActiveEndpoints?
    || s.CountEntriesOn?
  }

  /** The reply is what the statement says of a committed state since position `lo`. */
  ghost predicate ReadSince(log: seq<Record>, lo: nat, s: Stmt, r: Reply)
  {
    exists n: nat, st | lo <= n && Snapshot(log, n, st) :: r == ReplyTo(s, st, NoWrites, 0)
  }

  ghost predicate ReadsAreSnapshots(p: Proc, log: seq<Record>)
  {
    forall k: nat | k < |p.rs| && Next(p.job, p.rs[..k]).Do? && Reads(Next(p.job, p.rs[..k]).stmt) ::
      ReadSince(log, p.began, Next(p.job, p.rs[..k]).stmt, p.rs[k])
  }

  ghost predicate SnapshotInv(sys: Sys)
  {
    forall pid | 0 <= pid < |sys.procs| && sys.procs[pid].phase == Running :: ReadsAreSnapshots(sys.procs[pid], sys.log)
  }

  lemma SnapshotsStay(log: seq<Record>, r: Record)
    ensures forall n: nat, st | Snapshot(log, n, st) :: Snapshot(log + [r], n, st)
  {
    hide ValidRun, After;
    forall n: nat, st | Snapshot(log, n, st)
      ensures Snapshot(log + [r], n, st)
    {
      assert Ops(log + [r])[..n] == Ops(log)[..n];
    }
  }

  lemma ReadsStaySnapshots(p: Proc, log: seq<Record>, r: Record)
    requires ReadsAreSnapshots(p, log)
    ensures ReadsAreSnapshots(p, log + [r])
  {
    hide Snapshot, Next, ReplyTo;
    SnapshotsStay(log, r);
    forall k: nat | k < |p.rs| && Next(p.job, p.rs[..k]).Do? && Reads(Next(p.job, p.rs[..k]).stmt)
      ensures ReadSince(log + [r], p.began, Next(p.job, p.rs[..k]).stmt, p.rs[k])
    {
      assert ReadSince(log, p.began, Next(p.job, p.rs[..k]).stmt, p.rs[k]);
    }
  }

  lemma NowIsSnapshot(sys: Sys)
    requires SysInv(sys)
    ensures Snapshot(sys.log, |sys.log|, sys.st)
  {
    hide Consistent, ProcsOk, ValidRun, After;
    assert Ops(sys.log)[..|sys.log|] == Ops(sys.log);
  }

  lemma CountingComesFirst(j: Job, rs: seq<Reply>)
    requires Next(j, rs).Do? && Next(j, rs).stmt.CountEntriesOn?
    ensures rs == []
  {
  }

  /** A read of a row the session has not written sees the committed state of now. */
  lemma StatementReadsSnapshot(sys: Sys, pid: nat)
    requires SysInv(sys) && pid < |sys.procs| && sys.procs[pid].phase == Running && sys.procs[pid].began <= |sys.log|
    requires ReadsAreSnapshots(sys.procs[pid], sys.log)
    requires var p := sys.procs[pid]; Next(p.job, p.rs).Do?
    ensures var p := sys.procs[pid];
            var p' := Execute(sys, pid, Next(p.job, p.rs).stmt).procs[pid];
            p'.phase == Running ==> ReadsAreSnapshots(p', sys.log)
  {
    hide Snapshot, Next, Consistent, Logged, Violates, Locks, StageAfter;
    var p := sys.procs[pid];
    var s := Next(p.job, p.rs).stmt;
    assert ProcOk(p, sys.st, sys.supply);
    EveryJobProceeds(p, sys.st);
    NowIsSnapshot(sys);
    if s.CountEntriesOn? {
      CountingComesFirst(p.job, p.rs);
    }
    var reply := ReplyTo(s, sys.st, p.stage, sys.supply);
    var rs' := p.rs + [reply];
    assert Reads(s) ==> reply == ReplyTo(s, sys.st, NoWrites, 0);
    forall k: nat | k < |rs'| && Next(p.job, rs'[..k]).Do? && Reads(Next(p.job, rs'[..k]).stmt)
      ensures ReadSince(sys.log, p.began, Next(p.job, rs'[..k]).stmt, rs'[k])
    {
      if k < |p.rs| {
        assert rs'[..k] == p.rs[..k];
      } else {
        assert rs'[..k] == p.rs;
      }
    }
  }

  lemma StepKeepsSnapshots(sys: Sys, l: Label)
    requires SysInv(sys) && CallsInv(sys) && SnapshotInv(sys) && Enabled(sys, l)
    ensures SnapshotInv(Step(sys, l))
  {
    hide SysInv, Next, Guard, Apply, OpOf, JobOk, ReadsAreSnapshots, LogOk, VersionsLogged;
    var sys' := Step(sys, l);
    if l.Run? && Next(sys.procs[l.pid].job, sys.procs[l.pid].rs).Do? {
      assert CallOk(sys.procs[l.pid], l.pid, sys.log, sys.st.db);
      StatementReadsSnapshot(sys, l.pid);
    }
    forall q | 0 <= q < |sys'.procs| && sys'.procs[q].phase == Running
      ensures ReadsAreSnapshots(sys'.procs[q], sys'.log)
    {
      if sys'.procs[q].rs == [] {
        NothingReadYet(sys'.procs[q], sys'.log);
      } else if sys'.log != sys.log {
        ReadsStaySnapshots(sys.procs[q], sys.log, sys'.log[|sys.log|]);
      }
    }
  }

  lemma NothingReadYet(p: Proc, log: seq<Record>)
    requires p.rs == []
    ensures ReadsAreSnapshots(p, log)
  {
  }

  lemma {:induction false} TraceKeepsSnapshots(trace: seq<Label>)
    requires ValidTrace(Start, trace)
    ensures SnapshotInv(End(Start, trace))
    decreases |trace|
  {
    hide Enabled, Step, SysInv, CallsInv, ReadsAreSnapshots;
    if trace != [] {
      TraceKeepsSnapshots(trace[..|trace| - 1]);
      TraceKeepsCalls(trace[..|trace| - 1]);
      StepKeepsSnapshots(End(Start, trace[..|trace| - 1]), trace[|trace| - 1]);
    }
  }

  // ---- Transfers ----

  /** In some committed state since position `lo` there was no such wallet. */
  ghost predicate WalletWasMissing(log: seq<Record>, lo: nat, w: Id)
  {
    exists n: nat, st | lo <= n && Snapshot(log, n, st) :: |st.db.wallets| <= w
  }

  /** In some committed state since position `lo` the wallet did not hold the amount. */
  ghost predicate WalletWasShort(log: seq<Record>, lo: nat, w: Id, amount: int)
  {
    exists n: nat, st | lo <= n && Snapshot(log, n, st) :: w < |st.db.wallets| && st.db.wallets[w].balance < amount
  }

  ghost predicate TransferRefusalTrue(p: Proc, e: Error, db: Db, log: seq<Record>)
    requires p.job.TransferJob?
  {
    var j := p.job;
    match e
    case SourceNotFound => WalletWasMissing(log, p.began, j.from)
    case DestinationNotFound => WalletWasMissing(log, p.began, j.to)
    case Forbidden => j.from < |db.wallets| && db.wallets[j.from].merchant != j.caller
    case CurrencyMismatch =>
      && j.from < |db.wallets| && j.to < |db.wallets| && db.wallets[j.from].merchant == j.caller
      && db.wallets[j.from].currency != db.wallets[j.to].currency
    case InsufficientFunds =>
      && j.from < |db.wallets| && j.to < |db.wallets| && db.wallets[j.from].merchant == j.caller
      && db.wallets[j.from].currency == db.wallets[j.to].currency
      && WalletWasShort(log, p.began, j.from, j.amount)
    case ConcurrencyConflict =>
      && j.from < |db.wallets| && j.to < |db.wallets|
      && 2 <= |p.rs| && WalletIn(p.rs[0]).Some? && WalletIn(p.rs[1]).Some?
      && (WalletIn(p.rs[0]).value.version < db.wallets[j.from].version || WalletIn(p.rs[1]).value.version < db.wallets[j.to].version)
    case _ => false
  }

  /**
   * A transfer is refused for its owner or currencies only if they are wrong, as missing or short of funds only if the
   * wallet was so in a committed state since the attempt began, and for a conflict only if a version has moved on.
   */
  lemma TransferRefusalsAreTrue(trace: seq<Label>, pid: nat, e: Error)
    requires ValidTrace(Start, trace) && pid < |End(Start, trace).procs|
    requires var p := End(Start, trace).procs[pid];
             p.phase == Running && p.job.TransferJob? && Next(p.job, p.rs) == Throw(e)
    ensures TransferRefusalTrue(End(Start, trace).procs[pid], e, End(Start, trace).st.db, End(Start, trace).log)
  {
    hide ValidTrace, End, Consistent, Logged, CallsInv, Replay, StageOk, Snapshot, WalletWasMissing, WalletWasShort, ReadSince;
    TraceKeepsCalls(trace);
    TraceKeepsSnapshots(trace);
    var sys := End(Start, trace);
    var p := sys.procs[pid];
    assert ProcOk(p, sys.st, sys.supply) && ReadsAreSnapshots(p, sys.log);
    assert p.rs[..|p.rs|] == p.rs;
    TransferStages(p.job, p.rs, p.locks, sys.st, |p.rs|);
    assert ReadSince(sys.log, p.began, SelectWallet(p.job.from), p.rs[0]);
    assert ReadSince(sys.log, p.began, SelectWallet(p.job.to), p.rs[1]);
    WalletReadMeans(sys.log, p.began, p.job.from, p.rs[0]);
    WalletReadMeans(sys.log, p.began, p.job.to, p.rs[1]);
    if |p.rs| == 7 {
      assert ReplyAt(p.job, p.rs, 5, p.locks, sys.st) && ReplyAt(p.job, p.rs, 6, p.locks, sys.st);
    }
  }

  lemma WalletReadMeans(log: seq<Record>, lo: nat, w: Id, r: Reply)
    requires ReadSince(log, lo, SelectWallet(w), r)
    ensures WalletIn(r).None? ==> WalletWasMissing(log, lo, w)
    ensures WalletIn(r).Some? ==> forall amount | WalletIn(r).value.balance < amount :: WalletWasShort(log, lo, w, amount)
  {
    hide Snapshot;
  }

  // ---- Confirming and cancelling ----

  /** In some committed state since position `lo` the merchant had no such intent. */
  ghost predicate IntentWasMissing(log: seq<Record>, lo: nat, merchant: Id, intent: Id)
  {
    exists n: nat, st | lo <= n && Snapshot(log, n, st) ::
      intent < |st.db.intents| ==> st.db.intents[intent].merchant != merchant
  }

  /** In some committed state since position `lo` the merchant had no wallet in the currency. */
  ghost predicate NoWalletWas(log: seq<Record>, lo: nat, merchant: Id, currency: Id)
  {
    exists n: nat, st | lo <= n && Snapshot(log, n, st) ::
      forall w | 0 <= w < |st.db.wallets| :: st.db.wallets[w].merchant != merchant || st.db.wallets[w].currency != currency
  }

  /**
   * Confirming or cancelling is an invalid transition only if the intent, locked, is the merchant's and has ended; and
   * an intent or a wallet is reported missing only if it was in a committed state since the call began.
   */
  lemma IntentRefusalsAreTrue(trace: seq<Label>, pid: nat, e: Error)
    requires ValidTrace(Start, trace) && pid < |End(Start, trace).procs|
    requires var p := End(Start, trace).procs[pid];
             p.phase == Running && (p.job.ConfirmJob? || p.job.CancelJob?) && Next(p.job, p.rs) == Throw(e)
    ensures var sys := End(Start, trace);
            var p := sys.procs[pid];
            var j, intents := p.job, sys.st.db.intents;
            match e
            case InvalidTransition =>
              && j.intent < |intents| && IntentRow(j.intent) in p.locks
              && intents[j.intent].merchant == j.merchant && intents[j.intent].status != RequiresConfirmation
            case NoWalletForCurrency =>
              && j.intent < |intents| && intents[j.intent].merchant == j.merchant
              && intents[j.intent].status == RequiresConfirmation
              && NoWalletWas(sys.log, p.began, j.merchant, intents[j.intent].currency)
            case IntentNotFound => IntentWasMissing(sys.log, p.began, j.merchant, j.intent)
            case _ => false
  {
    hide ValidTrace, End, Consistent, Logged, Replay, StageOk, CallsInv, Snapshot, NoWalletWas, IntentWasMissing, ReadSince;
    TraceKeepsCalls(trace);
    TraceKeepsSnapshots(trace);
    var sys := End(Start, trace);
    var p := sys.procs[pid];
    assert ProcOk(p, sys.st, sys.supply) && ReadsAreSnapshots(p, sys.log);
    assert ReplyAt(p.job, p.rs, 0, p.locks, sys.st);
    assert ReadSince(sys.log, p.began, SelectIntentForUpdate(p.job.merchant, p.job.intent), p.rs[0]);
    IntentReadMeans(sys.log, p.began, p.job.merchant, p.job.intent, p.rs[0]);
    if e == NoWalletForCurrency {
      var currency := IntentIn(p.rs[0]).value.currency;
      assert ReadSince(sys.log, p.began, SelectWalletOf(p.job.merchant, currency), p.rs[1]);
      WalletOfMeans(sys.log, p.began, p.job.merchant, currency, p.rs[1]);
    }
  }

  lemma IntentReadMeans(log: seq<Record>, lo: nat, m: Id, i: Id, r: Reply)
    requires ReadSince(log, lo, SelectIntentForUpdate(m, i), r)
    ensures IntentIn(r).None? ==> IntentWasMissing(log, lo, m, i)
  {
    hide Snapshot;
  }

  lemma WalletOfMeans(log: seq<Record>, lo: nat, m: Id, c: Id, r: Reply)
    requires ReadSince(log, lo, SelectWalletOf(m, c), r)
    ensures WalletIdIn(r).None? ==> NoWalletWas(log, lo, m, c)
  {
    hide Snapshot;
  }
}
