/**
 * Whole calls of the services over a run: a call's writes commit exactly once or not at all, a transfer gives up with a
 * conflict only after enough other transfers went through, and its stale validation is only ever undone by a sweep.
 */
module Calls {
  import opened Options
  import opened Ledger
  import opened PayoutQueue
  import opened Invariants
  import opened Sessions
  import opened Coherence
  import opened Jobs
  import opened Refinement

  // ---- Counting transfers in the commit log ----

  predicate On(op: Op, w: Id)
  {
    op.Transfer? && (op.from == w || op.to == w)
  }

  predicate Contends(op: Op, a: Id, b: Id)
  {
    On(op, a) || On(op, b)
  }

  /** How many transfers touching wallet `a` or `b` the log holds from position `lo` up to `hi`. */
  ghost function Contended(log: seq<Record>, lo: nat, hi: nat, a: Id, b: Id): nat
    requires hi <= |log|
    decreases hi
  {
    if hi <= lo then 0
    else Contended(log, lo, hi - 1, a, b) + (if Contends(log[hi - 1].op, a, b) then 1 else 0)
  }

  ghost function TransfersLogged(log: seq<Record>, w: Id): nat
  {
    if log == [] then 0
    else TransfersLogged(log[..|log| - 1], w) + (if On(log[|log| - 1].op, w) then 1 else 0)
  }

  lemma {:induction false} ContendedPrefix(log: seq<Record>, r: Record, lo: nat, hi: nat, a: Id, b: Id)
    requires hi <= |log|
    ensures Contended(log + [r], lo, hi, a, b) == Contended(log, lo, hi, a, b)
    decreases hi
  {
    if lo < hi {
      ContendedPrefix(log, r, lo, hi - 1, a, b);
    }
  }

  lemma {:induction false} ContendedAdds(log: seq<Record>, lo: nat, mid: nat, hi: nat, a: Id, b: Id)
    requires lo <= mid <= hi <= |log|
    ensures Contended(log, lo, hi, a, b) == Contended(log, lo, mid, a, b) + Contended(log, mid, hi, a, b)
    decreases hi
  {
    if mid < hi {
      ContendedAdds(log, lo, mid, hi - 1, a, b);
    }
  }

  /** A version that moved since position `lo` moved because a transfer on that wallet was logged since. */
  lemma {:induction false} MovedVersionIsContended(log: seq<Record>, lo: nat, w: Id, a: Id, b: Id)
    requires lo <= |log| && (w == a || w == b) && TransfersLogged(log[..lo], w) < TransfersLogged(log, w)
    ensures 0 < Contended(log, lo, |log|, a, b)
    decreases |log|
  {
    assert log[..|log|] == log;
    var n := |log| - 1;
    if lo < |log| && !On(log[n].op, w) {
      assert log[..n][..lo] == log[..lo];
      MovedVersionIsContended(log[..n], lo, w, a, b);
      assert log[..n] + [log[n]] == log;
      ContendedPrefix(log[..n], log[n], lo, n, a, b);
    }
  }

  // ---- What a plain read is worth later ----

  predicate SweepsWallet(op: Op, w: Id)
  {
    op.Sweep? && op.wallet == w
  }

  /** Operations that move the wallet's balance without bumping its version. */
  predicate MovesUnversioned(op: Op, w: Id)
  {
    (op.Deposit? || op.Confirm? || op.Sweep? || op.Reverse?) && op.wallet == w
  }

  ghost predicate SweptSince(log: seq<Record>, lo: nat, w: Id)
  {
    exists k | lo <= k < |log| :: SweepsWallet(log[k].op, w)
  }

  ghost predicate MovedSince(log: seq<Record>, lo: nat, w: Id)
  {
    exists k | lo <= k < |log| :: MovesUnversioned(log[k].op, w)
  }

  /** While the version has not moved, the balance has not dropped unless the wallet was swept, nor changed unless
      money moved outside transfers. */
  ghost predicate ReadHolds(r: Wallet, w: Id, log: seq<Record>, lo: nat, db: Db)
  {
    && w < |db.wallets|
    && lo <= |log|
    && TransfersLogged(log[..lo], w) <= r.version <= db.wallets[w].version
    && (r.version == db.wallets[w].version ==>
          && (r.balance <= db.wallets[w].balance || SweptSince(log, lo, w))
          && (r.balance == db.wallets[w].balance || MovedSince(log, lo, w)))
  }

  lemma OperationOnWallet(op: Op, st: State, w: Id)
    requires ClaimsOk(st) && Guard(op, st) && w < |st.db.wallets|
    ensures var x, x' := st.db.wallets[w], Apply(op, st).db.wallets[w];
            && x'.version == x.version + (if On(op, w) then 1 else 0)
            && (!On(op, w) && !SweepsWallet(op, w) ==> x.balance <= x'.balance)
            && (!On(op, w) && !MovesUnversioned(op, w) ==> x.balance == x'.balance)
  {
    hide ClaimsOk;
    if op.Reverse? {
      assert 0 < ReversalEntry(st.claims[op.claim].row, op.txn).amount;
    }
  }

  lemma ReadStillHolds(r: Wallet, w: Id, log: seq<Record>, lo: nat, st: State, rec: Record)
    requires ReadHolds(r, w, log, lo, st.db) && ClaimsOk(st) && Guard(rec.op, st)
    ensures ReadHolds(r, w, log + [rec], lo, Apply(rec.op, st).db)
  {
    hide ClaimsOk, Guard, Apply, TransfersLogged;
    OperationOnWallet(rec.op, st, w);
    StepRemembersWallets(rec.op, st);
    var log' := log + [rec];
    assert log'[..lo] == log[..lo];
    assert log'[|log|] == rec;
    if SweptSince(log, lo, w) {
      var k :| lo <= k < |log| && SweepsWallet(log[k].op, w);
      assert SweepsWallet(log'[k].op, w);
    }
    if MovedSince(log, lo, w) {
      var k :| lo <= k < |log| && MovesUnversioned(log[k].op, w);
      assert MovesUnversioned(log'[k].op, w);
    }
  }

  lemma StepRemembersWallets(op: Op, st: State)
    requires ClaimsOk(st) && Guard(op, st)
    ensures |st.db.wallets| <= |Apply(op, st).db.wallets|
  {
    hide ClaimsOk;
  }

  // ---- The invariant of calls ----

  ghost predicate CallOk(p: Proc, pid: nat, log: seq<Record>, db: Db)
  {
    && p.born <= p.began <= |log|
    && 1 <= p.attempt <= MAX_RETRIES
    && (p.phase.Done? ==>
          p.phase.at < |log| && log[p.phase.at] == Record(Some(pid), OpOf(p.job, p.rs)) && Next(p.job, p.rs).Commit?)
    && (p.job.TransferJob? ==> RetriesOk(p, log) && (p.phase == Running ==> ReadsOk(p, log, db)))
    && (p.phase == Thrown(ConcurrencyConflict) ==> p.job.TransferJob?)
  }

  /** Every failed attempt is matched by a transfer that went through on one of the two wallets meanwhile. */
  ghost predicate RetriesOk(p: Proc, log: seq<Record>)
    requires p.job.TransferJob? && p.began <= |log|
  {
    && p.attempt - 1 <= Contended(log, p.born, p.began, p.job.from, p.job.to)
    && (p.phase == Thrown(ConcurrencyConflict) ==> MAX_RETRIES <= Contended(log, p.born, |log|, p.job.from, p.job.to))
  }

  ghost predicate ReadsOk(p: Proc, log: seq<Record>, db: Db)
    requires p.job.TransferJob?
  {
    && (0 < |p.rs| && WalletIn(p.rs[0]).Some? ==> ReadHolds(WalletIn(p.rs[0]).value, p.job.from, log, p.began, db))
    && (1 < |p.rs| && WalletIn(p.rs[1]).Some? ==> ReadHolds(WalletIn(p.rs[1]).value, p.job.to, log, p.began, db))
  }

  ghost predicate LogOk(sys: Sys)
  {
    forall k | 0 <= k < |sys.log| ::
      && (sys.log[k].op.Transfer? ==> sys.log[k].pid.Some?)
      && (sys.log[k].pid.Some? ==>
            sys.log[k].pid.value < |sys.procs| && sys.procs[sys.log[k].pid.value].phase == Done(k))
  }

  ghost predicate VersionsLogged(log: seq<Record>, db: Db)
  {
    forall w: Id :: TransfersLogged(log, w) == if w < |db.wallets| then db.wallets[w].version else 0
  }

  ghost predicate CallsInv(sys: Sys)
  {
    && LogOk(sys)
    && VersionsLogged(sys.log, sys.st.db)
    && forall i | 0 <= i < |sys.procs| :: CallOk(sys.procs[i], i, sys.log, sys.st.db)
  }

  lemma VersionsStayLogged(log: seq<Record>, st: State, r: Record)
    requires VersionsLogged(log, st.db) && ClaimsOk(st) && Guard(r.op, st)
    ensures VersionsLogged(log + [r], Apply(r.op, st).db)
  {
    hide ClaimsOk;
    var log' := log + [r];
    assert log'[..|log|] == log;
    forall w: Id
      ensures TransfersLogged(log', w) == if w < |Apply(r.op, st).db.wallets| then Apply(r.op, st).db.wallets[w].version else 0
    {
      assert TransfersLogged(log', w) == TransfersLogged(log, w) + (if On(r.op, w) then 1 else 0);
      if w < |st.db.wallets| {
        OperationOnWallet(r.op, st, w);
      }
    }
  }

  lemma CallAcrossOperation(p: Proc, pid: nat, log: seq<Record>, st: State, r: Record)
    requires CallOk(p, pid, log, st.db) && ClaimsOk(st) && Guard(r.op, st)
    ensures CallOk(p, pid, log + [r], Apply(r.op, st).db)
  {
    hide ClaimsOk, Guard, Apply, ReadHolds, OpOf, Next;
    if p.job.TransferJob? {
      var log' := log + [r];
      var a, b := p.job.from, p.job.to;
      ContendedPrefix(log, r, p.born, p.began, a, b);
      ContendedPrefix(log, r, p.born, |log|, a, b);
      ContendedAdds(log', p.born, |log|, |log'|, a, b);
      if p.phase == Running {
        if 0 < |p.rs| && WalletIn(p.rs[0]).Some? {
          ReadStillHolds(WalletIn(p.rs[0]).value, a, log, p.began, st, r);
        }
        if 1 < |p.rs| && WalletIn(p.rs[1]).Some? {
          ReadStillHolds(WalletIn(p.rs[1]).value, b, log, p.began, st, r);
        }
      }
    }
  }

  lemma {:induction false} LoggedGrows(log: seq<Record>, lo: nat, w: Id)
    requires lo <= |log|
    ensures TransfersLogged(log[..lo], w) <= TransfersLogged(log, w)
    decreases |log|
  {
    if lo == |log| {
      assert log[..lo] == log;
    } else {
      var n := |log| - 1;
      assert log[..n][..lo] == log[..lo];
      LoggedGrows(log[..n], lo, w);
    }
  }

  /** A plain read of a wallet starts out holding. */
  lemma FreshReadHolds(sys: Sys, w: Id, lo: nat)
    requires VersionsLogged(sys.log, sys.st.db) && lo <= |sys.log| && w < |sys.st.db.wallets|
    ensures ReadHolds(sys.st.db.wallets[w], w, sys.log, lo, sys.st.db)
  {
    LoggedGrows(sys.log, lo, w);
  }

  /** The session has staged no wallet before its second read. */
  lemma TransferReadsCommitted(p: Proc, st: State)
    requires Coherent(p, st) && p.job.TransferJob? && |p.rs| < 2
    ensures p.stage.wallets == map[]
  {
    hide Replay, StageOk, RepliesOk;
    assert p.rs[..|p.rs|] == p.rs;
    TransferStages(p.job, p.rs, p.locks, st, |p.rs|);
  }

  lemma StatementKeepsCall(sys: Sys, pid: nat)
    requires SysInv(sys) && CallsInv(sys) && pid < |sys.procs| && sys.procs[pid].phase == Running
    requires var p := sys.procs[pid]; Next(p.job, p.rs).Do?
    ensures var sys' := Execute(sys, pid, Next(sys.procs[pid].job, sys.procs[pid].rs).stmt);
            CallOk(sys'.procs[pid], pid, sys.log, sys.st.db)
  {
    hide Consistent, Logged, Coherent, ReadHolds, Contended, StageAfter, Locks, Violates;
    var p := sys.procs[pid];
    assert CallOk(p, pid, sys.log, sys.st.db) && ProcOk(p, sys.st, sys.supply);
    if p.job.TransferJob? && |p.rs| < 2 {
      TransferReadsCommitted(p, sys.st);
      var w := if |p.rs| == 0 then p.job.from else p.job.to;
      if w < |sys.st.db.wallets| {
        FreshReadHolds(sys, w, p.began);
      }
    }
  }

  /** A conflict means one of the two versions moved since this attempt began. */
  lemma ConflictIsContended(p: Proc, pid: nat, log: seq<Record>, st: State)
    requires CallOk(p, pid, log, st.db) && p.phase == Running && Coherent(p, st) && VersionsLogged(log, st.db)
    requires Next(p.job, p.rs) == Throw(ConcurrencyConflict)
    ensures p.job.TransferJob?
    ensures p.attempt <= Contended(log, p.born, |log|, p.job.from, p.job.to)
  {
    hide Replay, StageOk, Contended, TransfersLogged, SweptSince, MovedSince;
    var a, b := p.job.from, p.job.to;
    TransferIsLong(p, st);
    assert ReplyAt(p.job, p.rs, 5, p.locks, st) && ReplyAt(p.job, p.rs, 6, p.locks, st);
    var f, t := WalletIn(p.rs[0]).value, WalletIn(p.rs[1]).value;
    assert p.rs[..5][0] == p.rs[0] && p.rs[..6][0] == p.rs[0] && p.rs[..5][1] == p.rs[1] && p.rs[..6][1] == p.rs[1];
    assert f.version < st.db.wallets[a].version || t.version < st.db.wallets[b].version;
    if f.version < st.db.wallets[a].version {
      MovedVersionIsContended(log, p.began, a, a, b);
    } else {
      MovedVersionIsContended(log, p.began, b, a, b);
    }
    ContendedAdds(log, p.born, p.began, |log|, a, b);
  }

  lemma TransferIsLong(p: Proc, st: State)
    requires Coherent(p, st) && Next(p.job, p.rs) == Throw(ConcurrencyConflict)
    ensures p.job.TransferJob? && |p.rs| == 7
    ensures WalletIn(p.rs[0]).Some? && WalletIn(p.rs[1]).Some?
  {
    hide Replay, StageOk, RepliesOk;
    assert p.rs[..|p.rs|] == p.rs;
    if p.job.TransferJob? {
      TransferStages(p.job, p.rs, p.locks, st, |p.rs|);
    }
  }

  lemma RollbackKeepsCall(sys: Sys, pid: nat, e: Error)
    requires SysInv(sys) && CallsInv(sys) && pid < |sys.procs| && sys.procs[pid].phase == Running
    requires Next(sys.procs[pid].job, sys.procs[pid].rs) == Throw(e)
    ensures CallOk(RolledBack(sys, pid, e).procs[pid], pid, sys.log, sys.st.db)
  {
    hide Consistent, Logged, Coherent, ReadHolds, Contended, Next;
    var p := sys.procs[pid];
    assert CallOk(p, pid, sys.log, sys.st.db) && ProcOk(p, sys.st, sys.supply);
    if e == ConcurrencyConflict {
      ConflictIsContended(p, pid, sys.log, sys.st);
    }
  }

  /** A step that commits nothing and leaves one call in order keeps every call in order. */
  lemma QuietStepKeepsCalls(sys: Sys, sys': Sys, pid: nat)
    requires CallsInv(sys) && sys'.st == sys.st && sys'.log == sys.log
    requires if pid == |sys.procs| then |sys'.procs| == pid + 1 else pid < |sys.procs| == |sys'.procs|
    requires forall q | 0 <= q < |sys.procs| && q != pid :: sys'.procs[q] == sys.procs[q]
    requires pid < |sys.procs| ==> sys.procs[pid].phase == Running
    requires CallOk(sys'.procs[pid], pid, sys.log, sys.st.db)
    ensures CallsInv(sys')
  {
    hide CallOk, VersionsLogged;
    forall i | 0 <= i < |sys'.procs|
      ensures CallOk(sys'.procs[i], i, sys'.log, sys'.st.db)
    {
      assert i != pid ==> CallOk(sys.procs[i], i, sys.log, sys.st.db);
    }
  }

  /** A commit is logged under its call, which is done; every other call stays in order. */
  lemma LoudStepKeepsCalls(sys: Sys, sys': Sys, r: Record)
    requires SysInv(sys) && CallsInv(sys) && Guard(r.op, sys.st)
    requires sys'.st == Apply(r.op, sys.st) && sys'.log == sys.log + [r] && |sys'.procs| == |sys.procs|
    requires forall q | 0 <= q < |sys.procs| && r.pid != Some(q) :: sys'.procs[q] == sys.procs[q]
    requires r.op.Transfer? ==> r.pid.Some?
    requires r.pid.Some? ==>
               && r.pid.value < |sys.procs| && sys.procs[r.pid.value].phase == Running
               && sys'.procs[r.pid.value] == Ended(sys.procs[r.pid.value], Done(|sys.log|))
               && r.op == OpOf(sys.procs[r.pid.value].job, sys.procs[r.pid.value].rs)
               && Next(sys.procs[r.pid.value].job, sys.procs[r.pid.value].rs).Commit?
    ensures CallsInv(sys')
  {
    hide VersionsLogged, ClaimsOk, Guard, Apply, OpOf, Next, Logged, ProcsOk, Contended, ReadsOk;
    BooksAndRecords(sys.st);
    VersionsStayLogged(sys.log, sys.st, r);
    forall i | 0 <= i < |sys'.procs|
      ensures CallOk(sys'.procs[i], i, sys'.log, sys'.st.db)
    {
      assert CallOk(sys.procs[i], i, sys.log, sys.st.db);
      CallAcrossOperation(sys.procs[i], i, sys.log, sys.st, r);
    }
    LogStaysOk(sys, sys', r);
  }

  lemma LogStaysOk(sys: Sys, sys': Sys, r: Record)
    requires LogOk(sys)
    requires sys'.log == sys.log + [r] && |sys'.procs| == |sys.procs|
    requires forall q | 0 <= q < |sys.procs| && r.pid != Some(q) :: sys'.procs[q] == sys.procs[q]
    requires r.op.Transfer? ==> r.pid.Some?
    requires r.pid.Some? ==>
               && r.pid.value < |sys.procs| && sys.procs[r.pid.value].phase == Running
               && sys'.procs[r.pid.value].phase == Done(|sys.log|)
    ensures LogOk(sys')
  {
  }

  lemma StepKeepsCalls(sys: Sys, l: Label)
    requires SysInv(sys) && CallsInv(sys) && Enabled(sys, l)
    ensures CallsInv(Step(sys, l))
  {
    hide SysInv, CallsInv, CallOk, Next, Guard, Apply, OpOf, JobOk;
    var sys' := Step(sys, l);
    match l
    case Spawn(j) =>
      NewCallOk(sys, j);
      QuietStepKeepsCalls(sys, sys', |sys.procs|);
    case Kill(pid) =>
      EndedCallOk(sys, pid);
      QuietStepKeepsCalls(sys, sys', pid);
    case Auto(op) =>
      LoudStepKeepsCalls(sys, sys', Record(None, op));
    case Run(pid) =>
      var p := sys.procs[pid];
      match Next(p.job, p.rs)
      case Do(s) =>
        StatementKeepsCall(sys, pid);
        QuietStepKeepsCalls(sys, sys', pid);
      case Throw(e) =>
        RollbackKeepsCall(sys, pid, e);
        QuietStepKeepsCalls(sys, sys', pid);
      case Commit =>
        CommitIsLogged(sys, pid);
        LoudStepKeepsCalls(sys, sys', Record(Some(pid), OpOf(p.job, p.rs)));
  }

  lemma CommitIsLogged(sys: Sys, pid: nat)
    requires SysInv(sys) && Enabled(sys, Run(pid)) && Next(sys.procs[pid].job, sys.procs[pid].rs).Commit?
    ensures var op := OpOf(sys.procs[pid].job, sys.procs[pid].rs);
            Guard(op, sys.st) && Committed(sys.st, sys.procs[pid]) == Apply(op, sys.st)
  {
    hide SysInv, Next, Guard, Apply, OpOf, Enabled;
    CommitKeeps(sys, pid);
  }

  lemma NewCallOk(sys: Sys, j: Job)
    requires CallsInv(sys)
    ensures CallOk(Proc(j, 1, Running, [], NoWrites, {}, |sys.log|, |sys.log|), |sys.procs|, sys.log, sys.st.db)
  {
  }

  lemma EndedCallOk(sys: Sys, pid: nat)
    requires CallsInv(sys) && pid < |sys.procs|
    ensures CallOk(Ended(sys.procs[pid], Thrown(Aborted)), pid, sys.log, sys.st.db)
  {
    hide Contended, ReadHolds;
    assert CallOk(sys.procs[pid], pid, sys.log, sys.st.db);
  }

  lemma {:induction false} TraceKeepsCalls(trace: seq<Label>)
    requires ValidTrace(Start, trace)
    ensures SysInv(End(Start, trace)) && CallsInv(End(Start, trace))
    decreases |trace|
  {
    hide Enabled, Step, SysInv, CallsInv;
    TraceKeepsSysInv(trace);
    if trace == [] {
      StartCallsOk();
    } else {
      TraceKeepsCalls(trace[..|trace| - 1]);
      StepKeepsCalls(End(Start, trace[..|trace| - 1]), trace[|trace| - 1]);
    }
  }

  lemma StartCallsOk()
    ensures CallsInv(Start)
  {
  }

  // ---- Main results on calls ----

  /** A call that returned committed exactly one operation, its own; a call that threw, or runs, committed none. */
  lemma CallsAreAllOrNothing(trace: seq<Label>, pid: nat)
    requires ValidTrace(Start, trace) && pid < |End(Start, trace).procs|
    ensures var sys := End(Start, trace);
            var p := sys.procs[pid];
            match p.phase
            case Done(k) =>
              && k < |sys.log| && sys.log[k] == Record(Some(pid), OpOf(p.job, p.rs))
              && forall i | 0 <= i < |sys.log| && sys.log[i].pid == Some(pid) :: i == k
            case _ => forall i | 0 <= i < |sys.log| :: sys.log[i].pid != Some(pid)
  {
    hide ValidTrace, End, SysInv, OpOf, VersionsLogged, RetriesOk, ReadsOk;
    TraceKeepsCalls(trace);
    assert CallOk(End(Start, trace).procs[pid], pid, End(Start, trace).log, End(Start, trace).st.db);
  }

  /** However stale the validated balance was, a transfer that commits had its guard true at the commit point. */
  lemma CommittedTransferWasCovered(trace: seq<Label>, pid: nat)
    requires ValidTrace(Start, trace) && pid < |End(Start, trace).procs|
    requires var p := End(Start, trace).procs[pid]; p.job.TransferJob? && p.phase.Done?
    ensures var sys := End(Start, trace);
            var p := sys.procs[pid];
            var k := p.phase.at;
            && k < |sys.log| && ValidRun(Initial, Ops(sys.log)[..k])
            && var db, j := After(Initial, Ops(sys.log)[..k]).db, p.job;
               && j.from < |db.wallets| && j.to < |db.wallets|
               && db.wallets[j.from].merchant == j.caller
               && db.wallets[j.from].currency == db.wallets[j.to].currency
               && j.amount <= db.wallets[j.from].balance
  {
    hide ValidTrace, End, Consistent, ProcsOk, VersionsLogged, RetriesOk, ReadsOk, LogOk, ValidRun, After, Apply;
    TraceKeepsCalls(trace);
    var sys := End(Start, trace);
    var k := sys.procs[pid].phase.at;
    assert CallOk(sys.procs[pid], pid, sys.log, sys.st.db);
    assert Ops(sys.log)[k] == OpOf(sys.procs[pid].job, sys.procs[pid].rs);
    ValidAt(Ops(sys.log), k);
  }

  /** The calls whose transfer on wallet `a` or `b` was logged from position `lo` up to `hi`. */
  ghost function Winners(log: seq<Record>, lo: nat, hi: nat, a: Id, b: Id): set<nat>
    requires hi <= |log|
    decreases hi
  {
    if hi <= lo then {}
    else
      var r := log[hi - 1];
      Winners(log, lo, hi - 1, a, b) + if Contends(r.op, a, b) && r.pid.Some? then {r.pid.value} else {}
  }

  ghost predicate Won(sys: Sys, q: nat, lo: nat, hi: nat, a: Id, b: Id)
  {
    && q < |sys.procs| && sys.procs[q].phase.Done? && lo <= sys.procs[q].phase.at < hi <= |sys.log|
    && Contends(sys.log[sys.procs[q].phase.at].op, a, b)
  }

  lemma {:induction false} WinnersWon(sys: Sys, lo: nat, hi: nat, a: Id, b: Id)
    requires LogOk(sys) && hi <= |sys.log|
    ensures forall q | q in Winners(sys.log, lo, hi, a, b) :: Won(sys, q, lo, hi, a, b)
    decreases hi
  {
    hide Contends;
    if lo < hi {
      WinnersWon(sys, lo, hi - 1, a, b);
    }
  }

  lemma {:induction false} WinnersAreDistinct(sys: Sys, lo: nat, hi: nat, a: Id, b: Id)
    requires LogOk(sys) && hi <= |sys.log|
    ensures |Winners(sys.log, lo, hi, a, b)| == Contended(sys.log, lo, hi, a, b)
    decreases hi
  {
    hide On;
    if lo < hi {
      WinnersAreDistinct(sys, lo, hi - 1, a, b);
      WinnersWon(sys, lo, hi - 1, a, b);
      var r := sys.log[hi - 1];
      if Contends(r.op, a, b) {
        assert r.pid.Some? by { OnlyTransfersContend(r.op, a, b); }
        assert sys.procs[r.pid.value].phase == Done(hi - 1);
        assert !Won(sys, r.pid.value, lo, hi - 1, a, b);
      }
    }
  }

  lemma OnlyTransfersContend(op: Op, a: Id, b: Id)
    ensures Contends(op, a, b) ==> op.Transfer?
  {
  }

  /**
   * Retry exhaustion is paid for: a transfer that ends in a conflict saw at least five other transfer calls
   * commit on one of its two wallets during its run.
   */
  lemma ConflictsArePaidFor(trace: seq<Label>, pid: nat)
    requires ValidTrace(Start, trace) && pid < |End(Start, trace).procs|
    requires End(Start, trace).procs[pid].phase == Thrown(ConcurrencyConflict)
    ensures var sys := End(Start, trace);
            var p := sys.procs[pid];
            && p.job.TransferJob?
            && var winners := Winners(sys.log, p.born, |sys.log|, p.job.from, p.job.to);
               && 5 <= |winners|
               && forall q | q in winners ::
                    && q < |sys.procs| && q != pid && sys.procs[q].job.TransferJob? && sys.procs[q].phase.Done?
                    && p.born <= sys.procs[q].phase.at
                    && var j := sys.procs[q].job;
                       j.from == p.job.from || j.from == p.job.to || j.to == p.job.from || j.to == p.job.to
  {
    hide ValidTrace, End, SysInv, VersionsLogged, ReadsOk, Contended, Winners;
    TraceKeepsCalls(trace);
    var sys := End(Start, trace);
    var p := sys.procs[pid];
    assert CallOk(p, pid, sys.log, sys.st.db);
    WinnersAreDistinct(sys, p.born, |sys.log|, p.job.from, p.job.to);
    WinnersWon(sys, p.born, |sys.log|, p.job.from, p.job.to);
    forall q | q in Winners(sys.log, p.born, |sys.log|, p.job.from, p.job.to)
      ensures sys.procs[q].job.TransferJob? && Contends(OpOf(sys.procs[q].job, sys.procs[q].rs), p.job.from, p.job.to)
    {
      assert Won(sys, q, p.born, |sys.log|, p.job.from, p.job.to) && CallOk(sys.procs[q], q, sys.log, sys.st.db);
    }
  }

  ghost function TransferCalls(sys: Sys): set<nat>
  {
    set i | 0 <= i < |sys.procs| && sys.procs[i].job.TransferJob?
  }

  lemma {:induction false} SubsetsAreSmaller(a: set<nat>, b: set<nat>)
    requires a <= b
    ensures |a| <= |b|
    decreases a
  {
    if x :| x in a {
      SubsetsAreSmaller(a - {x}, b - {x});
    }
  }

  /** With at most five transfer calls in the whole run, none exhausts its retries. */
  lemma FewTransfersNeverConflict(trace: seq<Label>, pid: nat)
    requires ValidTrace(Start, trace) && pid < |End(Start, trace).procs|
    requires |TransferCalls(End(Start, trace))| <= 5
    ensures End(Start, trace).procs[pid].phase != Thrown(ConcurrencyConflict)
  {
    hide ValidTrace, End;
    var sys := End(Start, trace);
    var p := sys.procs[pid];
    if p.phase == Thrown(ConcurrencyConflict) {
      ConflictsArePaidFor(trace, pid);
      var winners := Winners(sys.log, p.born, |sys.log|, p.job.from, p.job.to);
      assert |winners + {pid}| == |winners| + 1;
      SubsetsAreSmaller(winners + {pid}, TransferCalls(sys));
    }
  }

  /**
   * When the version a transfer read on its source is still the committed one, the balance is at least the validated
   * one unless that wallet was swept since the attempt began, and is the validated one unless money moved on it outside
   * transfers. So the schema's CHECK on the balance stops a transfer only after a sweep of its source.
   */
  lemma CheckFiresOnlyAfterSweep(trace: seq<Label>, pid: nat)
    requires ValidTrace(Start, trace) && pid < |End(Start, trace).procs|
    requires var p := End(Start, trace).procs[pid]; p.job.TransferJob? && p.phase == Running && |p.rs| == 5
    ensures var sys := End(Start, trace);
            var p := sys.procs[pid];
            && Next(p.job, p.rs).Do? && Next(p.job, p.rs).stmt.UpdateBalanceIfVersion?
            && var s := Next(p.job, p.rs).stmt;
               && s.wallet == p.job.from < |sys.st.db.wallets|
               && (Violates(s, p.stage, sys.st.db) ==> SweptSince(sys.log, p.began, p.job.from))
               && (sys.st.db.wallets[s.wallet].version == s.version ==> FundsHold(p, sys))
  {
    hide ValidTrace, End, Consistent, Logged, LogOk, VersionsLogged, RetriesOk, Contended, Replay, SweptSince, MovedSince, TransfersLogged;
    TraceKeepsCalls(trace);
    var sys := End(Start, trace);
    var p := sys.procs[pid];
    assert CallOk(p, pid, sys.log, sys.st.db) && ProcOk(p, sys.st, sys.supply);
    assert p.rs[..5] == p.rs;
    TransferStages(p.job, p.rs, p.locks, sys.st, 5);
    assert p.stage.wallets == map[];
    assert ReplyAt(p.job, p.rs, 4, p.locks, sys.st);
    assert sys.st.db.wallets[p.job.from].balance <= MAX_BIGINT by { BalancesInRange(sys.st, p.job.from); }
  }

  /** The committed source against the balance the transfer validated. */
  ghost predicate FundsHold(p: Proc, sys: Sys)
    requires p.job.TransferJob? && 0 < |p.rs| && WalletIn(p.rs[0]).Some? && p.job.from < |sys.st.db.wallets|
  {
    var read, found := WalletIn(p.rs[0]).value.balance, sys.st.db.wallets[p.job.from].balance;
    && (read <= found || SweptSince(sys.log, p.began, p.job.from))
    && (read == found || MovedSince(sys.log, p.began, p.job.from))
  }

  /**
   * And so it stays to the commit: a transfer both of whose version checks passed finds its source, now locked, with
   * at least the balance it validated unless it was swept, and with exactly that one if only transfers moved it.
   */
  lemma PassedChecksFoundTheFunds(trace: seq<Label>, pid: nat)
    requires ValidTrace(Start, trace) && pid < |End(Start, trace).procs|
    requires var p := End(Start, trace).procs[pid]; p.job.TransferJob? && p.phase == Running && Next(p.job, p.rs).Commit?
    ensures var sys := End(Start, trace);
            var p := sys.procs[pid];
            && 0 < |p.rs| && WalletIn(p.rs[0]).Some? && p.job.from < |sys.st.db.wallets|
            && WalletRow(p.job.from) in p.locks
            && p.job.amount <= WalletIn(p.rs[0]).value.balance
            && FundsHold(p, sys)
  {
    hide ValidTrace, End, Consistent, Logged, LogOk, VersionsLogged, RetriesOk, Contended, Replay, SweptSince, MovedSince, TransfersLogged;
    TraceKeepsCalls(trace);
    var sys := End(Start, trace);
    var p := sys.procs[pid];
    assert CallOk(p, pid, sys.log, sys.st.db) && ProcOk(p, sys.st, sys.supply);
    assert p.rs[..|p.rs|] == p.rs;
    TransferStages(p.job, p.rs, p.locks, sys.st, |p.rs|);
    assert ReplyAt(p.job, p.rs, 5, p.locks, sys.st);
  }

  lemma BalancesInRange(st: State, w: Id)
    requires Consistent(st) && w < |st.db.wallets|
    ensures InRange(st.db.wallets[w].balance)
  {
  }
}
