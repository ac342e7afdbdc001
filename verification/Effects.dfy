/**
 * What the sessions that commit have done, said of the rows: a sweep settles exactly when the wallet holds the minimum,
 * and what is reported is reported to exactly the endpoints that were active when they were read.
 */
module Effects {
  import opened Ledger
  import opened Invariants
  import opened Sessions
  import opened Coherence
  import opened Jobs
  import opened Refinement
  import opened Calls
  import opened Refusals

  /** In some committed state since position `lo` these were the merchant's active endpoints. */
  ghost predicate WereActive(log: seq<Record>, lo: nat, merchant: Id, endpoints: seq<Id>)
  {
    && NoDuplicates(endpoints)
    && exists n: nat, st | lo <= n && Snapshot(log, n, st) ::
         forall e: Id :: e in endpoints <==> e < |st.db.endpoints| && st.db.endpoints[e] == Endpoint(merchant, true)
  }

  lemma EndpointReadMeans(log: seq<Record>, lo: nat, merchant: Id, r: Reply)
    requires ReadSince(log, lo, SelectActiveEndpoints(merchant), r)
    ensures WereActive(log, lo, merchant, EndpointsIn(r))
  {
    hide Snapshot;
    var n: nat, st :| lo <= n && Snapshot(log, n, st) && r == ReplyTo(SelectActiveEndpoints(merchant), st, NoWrites, 0);
    assert forall e: Id :: e in EndpointsIn(r) <==> e < |st.db.endpoints| && st.db.endpoints[e] == Endpoint(merchant, true);
  }

  /**
   * A sweep of a wallet commits the debit of its whole balance and the payout exactly when the wallet, locked, holds the
   * minimum; with less it commits nothing.
   */
  lemma SweepSettlesIffEnough(trace: seq<Label>, pid: nat)
    requires ValidTrace(Start, trace) && pid < |End(Start, trace).procs|
    requires var p := End(Start, trace).procs[pid]; p.phase == Running && p.job.SweepJob? && Next(p.job, p.rs).Commit?
    ensures var sys := End(Start, trace);
            var p := sys.procs[pid];
            var j := p.job;
            && j.wallet < |sys.st.db.wallets|
            && (WalletWasMissing(sys.log, p.began, j.wallet) ||
                if sys.st.db.wallets[j.wallet].balance < j.min then OpOf(j, p.rs) == Skip
                else OpOf(j, p.rs).Sweep? && OpOf(j, p.rs).wallet == j.wallet && OpOf(j, p.rs).account == j.account)
  {
    hide ValidTrace, End, Consistent, Logged, CallsInv, Replay, StageOk, Snapshot, WalletWasMissing, ReadSince;
    TraceKeepsCalls(trace);
    TraceKeepsSnapshots(trace);
    var sys := End(Start, trace);
    var p := sys.procs[pid];
    assert ProcOk(p, sys.st, sys.supply) && ReadsAreSnapshots(p, sys.log);
    assert p.rs[..|p.rs|] == p.rs;
    SweepStages(p.job, p.rs, p.locks, sys.st, |p.rs|);
    assert p.rs[..0] == [];
    assert ReadSince(sys.log, p.began, SelectWalletForUpdate(p.job.wallet), p.rs[0]);
    LockedReadMeans(sys.log, p.began, p.job.wallet, p.rs[0]);
  }

  lemma LockedReadMeans(log: seq<Record>, lo: nat, w: Id, r: Reply)
    requires ReadSince(log, lo, SelectWalletForUpdate(w), r)
    ensures WalletIn(r).None? ==> WalletWasMissing(log, lo, w)
  {
    hide Snapshot;
  }

  /**
   * A confirm or a cancel that reaches COMMIT acts on the merchant's own intent, locked and not yet ended, and a confirm
   * credits a wallet of that merchant in the intent's currency.
   */
  lemma OwnersEndTheirIntents(trace: seq<Label>, pid: nat)
    requires ValidTrace(Start, trace) && pid < |End(Start, trace).procs|
    requires var p := End(Start, trace).procs[pid];
             p.phase == Running && (p.job.ConfirmJob? || p.job.CancelJob?) && Next(p.job, p.rs).Commit?
    ensures var sys := End(Start, trace);
            var p := sys.procs[pid];
            var j, op, db := p.job, OpOf(p.job, p.rs), sys.st.db;
            && j.intent < |db.intents| && IntentRow(j.intent) in p.locks
            && db.intents[j.intent].merchant == j.merchant && db.intents[j.intent].status == RequiresConfirmation
            && if j.CancelJob? then op == Cancel(j.merchant, j.intent)
               else
                 && op.Confirm? && op.merchant == j.merchant && op.intent == j.intent && op.wallet < |db.wallets|
                 && db.wallets[op.wallet].merchant == j.merchant
                 && db.wallets[op.wallet].currency == db.intents[j.intent].currency
  {
    hide ValidTrace, End, Consistent, Logged, CallsInv, Replay, StageOk;
    TraceKeepsCalls(trace);
    var sys := End(Start, trace);
    var p := sys.procs[pid];
    assert ProcOk(p, sys.st, sys.supply);
    assert ReplyAt(p.job, p.rs, 0, p.locks, sys.st) && ReplyAt(p.job, p.rs, 1, p.locks, sys.st);
    assert p.rs[..1][0] == p.rs[0];
  }

  /** In some committed state since position `lo` the ledger had an entry on the wallet, or had none. */
  ghost predicate UsedWas(log: seq<Record>, lo: nat, w: Id, used: bool)
  {
    exists n: nat, st | lo <= n && Snapshot(log, n, st) ::
      used <==> exists i :: 0 <= i < |st.db.entries| && st.db.entries[i].wallet == w
  }

  lemma CountMeans(log: seq<Record>, lo: nat, w: Id, r: Reply)
    requires ReadSince(log, lo, CountEntriesOn(w), r)
    ensures UsedWas(log, lo, w, r != RCount(0))
  {
    hide Snapshot, CountOn;
    var n: nat, st :| lo <= n && Snapshot(log, n, st) && r == ReplyTo(CountEntriesOn(w), st, NoWrites, 0);
    assert CountOn(NoWrites.entries, w) == 0;
    assert r != RCount(0) <==> exists i :: 0 <= i < |st.db.entries| && st.db.entries[i].wallet == w;
  }

  /** A deposit funds the wallet if the ledger had no entry on it when it looked, and commits nothing if it had one. */
  lemma DepositFundsIffUnused(trace: seq<Label>, pid: nat)
    requires ValidTrace(Start, trace) && pid < |End(Start, trace).procs|
    requires var p := End(Start, trace).procs[pid]; p.phase == Running && p.job.DepositJob? && Next(p.job, p.rs).Commit?
    ensures var sys := End(Start, trace);
            var p := sys.procs[pid];
            var op := OpOf(p.job, p.rs);
            if op == Skip then UsedWas(sys.log, p.began, p.job.wallet, true)
            else op.Deposit? && op.wallet == p.job.wallet && op.amount == p.job.amount
                 && UsedWas(sys.log, p.began, p.job.wallet, false)
  {
    hide ValidTrace, End, Consistent, Logged, CallsInv, Replay, StageOk, Snapshot, UsedWas, ReadSince;
    TraceKeepsCalls(trace);
    TraceKeepsSnapshots(trace);
    var sys := End(Start, trace);
    var p := sys.procs[pid];
    assert ProcOk(p, sys.st, sys.supply) && ReadsAreSnapshots(p, sys.log);
    assert p.rs[..0] == [];
    assert ReadSince(sys.log, p.began, CountEntriesOn(p.job.wallet), p.rs[0]);
    CountMeans(sys.log, p.began, p.job.wallet, p.rs[0]);
    if 1 < |p.rs| {
      assert ReplyAt(p.job, p.rs, 1, p.locks, sys.st);
      assert p.rs[..1][0] == p.rs[0];
    }
  }

  /**
   * Whatever a confirm, a paid payout or a reversal reports on commit, it reports once to each endpoint that was active
   * for the merchant in a committed state since the call began, and to no other.
   */
  lemma ReportsReachActiveEndpoints(trace: seq<Label>, pid: nat)
    requires ValidTrace(Start, trace) && pid < |End(Start, trace).procs|
    requires var p := End(Start, trace).procs[pid];
             p.phase == Running && (p.job.ConfirmJob? || p.job.PayJob? || p.job.ReverseJob?) && Next(p.job, p.rs).Commit?
    ensures var sys := End(Start, trace);
            var p := sys.procs[pid];
            match p.job
            case ConfirmJob(m, i) =>
              OpOf(p.job, p.rs).Confirm? && OpOf(p.job, p.rs).intent == i
              && WereActive(sys.log, p.began, m, OpOf(p.job, p.rs).endpoints)
            case PayJob(c, _, row) =>
              OpOf(p.job, p.rs).Pay? && OpOf(p.job, p.rs).claim == c
              && WereActive(sys.log, p.began, row.merchant, OpOf(p.job, p.rs).endpoints)
            case ReverseJob(c, _, row) =>
              OpOf(p.job, p.rs).Reverse? && OpOf(p.job, p.rs).claim == c
              && WereActive(sys.log, p.began, row.merchant, OpOf(p.job, p.rs).endpoints)
            case _ => true
  {
    hide ValidTrace, End, Consistent, Logged, CallsInv, Replay, StageOk, Snapshot, WereActive, ReadSince;
    TraceKeepsCalls(trace);
    TraceKeepsSnapshots(trace);
    var sys := End(Start, trace);
    var p := sys.procs[pid];
    assert ProcOk(p, sys.st, sys.supply) && ReadsAreSnapshots(p, sys.log);
    match p.job
    case ConfirmJob(m, i) =>
      assert ReplyAt(p.job, p.rs, 0, p.locks, sys.st) && ReplyAt(p.job, p.rs, 1, p.locks, sys.st);
      assert ReadSince(sys.log, p.began, SelectActiveEndpoints(m), p.rs[7]);
      EndpointReadMeans(sys.log, p.began, m, p.rs[7]);
    case PayJob(_, _, row) =>
      assert ReadSince(sys.log, p.began, SelectActiveEndpoints(row.merchant), p.rs[1]);
      EndpointReadMeans(sys.log, p.began, row.merchant, p.rs[1]);
    case ReverseJob(_, _, row) =>
      assert ReadSince(sys.log, p.began, SelectActiveEndpoints(row.merchant), p.rs[5]);
      EndpointReadMeans(sys.log, p.began, row.merchant, p.rs[5]);
    case _ =>
  }
}
