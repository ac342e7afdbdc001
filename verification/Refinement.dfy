/**
 * Interleaved sessions refine atomic operations: in every run, every commit changes the committed tables exactly as
 * one atomic operation does, with that operation's guard true at the commit point.
 */
module Refinement {
  import opened Options
  import opened Ledger
  import opened Books
  import opened Records
  import opened PayoutQueue
  import opened Invariants
  import opened Sessions
  import opened Coherence
  import opened Jobs

  ghost function Ops(log: seq<Record>): seq<Op>
  {
    seq(|log|, i requires 0 <= i < |log| => log[i].op)
  }

  ghost predicate ProcOk(p: Proc, st: State, supply: Id)
  {
    && (p.phase == Running ==> Coherent(p, st))
    && (p.phase != Running ==> p.locks == {} && p.stage == NoWrites)
    && (forall t | t in p.stage.txns :: t < supply && t !in st.db.txns)
  }

  /** Two sessions hold no lock and use no fresh id in common. */
  ghost predicate Apart(p: Proc, q: Proc)
  {
    p.locks !! q.locks && p.stage.txns.Keys !! q.stage.txns.Keys
  }

  /** The committed state is what the log's operations, one after the other, make of the empty database. */
  ghost predicate Logged(sys: Sys)
  {
    ValidRun(Initial, Ops(sys.log)) && After(Initial, Ops(sys.log)) == sys.st
  }

  ghost predicate ProcsOk(sys: Sys)
  {
    && (forall i | 0 <= i < |sys.procs| :: ProcOk(sys.procs[i], sys.st, sys.supply))
    && (forall i, j | 0 <= i < |sys.procs| && 0 <= j < |sys.procs| && i != j :: Apart(sys.procs[i], sys.procs[j]))
    && (forall t | t in sys.st.db.txns :: t < sys.supply)
  }

  ghost predicate SysInv(sys: Sys)
  {
    Consistent(sys.st) && Logged(sys) && ProcsOk(sys)
  }

  // ---- One commit is one operation ----

  lemma CommitIsAtomic(p: Proc, st: State)
    requires Coherent(p, st) && Next(p.job, p.rs).Commit? && FreshTxns(p.stage, st.db) && PayoutsOk(st.db)
    requires ClaimOf(p.job).Some? ==> Live(st, ClaimOf(p.job).value)
    ensures Guard(OpOf(p.job, p.rs), st) && Committed(st, p) == Apply(OpOf(p.job, p.rs), st)
  {
    hide Replay, RepliesOk, StageOk, PayoutsOk, FreshTxns, Guard, Publish;
    match p.job
    case TransferJob(_, _, _, _, _) => TransferCommits(p.job, p.rs, p.locks, st);
    case DepositJob(_, _, _) => DepositCommits(p.job, p.rs, p.locks, st);
    case ConfirmJob(_, _) => ConfirmCommits(p.job, p.rs, p.locks, st);
    case CancelJob(_, _) => CancelCommits(p.job, p.rs, p.locks, st);
    case SweepJob(_, _, _) => SweepCommits(p.job, p.rs, p.locks, st);
    case PayJob(_, _, _) => PayCommits(p.job, p.rs, p.locks, st);
    case ReverseJob(_, _, row) =>
      TermsFollowWallet(st.db, p.job.payout, row);
      ReverseCommits(p.job, p.rs, p.locks, st);
  }

  lemma TermsFollowWallet(db: Db, p: Id, row: Payout)
    requires PayoutsOk(db) && p < |db.payouts| && SameTerms(row, db.payouts[p])
    ensures row.wallet < |db.wallets| && db.wallets[row.wallet].currency == row.currency
  {
    hide PayoutTxnsOwned, PayoutsDistinct, EntriesOf;
    assert PayoutOk(db, db.payouts[p]);
  }

  // ---- Other sessions across a committed operation ----

  lemma OperationLeavesUnlocked(op: Op, st: State, locks: set<Row>)
    requires ClaimsOk(st) && Guard(op, st)
    requires forall w | 0 <= w < |st.db.wallets| && WalletRow(w) in locks :: Apply(op, st).db.wallets[w] == st.db.wallets[w]
    requires forall i | 0 <= i < |st.db.intents| && IntentRow(i) in locks :: Apply(op, st).db.intents[i] == st.db.intents[i]
    requires forall p | 0 <= p < |st.db.payouts| && PayoutRow(p) in locks :: Apply(op, st).db.payouts[p] == st.db.payouts[p]
    ensures Undisturbed(locks, st, Apply(op, st))
  {
    hide Remembers, ClaimsOk;
    StepRemembers(op, st);
    forall c | c in Apply(op, st).claims && c < st.nextClaim
      ensures c in st.claims && Apply(op, st).claims[c] == st.claims[c]
    {
    }
  }

  lemma CommitLeavesOthers(p: Proc, q: Proc, st: State)
    requires Coherent(p, st) && Next(p.job, p.rs).Commit? && FreshTxns(p.stage, st.db) && Consistent(st)
    requires ClaimOf(p.job).Some? ==> Live(st, ClaimOf(p.job).value)
    requires p.locks !! q.locks
    ensures Undisturbed(q.locks, st, Committed(st, p))
  {
    hide Replay, RepliesOk, Guard, Apply, Next, OpOf, Undisturbed, Consistent;
    BooksAndRecords(st);
    CommitIsAtomic(p, st);
    var db' := Publish(st.db, p.stage);
    forall w | 0 <= w < |st.db.wallets| && WalletRow(w) in q.locks
      ensures db'.wallets[w] == st.db.wallets[w]
    {
      assert w !in p.stage.wallets;
    }
    forall i | 0 <= i < |st.db.intents| && IntentRow(i) in q.locks
      ensures db'.intents[i] == st.db.intents[i]
    {
      assert i !in p.stage.intents;
    }
    forall n | 0 <= n < |st.db.payouts| && PayoutRow(n) in q.locks
      ensures db'.payouts[n] == st.db.payouts[n]
    {
      assert n !in p.stage.payouts;
    }
    OperationLeavesUnlocked(OpOf(p.job, p.rs), st, q.locks);
  }

  lemma BooksAndRecords(st: State)
    requires Consistent(st)
    ensures ClaimsOk(st) && PayoutsOk(st.db) && EntriesOk(st.db)
  {
  }

  lemma AutoLeavesOthers(op: Op, st: State, locks: set<Row>)
    requires Autocommitted(op) && Guard(op, st) && ClaimsOk(st) && RowsWritten(op, st) * locks == {}
    ensures Undisturbed(locks, st, Apply(op, st))
  {
    hide ClaimsOk, Undisturbed;
    assert forall r | r in RowsWritten(op, st) :: r !in locks;
    if op.Lease? {
      assert PayoutRow(op.payout) !in locks;
    } else if op.Retry? {
      assert PayoutRow(st.claims[op.claim].payout) !in locks;
    }
    OperationLeavesUnlocked(op, st, locks);
  }

  lemma ProcAcrossOperation(p: Proc, op: Op, st: State, supply: Id)
    requires ProcOk(p, st, supply) && Guard(op, st) && EntriesOk(st.db)
    requires Undisturbed(p.locks, st, Apply(op, st))
    requires p.stage.txns.Keys !! TxnOf(op)
    ensures ProcOk(p, Apply(op, st), supply)
  {
    hide Coherent, Undisturbed, Guard, Apply, EntriesOk, EntriesOf, KeepsOwners;
    if p.phase == Running {
      CoherenceIsStable(p, st, Apply(op, st));
    }
    StepGrows(op, st);
  }

  // ---- Preservation ----

  lemma SpawnKeeps(sys: Sys, j: Job)
    requires SysInv(sys) && Enabled(sys, Spawn(j))
    ensures SysInv(Step(sys, Spawn(j)))
  {
    hide Consistent, Logged, Coherent;
    var sys' := Step(sys, Spawn(j));
    var p := sys'.procs[|sys.procs|];
    FreshProcIsCoherent(p, sys.st);
    assert Logged(sys') by { LoggedSame(sys, sys'); }
  }

  lemma LoggedSame(sys: Sys, sys': Sys)
    requires Logged(sys) && sys'.st == sys.st && sys'.log == sys.log
    ensures Logged(sys')
  {
  }

  lemma FreshProcIsCoherent(p: Proc, st: State)
    requires p.rs == [] && p.stage == NoWrites && JobOk(p.job, st)
    ensures Coherent(p, st)
  {
  }

  /** A step of one session that commits nothing. */
  lemma LocalStepKeeps(sys: Sys, pid: nat, p: Proc, supply: Id)
    requires SysInv(sys) && pid < |sys.procs| && sys.supply <= supply
    requires ProcOk(p, sys.st, supply)
    requires forall q | 0 <= q < |sys.procs| && q != pid :: Apart(p, sys.procs[q])
    ensures SysInv(WithProc(sys, pid, p).(supply := supply))
  {
    hide Consistent, Logged, Coherent;
    var sys' := WithProc(sys, pid, p).(supply := supply);
    LoggedSame(sys, sys');
    forall i | 0 <= i < |sys'.procs|
      ensures ProcOk(sys'.procs[i], sys'.st, supply)
    {
      assert i != pid ==> ProcOk(sys.procs[i], sys.st, sys.supply);
    }
    forall i, j | 0 <= i < |sys'.procs| && 0 <= j < |sys'.procs| && i != j
      ensures Apart(sys'.procs[i], sys'.procs[j])
    {
      assert i != pid && j != pid ==> Apart(sys.procs[i], sys.procs[j]);
      assert j == pid ==> Apart(p, sys.procs[i]);
    }
  }

  lemma EndKeeps(sys: Sys, pid: nat, p: Proc)
    requires SysInv(sys) && pid < |sys.procs| && p.locks == {} && p.stage == NoWrites
    requires p.phase == Running ==> p.rs == [] && JobOk(p.job, sys.st)
    ensures SysInv(WithProc(sys, pid, p))
  {
    hide Consistent, Logged, Coherent, ProcsOk;
    if p.phase == Running {
      FreshProcIsCoherent(p, sys.st);
    }
    LocalStepKeeps(sys, pid, p, sys.supply);
    assert WithProc(sys, pid, p).(supply := sys.supply) == WithProc(sys, pid, p);
  }

  lemma StagedTxns(s: Stmt, st: State, stage: Stage, supply: Id)
    ensures var reply := ReplyTo(s, st, stage, supply);
            var txns' := StageAfter(s, reply, stage, st.db).txns;
            txns'.Keys <= stage.txns.Keys + if reply.RId? then {supply} else {}
  {
  }

  lemma ExecuteKeeps(sys: Sys, pid: nat)
    requires SysInv(sys) && pid < |sys.procs| && sys.procs[pid].phase == Running
    requires var p := sys.procs[pid]; Next(p.job, p.rs).Do? && Free(sys, Locks(Next(p.job, p.rs).stmt, p.stage, sys.st.db), pid)
    ensures SysInv(Execute(sys, pid, Next(sys.procs[pid].job, sys.procs[pid].rs).stmt))
  {
    hide Consistent, Logged, Coherent, Next, ReplyTo, StageAfter, Locks, Violates;
    var p := sys.procs[pid];
    var s := Next(p.job, p.rs).stmt;
    assert ProcOk(p, sys.st, sys.supply);
    if Violates(s, p.stage, sys.st.db) {
      EndKeeps(sys, pid, Ended(p, Thrown(CheckViolation)));
    } else {
      EveryJobProceeds(p, sys.st);
      StatementKeepsCoherence(p, sys.st, sys.supply);
      StagedTxns(s, sys.st, p.stage, sys.supply);
      var p' := Execute(sys, pid, s).procs[pid];
      var supply := Execute(sys, pid, s).supply;
      assert ProcOk(p', sys.st, supply);
      forall q | 0 <= q < |sys.procs| && q != pid
        ensures Apart(p', sys.procs[q])
      {
        assert Apart(p, sys.procs[q]) && ProcOk(sys.procs[q], sys.st, sys.supply);
        var more := Locks(s, p.stage, sys.st.db);
        assert more * sys.procs[q].locks == {};
        assert forall row | row in more :: row !in more * sys.procs[q].locks ==> row !in sys.procs[q].locks;
        assert p'.locks == p.locks + more;
        assert p'.stage.txns.Keys <= p.stage.txns.Keys + {sys.supply};
      }
      LocalStepKeeps(sys, pid, p', supply);
    }
  }

  lemma OpsExtend(log: seq<Record>, r: Record)
    ensures Ops(log + [r]) == Ops(log) + [r.op]
  {
  }

  /** An operation commits and is logged; every session but perhaps `pid` stays as it was. */
  lemma LoggedStep(sys: Sys, r: Record)
    requires Consistent(sys.st) && Logged(sys) && Guard(r.op, sys.st)
    ensures Consistent(Apply(r.op, sys.st)) && Logged(sys.(st := Apply(r.op, sys.st), log := sys.log + [r]))
  {
    hide Consistent, Guard, Apply;
    StepKeepsConsistent(r.op, sys.st);
    OpsExtend(sys.log, r);
    RunExtends(Initial, Ops(sys.log), r.op);
  }

  lemma TxnIsStaged(p: Proc, st: State)
    requires Coherent(p, st) && Next(p.job, p.rs).Commit? && FreshTxns(p.stage, st.db) && Consistent(st)
    requires ClaimOf(p.job).Some? ==> Live(st, ClaimOf(p.job).value)
    ensures TxnOf(OpOf(p.job, p.rs)) <= p.stage.txns.Keys
    ensures Committed(st, p).db.txns.Keys == st.db.txns.Keys + p.stage.txns.Keys
  {
    hide Consistent, Coherent, Next, StageOk, Guard, EntriesOf, EntriesOk, KeepsOwners, GrowsBy, Apply;
    BooksAndRecords(st);
    CommitIsAtomic(p, st);
    OperationPosts(OpOf(p.job, p.rs), st);
  }

  lemma OperationPosts(op: Op, st: State)
    requires Guard(op, st)
    ensures TxnOf(op) <= Apply(op, st).db.txns.Keys - st.db.txns.Keys
  {
  }

  lemma CommitKeeps(sys: Sys, pid: nat)
    requires SysInv(sys) && Enabled(sys, Run(pid)) && Next(sys.procs[pid].job, sys.procs[pid].rs).Commit?
    ensures SysInv(Step(sys, Run(pid)))
    ensures Guard(Step(sys, Run(pid)).log[|sys.log|].op, sys.st)
    ensures Step(sys, Run(pid)).st == Apply(Step(sys, Run(pid)).log[|sys.log|].op, sys.st)
  {
    hide Consistent, Logged, Coherent, Next, Guard, Apply, OpOf, Committed, Undisturbed, TxnOf, Live;
    var p := sys.procs[pid];
    var op := OpOf(p.job, p.rs);
    var r := Record(Some(pid), op);
    assert ProcOk(p, sys.st, sys.supply);
    BooksAndRecords(sys.st);
    CommitIsAtomic(p, sys.st);
    TxnIsStaged(p, sys.st);
    LoggedStep(sys, r);
    var sys' := Step(sys, Run(pid));
    LoggedSame(sys.(st := Apply(op, sys.st), log := sys.log + [r]), sys');
    forall q | 0 <= q < |sys.procs|
      ensures ProcOk(sys'.procs[q], sys'.st, sys.supply)
    {
      if q != pid {
        assert Apart(p, sys.procs[q]) && ProcOk(sys.procs[q], sys.st, sys.supply);
        CommitLeavesOthers(p, sys.procs[q], sys.st);
        ProcAcrossOperation(sys.procs[q], op, sys.st, sys.supply);
      }
    }
    forall i, j | 0 <= i < |sys'.procs| && 0 <= j < |sys'.procs| && i != j
      ensures Apart(sys'.procs[i], sys'.procs[j])
    {
      assert Apart(sys.procs[i], sys.procs[j]);
    }
  }

  lemma AutoKeeps(sys: Sys, op: Op)
    requires SysInv(sys) && Enabled(sys, Auto(op))
    ensures SysInv(Step(sys, Auto(op)))
  {
    hide Consistent, Logged, Coherent, Guard, Apply, Undisturbed;
    BooksAndRecords(sys.st);
    var r := Record(None, op);
    LoggedStep(sys, r);
    var sys' := Step(sys, Auto(op));
    AutoPostsNothing(op, sys.st);
    forall q | 0 <= q < |sys.procs|
      ensures ProcOk(sys'.procs[q], sys'.st, sys.supply)
    {
      assert ProcOk(sys.procs[q], sys.st, sys.supply);
      AutoLeavesOthers(op, sys.st, sys.procs[q].locks);
      ProcAcrossOperation(sys.procs[q], op, sys.st, sys.supply);
    }
    forall i, j | 0 <= i < |sys'.procs| && 0 <= j < |sys'.procs| && i != j
      ensures Apart(sys'.procs[i], sys'.procs[j])
    {
      assert Apart(sys.procs[i], sys.procs[j]);
    }
  }

  lemma AutoPostsNothing(op: Op, st: State)
    requires Autocommitted(op) && Guard(op, st)
    ensures TxnOf(op) == {} && Apply(op, st).db.txns == st.db.txns
  {
  }

  lemma StepKeepsSysInv(sys: Sys, l: Label)
    requires SysInv(sys) && Enabled(sys, l)
    ensures SysInv(Step(sys, l))
  {
    hide Consistent, Logged, Coherent, Next, Guard, Apply;
    match l
    case Spawn(j) => SpawnKeeps(sys, j);
    case Kill(pid) => EndKeeps(sys, pid, Ended(sys.procs[pid], Thrown(Aborted)));
    case Auto(op) => AutoKeeps(sys, op);
    case Run(pid) =>
      var p := sys.procs[pid];
      match Next(p.job, p.rs)
      case Do(s) => ExecuteKeeps(sys, pid);
      case Commit => CommitKeeps(sys, pid);
      case Throw(e) =>
        assert ProcOk(p, sys.st, sys.supply);
        JobIsOk(p, sys.st);
        EndKeeps(sys, pid, RolledBack(sys, pid, e).procs[pid]);
  }

  lemma JobIsOk(p: Proc, st: State)
    requires Coherent(p, st)
    ensures JobOk(p.job, st)
  {
  }

  // ---- Runs ----

  ghost predicate ValidTrace(sys: Sys, trace: seq<Label>)
    decreases |trace|, 0
  {
    trace == [] || (ValidTrace(sys, trace[..|trace| - 1]) && Enabled(End(sys, trace[..|trace| - 1]), trace[|trace| - 1]))
  }

  ghost function End(sys: Sys, trace: seq<Label>): Sys
    requires ValidTrace(sys, trace)
    decreases |trace|, 1
  {
    if trace == [] then sys else Step(End(sys, trace[..|trace| - 1]), trace[|trace| - 1])
  }

  lemma {:induction false} TraceKeepsSysInv(trace: seq<Label>)
    requires ValidTrace(Start, trace)
    ensures SysInv(End(Start, trace))
    decreases |trace|
  {
    hide Enabled, Step, SysInv;
    if trace == [] {
      StartIsOk();
    } else {
      TraceKeepsSysInv(trace[..|trace| - 1]);
      StepKeepsSysInv(End(Start, trace[..|trace| - 1]), trace[|trace| - 1]);
    }
  }

  lemma StartIsOk()
    ensures SysInv(Start)
  {
    InitialIsConsistent();
  }

  /**
   * Refinement. In every interleaving of sessions, autocommitted statements, aborts and retries, the committed tables
   * are what the committed operations make of them one after the other, each with its guard true at its turn.
   */
  lemma SessionsRefineOperations(trace: seq<Label>)
    requires ValidTrace(Start, trace)
    ensures var sys := End(Start, trace);
            && ValidRun(Initial, Ops(sys.log))
            && After(Initial, Ops(sys.log)) == sys.st
            && Consistent(sys.st)
  {
    hide Consistent, ProcsOk, ValidTrace, End;
    TraceKeepsSysInv(trace);
  }

  /** A step commits nothing, or one operation whose guard holds of the committed state it finds. */
  lemma EveryStepIsAtomic(sys: Sys, l: Label)
    requires SysInv(sys) && Enabled(sys, l)
    ensures var sys' := Step(sys, l);
            if sys'.log == sys.log then sys'.st == sys.st
            else
              && |sys'.log| == |sys.log| + 1 && sys'.log[..|sys.log|] == sys.log
              && Guard(sys'.log[|sys.log|].op, sys.st) && sys'.st == Apply(sys'.log[|sys.log|].op, sys.st)
  {
    hide Consistent, Logged, ProcsOk, Coherent, Guard, Apply, OpOf, Committed;
    if l.Run? && Next(sys.procs[l.pid].job, sys.procs[l.pid].rs).Commit? {
      CommitKeeps(sys, l.pid);
    }
  }
}
