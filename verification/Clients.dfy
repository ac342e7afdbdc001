/**
 * One connection's view of the running system. A client holds its session inside a transaction; before each of its
 * statements the rest of the world does whatever its tape says, so a method proved here is proved against every
 * environment. Waiting for a lock that the rest of the world never gives up ends in an abort.
 */
module Clients {
  import opened Options
  import opened Ledger
  import opened Sessions
  import opened Refinement

  predicate Concerns(l: Label, pid: nat)
    ensures Concerns(l, pid) <==> l in [Run(pid), Kill(pid)]
  {
    (l.Run? || l.Kill?) && l.pid == pid
  }

  lemma TraceExtends(trace: seq<Label>, l: Label)
    requires ValidTrace(Start, trace) && Enabled(End(Start, trace), l)
    ensures ValidTrace(Start, trace + [l]) && End(Start, trace + [l]) == Step(End(Start, trace), l)
  {
    hide Enabled, Step;
    assert (trace + [l])[..|trace|] == trace;
  }

  lemma OthersLeaveSession(sys: Sys, l: Label, pid: nat)
    requires Enabled(sys, l) && pid < |sys.procs| && !Concerns(l, pid)
    ensures pid < |Step(sys, l).procs| && Step(sys, l).procs[pid] == sys.procs[pid]
  {
    hide Guard, Apply, Next, JobOk;
  }

  /** The statement needs the row to itself. */
  predicate Wants(s: Stmt, row: Row)
  {
    || ((s.SelectWalletForUpdate? || s.UpdateBalance? || s.UpdateBalanceIfVersion?) && row == WalletRow(s.wallet))
    || ((s.SelectIntentForUpdate? || s.UpdateIntentStatus?) && row == IntentRow(s.intent))
    || ((s.UpdatePayoutPaid? || s.UpdatePayoutFailed?) && row == PayoutRow(s.payout))
  }

  predicate DiesNext(outages: seq<bool>)
    ensures DiesNext(outages) ==> true in outages
  {
    outages != [] && outages[0]
  }

  function Later(outages: seq<bool>): (r: seq<bool>)
    ensures true in r ==> true in outages
  {
    if outages == [] then [] else outages[1..]
  }

  /** The run's last step gave up a session whose next statement waited for a row that another session had locked. */
  ghost predicate GaveUpWaiting(trace: seq<Label>, pid: nat)
    requires ValidTrace(Start, trace)
  {
    0 < |trace| && trace[|trace| - 1] == Kill(pid) &&
    var sys := End(Start, trace[..|trace| - 1]);
    && pid < |sys.procs| && Next(sys.procs[pid].job, sys.procs[pid].rs).Do?
    && exists q: nat, row | q < |sys.procs| && q != pid && row in sys.procs[q].locks ::
         Wants(Next(sys.procs[pid].job, sys.procs[pid].rs).stmt, row)
  }

  /** The write is refused by the schema: an entry or payout of no amount, or a balance or amount out of range. */
  predicate BreaksCheck(s: Stmt, stage: Stage, db: Db)
  {
    match s
    case InsertEntry(e) => e.amount <= 0 || 0x7FFF_FFFF_FFFF_FFFF < e.amount
    case InsertPayout(_, _, _, _, amount, _) => amount <= 0
    case UpdateBalance(w, d) => w < |db.wallets| && OutOfRange(Seen(db.wallets, stage.wallets, w).balance + d)
    case UpdateBalanceIfVersion(w, d, _) => w < |db.wallets| && OutOfRange(Seen(db.wallets, stage.wallets, w).balance + d)
    case _ => false
  }

  predicate OutOfRange(balance: int)
  {
    balance < 0 || 0x7FFF_FFFF_FFFF_FFFF < balance
  }

  lemma WaitsForSomeone(sys: Sys, pid: nat)
    requires pid < |sys.procs| && !CanProceed(sys, pid) && Next(sys.procs[pid].job, sys.procs[pid].rs).Do?
    ensures exists q: nat, row | q < |sys.procs| && q != pid && row in sys.procs[q].locks ::
              Wants(Next(sys.procs[pid].job, sys.procs[pid].rs).stmt, row)
  {
    hide Next;
    var p := sys.procs[pid];
    var s := Next(p.job, p.rs).stmt;
    var q: nat :| q < |sys.procs| && q != pid && Locks(s, p.stage, sys.st.db) * sys.procs[q].locks != {};
    var row :| row in Locks(s, p.stage, sys.st.db) * sys.procs[q].locks;
    assert Wants(s, row);
  }

  lemma KilledWhileWaiting(trace: seq<Label>, pid: nat)
    requires ValidTrace(Start, trace) && pid < |End(Start, trace).procs| && End(Start, trace).procs[pid].phase == Phase.Running
    requires var sys := End(Start, trace); !CanProceed(sys, pid) && Next(sys.procs[pid].job, sys.procs[pid].rs).Do?
    ensures ValidTrace(Start, trace + [Kill(pid)]) && GaveUpWaiting(trace + [Kill(pid)], pid)
  {
    hide Next, Step, CanProceed, Wants;
    TraceExtends(trace, Kill(pid));
    WaitsForSomeone(End(Start, trace), pid);
    assert (trace + [Kill(pid)])[..|trace|] == trace;
  }

  class Client {
    var sys: Sys
    const pid: nat
    /** What the rest of the world does before each of this session's statements. */
    var tape: seq<seq<Label>>
    /** Whether the connection dies, or the server refuses to go on, at each of the coming statements. */
    var outages: seq<bool>
    ghost var trace: seq<Label>

    ghost predicate Valid()
      reads this
    {
      ValidTrace(Start, trace) && End(Start, trace) == sys && pid < |sys.procs|
    }

    ghost predicate Running()
      requires Valid()
      reads this
    {
      sys.procs[pid].phase == Phase.Running
    }

    function Session(): Proc
      requires pid < |sys.procs|
      reads this
    {
      sys.procs[pid]
    }

    constructor (before: Sys, ghost history: seq<Label>, tape: seq<seq<Label>>, outages: seq<bool>, job: Job)
      requires ValidTrace(Start, history) && End(Start, history) == before && JobOk(job, before.st)
      ensures Valid() && trace == history + [Spawn(job)] && this.outages == outages
      ensures pid == |before.procs|
      ensures Session() == Proc(job, 1, Phase.Running, [], NoWrites, {}, |before.log|, |before.log|)
    {
      sys := Step(before, Spawn(job));
      pid := |before.procs|;
      this.tape := tape;
      this.outages := outages;
      trace := history + [Spawn(job)];
      TraceExtends(history, Spawn(job));
    }

    /** One step of the system. */
    method Take(l: Label)
      requires Valid() && Enabled(sys, l)
      modifies `sys, `trace
      ensures Valid() && sys == Step(old(sys), l) && trace == old(trace) + [l]
    {
      hide Enabled, Step;
      TraceExtends(trace, l);
      sys := Step(sys, l);
      trace := trace + [l];
      StepKeepsProcs(old(sys), l);
    }

    /** The rest of the world takes the steps on the tape that it can take. */
    method Interfere()
      requires Valid()
      modifies this
      ensures Valid() && old(trace) <= trace && Session() == old(Session()) && outages == old(outages)
    {
      hide Enabled, Step, ValidTrace, End;
      if tape != [] {
        var labels := tape[0];
        tape := tape[1..];
        for i := 0 to |labels|
          invariant Valid() && old(trace) <= trace && Session() == old(Session()) && outages == old(outages)
        {
          if !Concerns(labels[i], pid) && Enabled(sys, labels[i]) {
            OthersLeaveSession(sys, labels[i], pid);
            Take(labels[i]);
          }
        }
      }
    }

    /** Does the connection die now? */
    method Outage() returns (dies: bool)
      modifies `outages
      ensures dies <==> DiesNext(old(outages))
      ensures outages == Later(old(outages))
    {
      dies := outages != [] && outages[0];
      outages := if outages == [] then [] else outages[1..];
    }

    /** Execute one statement of the transaction. */
    method Query(s: Stmt) returns (r: Result<Reply, Error>)
      requires Valid() && Running() && Next(Session().job, Session().rs) == Do(s)
      modifies this
      ensures Valid() && old(trace) <= trace
      ensures r.Success? ==> Running() && SameAttempt(Session(), old(Session())) && Session().rs == old(Session().rs) + [r.value]
      ensures r.Success? ==> Session().stage == StageAfter(s, r.value, old(Session().stage), sys.st.db)
      ensures r.Failure? ==> Session().phase == Thrown(r.error)
      ensures outages == Later(old(outages)) && (DiesNext(old(outages)) ==> r == Failure(Aborted))
      ensures r.Failure? ==>
                || (r.error == Aborted && (DiesNext(old(outages)) || GaveUpWaiting(trace, pid)))
                || (r.error == CheckViolation && BreaksCheck(s, old(Session().stage), sys.st.db))
      ensures Session().job == old(Session().job)
    {
      hide ValidTrace, End, StageAfter, ReplyTo, Locks, GaveUpWaiting, CanProceed;
      Interfere();
      var dies := Outage();
      if dies {
        Take(Kill(pid));
        r := Failure(Aborted);
      } else if CanProceed(sys, pid) {
        Take(Run(pid));
        if Session().phase == Phase.Running {
          r := Success(Session().rs[|Session().rs| - 1]);
        } else {
          r := Failure(CheckViolation);
        }
      } else {
        KilledWhileWaiting(trace, pid);
        Take(Kill(pid));
        r := Failure(Aborted);
      }
    }

    /** COMMIT; the connection may also be lost instead, and the transaction with it. */
    method Commit() returns (r: Result<(), Error>)
      requires Valid() && Running() && Next(Session().job, Session().rs).Commit? && ClaimOf(Session().job).None?
      modifies this
      ensures Valid() && old(trace) <= trace
      ensures r.Success? ==> Session().phase.Done? && Session().rs == old(Session().rs)
      ensures r.Failure? ==> r.error == Aborted && Session().phase == Thrown(Aborted)
      ensures outages == Later(old(outages)) && (r.Failure? <==> DiesNext(old(outages)))
      ensures Session().job == old(Session().job)
    {
      hide ValidTrace, End;
      Interfere();
      var lost := Outage();
      if lost {
        Take(Kill(pid));
        r := Failure(Aborted);
      } else {
        Take(Run(pid));
        r := Success(());
      }
    }

    /**
     * ROLLBACK because the code threw; if it fails itself, its own error is thrown instead. A conflict that is thrown
     * with attempts left starts the next attempt.
     */
    method Rollback(e: Error) returns (thrown: Error)
      requires Valid() && Running() && Next(Session().job, Session().rs) == Throw(e)
      modifies this
      ensures Valid() && old(trace) <= trace
      ensures outages == Later(old(outages)) && thrown == if DiesNext(old(outages)) then Aborted else e
      ensures if thrown == ConcurrencyConflict && old(Session().attempt) < 5
              then Running() && Session().rs == [] && Session().attempt == old(Session().attempt) + 1
              else Session().phase == Thrown(thrown)
      ensures Session().job == old(Session().job)
    {
      hide ValidTrace, End;
      Interfere();
      var fails := Outage();
      if fails {
        Take(Kill(pid));
        thrown := Aborted;
      } else {
        Take(Run(pid));
        thrown := e;
      }
    }
  }

  predicate SameAttempt(p: Proc, q: Proc)
  {
    p.job == q.job && p.attempt == q.attempt && p.born == q.born && p.began == q.began
  }

  lemma StepKeepsProcs(sys: Sys, l: Label)
    requires Enabled(sys, l)
    ensures |sys.procs| <= |Step(sys, l).procs|
  {
  }
}
