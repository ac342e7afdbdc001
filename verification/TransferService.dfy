/** The transfer service: optimistic transactions with a bounded retry loop, statement by statement as written. */
module TransferService {
  import opened Options
  import opened Ledger
  import opened Sessions
  import opened Refinement
  import opened Calls
  import opened Clients

  datatype TransferResult = TransferResult(transaction: Id, from: Id, to: Id, amount: int, currency: Id)

  /** The call was broken off: the connection died at one of the statements, or it gave up waiting for a lock. */
  ghost predicate BrokenOff(client: Client, outages: seq<bool>)
    requires client.Valid()
    reads client
  {
    true in outages || GaveUpWaiting(client.trace, client.pid)
  }

  // ---- walletRepository and ledgerRepository, on a transaction's client ----

  method FindById(client: Client, id: Id) returns (r: Result<Option<Wallet>, Error>)
    requires client.Valid() && client.Running()
    requires Next(client.Session().job, client.Session().rs) == Do(SelectWallet(id))
    modifies client
    ensures client.Valid() && old(client.trace) <= client.trace && client.Session().job == old(client.Session().job)
    ensures r.Success? ==>
              && client.Running() && SameAttempt(client.Session(), old(client.Session()))
              && |client.Session().rs| == |old(client.Session().rs)| + 1
              && client.Session().rs[..|old(client.Session().rs)|] == old(client.Session().rs)
              && r.value == WalletIn(client.Session().rs[|old(client.Session().rs)|])
    ensures r.Failure? ==> r.error != ConcurrencyConflict && client.Session().phase == Thrown(r.error)
    ensures true in client.outages ==> true in old(client.outages)
    ensures r == Failure(Aborted) ==> BrokenOff(client, old(client.outages))
  {
    var reply := client.Query(SelectWallet(id));
    match reply
    case Failure(e) => r := Failure(e);
    case Success(x) => r := Success(WalletIn(x));
  }

  method ApplyDeltaIfVersion(client: Client, id: Id, delta: int, expected: nat) returns (r: Result<bool, Error>)
    requires client.Valid() && client.Running()
    requires Next(client.Session().job, client.Session().rs) == Do(UpdateBalanceIfVersion(id, delta, expected))
    modifies client
    ensures client.Valid() && old(client.trace) <= client.trace && client.Session().job == old(client.Session().job)
    ensures r.Success? ==>
              && client.Running() && SameAttempt(client.Session(), old(client.Session()))
              && |client.Session().rs| == |old(client.Session().rs)| + 1
              && client.Session().rs[..|old(client.Session().rs)|] == old(client.Session().rs)
              && (r.value <==> client.Session().rs[|old(client.Session().rs)|] == RCount(1))
    ensures r.Failure? ==> r.error != ConcurrencyConflict && client.Session().phase == Thrown(r.error)
    ensures true in client.outages ==> true in old(client.outages)
    ensures r == Failure(Aborted) ==> BrokenOff(client, old(client.outages))
  {
    var reply := client.Query(UpdateBalanceIfVersion(id, delta, expected));
    match reply
    case Failure(e) => r := Failure(e);
    case Success(x) => r := Success(x == RCount(1));
  }

  /** The staged writes with one more transfer: its row, a debit of the source and an equal credit of the destination. */
  function Recorded(stage: Stage, j: Job, from: Wallet, to: Wallet, txn: Id): Stage
    requires j.TransferJob?
  {
    var debit := Entry(txn, j.from, Debit, j.printed, from.currency);
    var credit := Entry(txn, j.to, Credit, j.printed, to.currency);
    stage.(txns := stage.txns[txn := TransferTxn], entries := stage.entries + [debit, credit])
  }

  /** addEntry: the row is staged; the schema refuses an amount that is not positive or does not fit. */
  method AddEntry(client: Client, e: Entry) returns (r: Result<(), Error>)
    requires client.Valid() && client.Running()
    requires Next(client.Session().job, client.Session().rs) == Do(InsertEntry(e))
    modifies client
    ensures client.Valid() && old(client.trace) <= client.trace && client.Session().job == old(client.Session().job)
    ensures r.Success? ==>
              && client.Running() && SameAttempt(client.Session(), old(client.Session()))
              && |client.Session().rs| == |old(client.Session().rs)| + 1
              && client.Session().rs[..|old(client.Session().rs)|] == old(client.Session().rs)
              && client.Session().stage == old(client.Session().stage).(entries := old(client.Session().stage).entries + [e])
    ensures r.Failure? ==> (r.error == Aborted || r.error == CheckViolation) && client.Session().phase == Thrown(r.error)
    ensures r == Failure(CheckViolation) ==> e.amount <= 0 || 0x7FFF_FFFF_FFFF_FFFF < e.amount
    ensures true in client.outages ==> true in old(client.outages)
    ensures r == Failure(Aborted) ==> BrokenOff(client, old(client.outages))
  {
    hide ValidTrace, End, GaveUpWaiting, DiesNext, Later, Next;
    var reply := client.Query(InsertEntry(e));
    match reply
    case Failure(error) => r := Failure(error);
    case Success(_) => r := Success(());
  }

  /** recordLedger: the transaction row, then the debit, then the credit. */
  method RecordLedger(client: Client, from: Wallet, to: Wallet) returns (r: Result<Id, Error>)
    requires client.Valid() && client.Running() && client.Session().job.TransferJob? && |client.Session().rs| == 2
    requires var p := client.Session();
             Validate(WalletIn(p.rs[0]), WalletIn(p.rs[1]), p.job.caller, p.job.amount) == Success((from, to))
    modifies client
    ensures client.Valid() && old(client.trace) <= client.trace && client.Session().job == old(client.Session().job)
    ensures r.Success? ==>
              && client.Running() && SameAttempt(client.Session(), old(client.Session()))
              && |client.Session().rs| == 5 && client.Session().rs[..2] == old(client.Session().rs)
              && r.value == IdIn(client.Session().rs[2])
              && client.Session().stage == Recorded(old(client.Session().stage), client.Session().job, from, to, r.value)
    ensures r.Failure? ==> (r.error == Aborted || r.error == CheckViolation) && client.Session().phase == Thrown(r.error)
    ensures r == Failure(CheckViolation) ==>
              client.Session().job.printed <= 0 || 0x7FFF_FFFF_FFFF_FFFF < client.Session().job.printed
    ensures true in client.outages ==> true in old(client.outages)
    ensures r == Failure(Aborted) ==> BrokenOff(client, old(client.outages))
  {
    hide ValidTrace, End, GaveUpWaiting, DiesNext, Later;
    hide NextDeposit, NextConfirm, NextCancel, NextSweep, NextPay, NextReverse;
    var j := client.Session().job;
    ghost var seen := client.Session().rs;
    var created := client.Query(InsertTxn(TransferTxn));
    if created.Failure? {
      return Failure(created.error);
    }
    var txn := IdIn(created.value);
    ghost var made := client.Session().rs;
    var debit := AddEntry(client, Entry(txn, j.from, Debit, j.printed, from.currency));
    if debit.Failure? {
      return Failure(debit.error);
    }
    ghost var debited := client.Session().rs;
    assert debited[..3] == made && debited[0] == made[0] && debited[1] == made[1] && debited[2] == made[2];
    var credit := AddEntry(client, Entry(txn, j.to, Credit, j.printed, to.currency));
    if credit.Failure? {
      return Failure(credit.error);
    }
    assert client.Session().rs[..4] == debited;
    assert client.Session().rs[..2] == seen && client.Session().rs[2] == debited[2];
    r := Success(txn);
  }

  /** The two conditional updates, and what withTransaction does with their outcome. */
  method MoveBalances(client: Client, from: Wallet, to: Wallet) returns (r: Result<(), Error>)
    requires client.Valid() && client.Running() && client.Session().job.TransferJob? && |client.Session().rs| == 5
    requires var p := client.Session();
             Validate(WalletIn(p.rs[0]), WalletIn(p.rs[1]), p.job.caller, p.job.amount) == Success((from, to))
    modifies client
    ensures client.Valid() && old(client.trace) <= client.trace && client.Session().job == old(client.Session().job)
    ensures r.Success? ==>
              && client.Session().phase.Done? && |client.Session().rs| == 7
              && client.Session().rs[..5] == old(client.Session().rs)
    ensures r.Failure? ==>
              if r.error == ConcurrencyConflict && old(client.Session().attempt) < 5
              then client.Running() && client.Session().rs == [] && client.Session().attempt == old(client.Session().attempt) + 1
              else client.Session().phase == Thrown(r.error)
    ensures true in client.outages ==> true in old(client.outages)
    ensures r == Failure(Aborted) ==> BrokenOff(client, old(client.outages))
  {
    hide ValidTrace, End, GaveUpWaiting, BreaksCheck, DiesNext, Later, Recorded, StageAfter;
    hide NextDeposit, NextConfirm, NextCancel, NextSweep, NextPay, NextReverse;
    var j := client.Session().job;
    ghost var recorded := client.Session().rs;
    var okFrom := ApplyDeltaIfVersion(client, j.from, -j.amount, from.version);
    if okFrom.Failure? {
      return Failure(okFrom.error);
    }
    ghost var debited := client.Session().rs;
    assert debited[..5] == recorded;
    assert debited[0] == recorded[0] && debited[1] == recorded[1];
    var okTo := ApplyDeltaIfVersion(client, j.to, j.amount, to.version);
    if okTo.Failure? {
      return Failure(okTo.error);
    }
    assert client.Session().rs[..6] == debited;
    assert client.Session().rs[5] == debited[5] && client.Session().rs[0] == debited[0] && client.Session().rs[1] == debited[1];
    assert client.Session().rs[..5] == recorded;
    if !okFrom.value || !okTo.value {
      var thrown := client.Rollback(ConcurrencyConflict);
      return Failure(thrown);
    }
    var committed := client.Commit();
    if committed.Failure? {
      return Failure(committed.error);
    }
    r := Success(());
  }

  /** The attempt's two plain reads. */
  method ReadWallets(client: Client) returns (r: Result<(Option<Wallet>, Option<Wallet>), Error>)
    requires client.Valid() && client.Running() && client.Session().job.TransferJob? && client.Session().rs == []
    modifies client
    ensures client.Valid() && old(client.trace) <= client.trace && client.Session().job == old(client.Session().job)
    ensures r.Success? ==>
              && client.Running() && SameAttempt(client.Session(), old(client.Session())) && |client.Session().rs| == 2
              && r.value == (WalletIn(client.Session().rs[0]), WalletIn(client.Session().rs[1]))
    ensures r.Failure? ==> r.error != ConcurrencyConflict && client.Session().phase == Thrown(r.error)
    ensures true in client.outages ==> true in old(client.outages)
    ensures r == Failure(Aborted) ==> BrokenOff(client, old(client.outages))
  {
    hide ValidTrace, End, GaveUpWaiting, NextDeposit, NextConfirm, NextCancel, NextSweep, NextPay, NextReverse;
    var fromRow := FindById(client, client.Session().job.from);
    if fromRow.Failure? {
      return Failure(fromRow.error);
    }
    var toRow := FindById(client, client.Session().job.to);
    if toRow.Failure? {
      return Failure(toRow.error);
    }
    assert client.Session().rs[..1][0] == client.Session().rs[0];
    r := Success((fromRow.value, toRow.value));
  }

  /** withTransaction around the body of one attempt. */
  method Attempt(client: Client) returns (r: Result<TransferResult, Error>)
    requires client.Valid() && client.Running() && client.Session().job.TransferJob? && client.Session().rs == []
    modifies client
    ensures client.Valid() && old(client.trace) <= client.trace && client.Session().job == old(client.Session().job)
    ensures r.Success? ==>
              && client.Session().phase.Done? && |client.Session().rs| == 7
              && r.value.transaction == IdIn(client.Session().rs[2])
              && r.value.from == client.Session().job.from && r.value.to == client.Session().job.to
              && r.value.amount == client.Session().job.amount
              && client.Session().rs[0].RWallet? && client.Session().rs[0].wallet.Some?
              && r.value.currency == client.Session().rs[0].wallet.value.currency
    ensures r.Failure? ==>
              if r.error == ConcurrencyConflict && old(client.Session().attempt) < 5
              then client.Running() && client.Session().rs == [] && client.Session().attempt == old(client.Session().attempt) + 1
              else client.Session().phase == Thrown(r.error)
    ensures true in client.outages ==> true in old(client.outages)
    ensures r == Failure(Aborted) ==> BrokenOff(client, old(client.outages))
  {
    hide ValidTrace, End, GaveUpWaiting, DiesNext, Later, Recorded;
    hide NextDeposit, NextConfirm, NextCancel, NextSweep, NextPay, NextReverse;
    var j := client.Session().job;
    var rows := ReadWallets(client);
    if rows.Failure? {
      return Failure(rows.error);
    }
    var validated := Validate(rows.value.0, rows.value.1, j.caller, j.amount);
    if validated.Failure? {
      var thrown := client.Rollback(validated.error);
      return Failure(thrown);
    }
    var (from, to) := validated.value;
    ghost var seen := client.Session().rs;
    var recorded := RecordLedger(client, from, to);
    if recorded.Failure? {
      return Failure(recorded.error);
    }
    ghost var written := client.Session().rs;
    assert written[0] == seen[0] && written[1] == seen[1] by {
      assert written[..2] == seen;
    }
    var moved := MoveBalances(client, from, to);
    if moved.Failure? {
      return Failure(moved.error);
    }
    assert client.Session().rs[0] == written[0] && client.Session().rs[2] == written[2] by {
      assert client.Session().rs[..5] == written;
    }
    r := Success(TransferResult(recorded.value, j.from, j.to, j.amount, from.currency));
  }

  /**
   * transferService.transfer against any environment: it returns a result exactly when one attempt's writes committed,
   * and that is the only operation the call ever commits; it throws exactly when none did; and it gives up with a
   * conflict only after five other transfers on its wallets went through. The throw after the loop is dead.
   */
  method Transfer(before: Sys, ghost history: seq<Label>, tape: seq<seq<Label>>, outages: seq<bool>,
                  caller: Id, from: Id, to: Id, amount: int, printed: int)
    returns (r: Result<TransferResult, Error>, client: Client)
    requires ValidTrace(Start, history) && End(Start, history) == before
    requires from != to && 0 < amount
    ensures fresh(client) && client.Valid() && history <= client.trace
    ensures client.Session().job == TransferJob(caller, from, to, amount, printed)
    ensures match r
            case Success(t) =>
              && client.Session().phase.Done?
              && client.Session().phase.at < |client.sys.log|
              && client.sys.log[client.Session().phase.at] == Record(Some(client.pid), Op.Transfer(caller, from, to, amount, printed, t.transaction))
              && (forall i | 0 <= i < |client.sys.log| && client.sys.log[i].pid == Some(client.pid) :: i == client.Session().phase.at)
              && t.from == from && t.to == to && t.amount == amount
              && 0 < |client.Session().rs| && client.Session().rs[0].RWallet? && client.Session().rs[0].wallet.Some?
              && t.currency == client.Session().rs[0].wallet.value.currency
            case Failure(e) =>
              && client.Session().phase == Thrown(e)
              && (forall i | 0 <= i < |client.sys.log| :: client.sys.log[i].pid != Some(client.pid))
    ensures r == Failure(ConcurrencyConflict) ==>
              5 <= |Winners(client.sys.log, client.Session().born, |client.sys.log|, from, to)|
    ensures r == Failure(Aborted) ==> BrokenOff(client, outages)
  {
    hide ValidTrace, End, GaveUpWaiting, BreaksCheck, DiesNext, Later, Next, Winners;
    client := new Client(before, history, tape, outages, TransferJob(caller, from, to, amount, printed));
    var attempt := 1;
    while attempt <= MAX_RETRIES
      invariant client.Valid() && fresh(client) && history <= client.trace
      invariant client.Session().job == TransferJob(caller, from, to, amount, printed)
      invariant client.Running() && client.Session().rs == [] && client.Session().attempt == attempt
      invariant 1 <= attempt <= MAX_RETRIES
      invariant true in client.outages ==> true in outages
      decreases MAX_RETRIES - attempt
    {
      r := Attempt(client);
      if r.Failure? && r.error == ConcurrencyConflict && attempt < MAX_RETRIES {
        attempt := attempt + 1;
      } else {
        CallsAreAllOrNothing(client.trace, client.pid);
        if r == Failure(ConcurrencyConflict) {
          ConflictsArePaidFor(client.trace, client.pid);
        }
        return;
      }
    }
    assert false;
  }
}
