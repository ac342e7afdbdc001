/**
 * Job by job: what has been staged after each statement, that the next statement is in order, and that the commit
 * changes the committed state exactly as one atomic operation does.
 */
module Jobs {
  import opened Options
  import opened Ledger
  import opened Invariants
  import opened Sessions
  import opened Coherence

  /** A session that its own replies and locks justify; every job lemma below starts from here. */
  ghost predicate Justified(j: Job, rs: seq<Reply>, locks: set<Row>, st: State)
  {
    JobOk(j, st) && RepliesOk(j, rs, locks, st)
  }

  ghost predicate Proceeds(j: Job, rs: seq<Reply>, stage: Stage, db: Db)
  {
    Next(j, rs).Do? ==> StmtOk(Next(j, rs).stmt, db) && FirstTouch(Next(j, rs).stmt, stage)
  }

  /** The commit of this session is the atomic operation read off its replies. */
  ghost predicate CommitsAs(j: Job, rs: seq<Reply>, stage: Stage, st: State)
  {
    var op := OpOf(j, rs);
    Guard(op, st) && Apply(op, st).db == Publish(st.db, stage)
  }

  ghost predicate FreshTxns(stage: Stage, db: Db)
  {
    stage.txns.Keys !! db.txns.Keys
  }

  // ---- Transfer ----

  ghost function TransferWallets(j: Job, rs: seq<Reply>, n: nat, db: Db): map<Id, Wallet>
    requires j.TransferJob? && j.from < |db.wallets| && j.to < |db.wallets| && n <= |rs|
  {
    (if 6 <= n && rs[5] == RCount(1) then map[j.from := Bumped(db.wallets[j.from], -j.amount)] else map[])
    + (if 7 <= n && rs[6] == RCount(1) then map[j.to := Bumped(db.wallets[j.to], j.amount)] else map[])
  }

  ghost function TransferStage(j: Job, rs: seq<Reply>, n: nat, db: Db): Stage
    requires j.TransferJob? && n <= |rs| && (2 < n ==> j.from < |db.wallets| && j.to < |db.wallets|)
  {
    if n <= 2 then NoWrites
    else
      var txn := IdIn(rs[2]);
      var d := Entry(txn, j.from, Debit, j.printed, db.wallets[j.from].currency);
      var c := Entry(txn, j.to, Credit, j.printed, db.wallets[j.to].currency);
      NoWrites.(wallets := TransferWallets(j, rs, n, db), txns := map[txn := TransferTxn],
                entries := if n == 3 then [] else if n == 4 then [d] else [d, c])
  }

  ghost predicate TransferReads(j: Job, rs: seq<Reply>, n: nat, st: State)
    requires j.TransferJob? && n <= |rs|
  {
    var db := st.db;
    && (0 < n ==> rs[0].RWallet? && (rs[0].wallet.Some? ==> j.from < |db.wallets| && KeepsWallet(rs[0].wallet.value, db.wallets[j.from])))
    && (1 < n ==> rs[1].RWallet? && (rs[1].wallet.Some? ==> j.to < |db.wallets| && KeepsWallet(rs[1].wallet.value, db.wallets[j.to])))
    && (2 < n ==> n <= 7 && Validate(rs[0].wallet, rs[1].wallet, j.caller, j.amount).Success?)
  }

  lemma {:induction false} TransferStages(j: Job, rs: seq<Reply>, locks: set<Row>, st: State, n: nat)
    requires j.TransferJob? && Justified(j, rs, locks, st) && n <= |rs|
    ensures TransferReads(j, rs, n, st)
    ensures Replay(j, rs[..n], st.db) == TransferStage(j, rs, n, st.db)
  {
    hide Replay;
    if n == 0 {
      assert Replay(j, rs[..0], st.db) == NoWrites by { ReplayNothing(j, st.db); }
    } else {
      TransferStages(j, rs, locks, st, n - 1);
      assert ReplyAt(j, rs, n - 1, locks, st);
      ReplayNext(j, rs, st.db, n - 1);
    }
  }

  lemma ReplayNothing(j: Job, db: Db)
    ensures forall rs | |rs| == 0 :: Replay(j, rs, db) == NoWrites
  {
  }

  lemma TransferProceeds(j: Job, rs: seq<Reply>, locks: set<Row>, st: State)
    requires j.TransferJob? && Justified(j, rs, locks, st)
    ensures Proceeds(j, rs, Replay(j, rs, st.db), st.db)
  {
    hide Replay, RepliesOk;
    assert rs[..|rs|] == rs;
    TransferStages(j, rs, locks, st, |rs|);
  }

  /** At COMMIT the atomic guard holds of the committed rows, although the balance it was validated on may be stale. */
  lemma TransferIsCovered(j: Job, rs: seq<Reply>, locks: set<Row>, st: State)
    requires j.TransferJob? && Justified(j, rs, locks, st) && Next(j, rs).Commit?
    requires var stage := Replay(j, rs, st.db); StageOk(stage, locks, st.db) && FreshTxns(stage, st.db)
    ensures |rs| == 7 && Guard(OpOf(j, rs), st)
    ensures Replay(j, rs, st.db) == TransferStage(j, rs, 7, st.db)
  {
    hide Replay, NextDeposit, NextConfirm, NextCancel, NextSweep, NextPay, NextReverse;
    assert rs[..|rs|] == rs;
    TransferStages(j, rs, locks, st, |rs|);
    var stage := Replay(j, rs, st.db);
    assert stage.wallets[j.from] == Bumped(st.db.wallets[j.from], -j.amount);
    assert stage.wallets[j.to] == Bumped(st.db.wallets[j.to], j.amount);
    assert IdIn(rs[2]) in stage.txns && stage.entries[0].amount == j.printed;
  }

  lemma TransferCommits(j: Job, rs: seq<Reply>, locks: set<Row>, st: State)
    requires j.TransferJob? && Justified(j, rs, locks, st) && Next(j, rs).Commit?
    requires var stage := Replay(j, rs, st.db); StageOk(stage, locks, st.db) && FreshTxns(stage, st.db)
    ensures CommitsAs(j, rs, Replay(j, rs, st.db), st)
  {
    hide Replay, Justified, NextDeposit, NextConfirm, NextCancel, NextSweep, NextPay, NextReverse;
    TransferIsCovered(j, rs, locks, st);
    assert Publish(st.db, TransferStage(j, rs, 7, st.db)).wallets == Apply(OpOf(j, rs), st).db.wallets;
  }

  // ---- Deposit ----

  ghost function DepositStage(j: Job, rs: seq<Reply>, n: nat, db: Db): Stage
    requires j.DepositJob? && n <= |rs| && j.wallet < |db.wallets|
  {
    if n <= 1 then NoWrites
    else
      var e := Entry(IdIn(rs[1]), j.wallet, Credit, j.amount, j.currency);
      NoWrites.(wallets := if n <= 3 then map[] else map[j.wallet := Moved(db.wallets[j.wallet], j.amount)],
                txns := map[IdIn(rs[1]) := DepositTxn],
                entries := if n == 2 then [] else [e])
  }

  lemma {:induction false} DepositStages(j: Job, rs: seq<Reply>, locks: set<Row>, st: State, n: nat)
    requires j.DepositJob? && Justified(j, rs, locks, st) && n <= |rs|
    ensures n <= 4
    ensures Replay(j, rs[..n], st.db) == DepositStage(j, rs, n, st.db)
  {
    hide Replay;
    if n == 0 {
      ReplayNothing(j, st.db);
    } else {
      DepositStages(j, rs, locks, st, n - 1);
      assert ReplyAt(j, rs, n - 1, locks, st);
      ReplayNext(j, rs, st.db, n - 1);
    }
  }

  lemma DepositProceeds(j: Job, rs: seq<Reply>, locks: set<Row>, st: State)
    requires j.DepositJob? && Justified(j, rs, locks, st)
    ensures Proceeds(j, rs, Replay(j, rs, st.db), st.db)
  {
    hide Replay, RepliesOk;
    assert rs[..|rs|] == rs;
    DepositStages(j, rs, locks, st, |rs|);
  }

  lemma DepositIsPostable(j: Job, rs: seq<Reply>, locks: set<Row>, st: State)
    requires j.DepositJob? && Justified(j, rs, locks, st) && Next(j, rs).Commit? && 1 < |rs|
    requires var stage := Replay(j, rs, st.db); StageOk(stage, locks, st.db) && FreshTxns(stage, st.db)
    ensures |rs| == 4 && j.wallet < |st.db.wallets| && Guard(OpOf(j, rs), st)
    ensures st.db.wallets[j.wallet].currency == j.currency
    ensures Replay(j, rs, st.db) == DepositStage(j, rs, 4, st.db)
  {
    hide Replay, NextTransfer, NextConfirm, NextCancel, NextSweep, NextPay, NextReverse;
    assert rs[..|rs|] == rs;
    DepositStages(j, rs, locks, st, |rs|);
    var stage := Replay(j, rs, st.db);
    assert ReplyAt(j, rs, 1, locks, st) && |rs| == 4;
    assert IdIn(rs[1]) in stage.txns && j.wallet in stage.wallets;
    assert stage.entries[0].amount == j.amount;
  }

  lemma DepositCommits(j: Job, rs: seq<Reply>, locks: set<Row>, st: State)
    requires j.DepositJob? && Justified(j, rs, locks, st) && Next(j, rs).Commit?
    requires var stage := Replay(j, rs, st.db); StageOk(stage, locks, st.db) && FreshTxns(stage, st.db)
    ensures CommitsAs(j, rs, Replay(j, rs, st.db), st)
  {
    hide Replay, Justified, StageOk, NextTransfer, NextConfirm, NextCancel, NextSweep, NextPay, NextReverse;
    if |rs| <= 1 {
      DepositStages(j, rs, locks, st, |rs|);
      assert rs[..|rs|] == rs;
      PublishNothing(st.db);
    } else {
      DepositIsPostable(j, rs, locks, st);
      assert Publish(st.db, DepositStage(j, rs, 4, st.db)).wallets == Apply(OpOf(j, rs), st).db.wallets;
    }
  }

  lemma PublishNothing(db: Db)
    ensures Publish(db, NoWrites) == db
  {
    assert Publish(db, NoWrites).wallets == db.wallets;
    assert Publish(db, NoWrites).intents == db.intents;
    assert Publish(db, NoWrites).payouts == db.payouts;
    assert Publish(db, NoWrites).txns == db.txns;
  }

  // ---- Emitting events ----

  lemma FanoutGrows(s: Source, merchant: Id, eps: seq<Id>, k: nat, amount: int, currency: Id)
    requires k < |eps|
    ensures Fanout(s, merchant, eps[..k + 1], amount, currency)
         == Fanout(s, merchant, eps[..k], amount, currency) + [Event(s, merchant, eps[k], amount, currency)]
  {
  }

  // ---- Confirm ----

  ghost function ConfirmStage(j: Job, rs: seq<Reply>, n: nat, db: Db): Stage
    requires j.ConfirmJob? && n <= |rs|
    requires 2 < n ==> j.intent < |db.intents| && WalletIdIn(rs[1]).Some? && WalletIdIn(rs[1]).value < |db.wallets|
    requires 8 < n ==> n - 8 <= |EndpointsIn(rs[7])|
  {
    if n <= 2 then NoWrites
    else
      var i, w, txn := db.intents[j.intent], WalletIdIn(rs[1]).value, IdIn(rs[2]);
      NoWrites.(wallets := if n <= 4 then map[] else map[w := Moved(db.wallets[w], i.amount)],
                intents := if n <= 6 then map[] else map[j.intent := i.(status := Succeeded)],
                txns := map[txn := ChargeTxn],
                entries := if n <= 3 then [] else [Entry(txn, w, Credit, i.amount, i.currency)],
                charges := if n <= 5 then [] else [Charge(IdIn(rs[5]), j.intent, j.merchant, i.amount, i.currency, txn)],
                events := if n <= 8 then []
                          else Fanout(PaymentSucceeded(j.intent, IdIn(rs[5])), j.merchant,
                                      EndpointsIn(rs[7])[..n - 8], i.amount, i.currency))
  }

  ghost predicate ConfirmReads(j: Job, rs: seq<Reply>, n: nat, locks: set<Row>, st: State)
    requires j.ConfirmJob? && n <= |rs|
  {
    && (0 < n ==> rs[0].RIntent? && (rs[0].intent.Some? ==> ReadIntent(j.merchant, j.intent, rs[0].intent.value, locks, st.db)))
    && (1 < n ==>
         && rs[0].intent.Some? && rs[0].intent.value.status == RequiresConfirmation
         && rs[1].RWalletId? && (rs[1].walletId.Some? ==> OwnsWallet(j.merchant, rs[0].intent.value.currency, rs[1].walletId.value, st.db)))
    && (2 < n ==> rs[1].walletId.Some?)
    && (4 < n ==> WalletRow(rs[1].walletId.value) in locks)
    && (7 < n ==> rs[7].REndpoints? && EndpointsOf(st.db, j.merchant, rs[7].endpoints) && n - 8 <= |rs[7].endpoints|)
  }

  ghost predicate ReadIntent(merchant: Id, i: Id, row: Intent, locks: set<Row>, db: Db)
  {
    i < |db.intents| && row == db.intents[i] && row.merchant == merchant && IntentRow(i) in locks
  }

  ghost predicate OwnsWallet(merchant: Id, currency: Id, w: Id, db: Db)
  {
    w < |db.wallets| && db.wallets[w].merchant == merchant && db.wallets[w].currency == currency
  }

  lemma {:induction false} ConfirmReplies(j: Job, rs: seq<Reply>, locks: set<Row>, st: State, n: nat)
    requires j.ConfirmJob? && Justified(j, rs, locks, st) && n <= |rs|
    ensures ConfirmReads(j, rs, n, locks, st)
  {
    if 0 < n {
      ConfirmReplies(j, rs, locks, st, n - 1);
      assert ReplyAt(j, rs, n - 1, locks, st);
    }
  }

  lemma {:induction false} ConfirmStages(j: Job, rs: seq<Reply>, locks: set<Row>, st: State, n: nat)
    requires j.ConfirmJob? && Justified(j, rs, locks, st) && n <= |rs|
    ensures ConfirmReads(j, rs, n, locks, st)
    ensures Replay(j, rs[..n], st.db) == ConfirmStage(j, rs, n, st.db)
  {
    hide Replay, EndpointsOf;
    ConfirmReplies(j, rs, locks, st, n);
    if n == 0 {
      ReplayNothing(j, st.db);
    } else {
      assert ReplyAt(j, rs, n - 1, locks, st);
      ReplayNext(j, rs, st.db, n - 1);
      ConfirmStages(j, rs, locks, st, n - 1);
      if 8 < n {
        var i := st.db.intents[j.intent];
        FanoutGrows(PaymentSucceeded(j.intent, IdIn(rs[5])), j.merchant, EndpointsIn(rs[7]), n - 9, i.amount, i.currency);
      }
    }
  }

  lemma ConfirmProceeds(j: Job, rs: seq<Reply>, locks: set<Row>, st: State)
    requires j.ConfirmJob? && Justified(j, rs, locks, st)
    ensures Proceeds(j, rs, Replay(j, rs, st.db), st.db)
  {
    hide Replay, RepliesOk;
    assert rs[..|rs|] == rs;
    ConfirmStages(j, rs, locks, st, |rs|);
  }

  lemma ConfirmCommits(j: Job, rs: seq<Reply>, locks: set<Row>, st: State)
    requires j.ConfirmJob? && Justified(j, rs, locks, st) && Next(j, rs).Commit?
    requires var stage := Replay(j, rs, st.db); StageOk(stage, locks, st.db) && FreshTxns(stage, st.db)
    ensures CommitsAs(j, rs, Replay(j, rs, st.db), st)
  {
    hide Replay, RepliesOk;
    assert rs[..|rs|] == rs;
    ConfirmStages(j, rs, locks, st, |rs|);
    var stage := Replay(j, rs, st.db);
    var w, eps := WalletIdIn(rs[1]).value, EndpointsIn(rs[7]);
    assert IdIn(rs[2]) in stage.txns && w in stage.wallets && stage.entries[0].amount == st.db.intents[j.intent].amount;
    var op := OpOf(j, rs);
    assert Guard(op, st);
    assert eps[..|rs| - 8] == eps;
    assert Publish(st.db, stage).wallets == Apply(op, st).db.wallets;
    assert Publish(st.db, stage).intents == Apply(op, st).db.intents;
    assert Publish(st.db, stage).payouts == st.db.payouts;
  }

  // ---- Cancel ----

  lemma CancelStages(j: Job, rs: seq<Reply>, locks: set<Row>, st: State)
    requires j.CancelJob? && Justified(j, rs, locks, st)
    ensures |rs| <= 2
    ensures 0 < |rs| ==> rs[0].RIntent? && (rs[0].intent.Some? ==> ReadIntent(j.merchant, j.intent, rs[0].intent.value, locks, st.db))
    ensures 1 < |rs| ==> rs[0].intent.Some? && rs[0].intent.value.status == RequiresConfirmation
    ensures Replay(j, rs, st.db)
         == if |rs| < 2 then NoWrites
            else NoWrites.(intents := map[j.intent := st.db.intents[j.intent].(status := Canceled)])
  {
    hide Replay;
    assert rs[..|rs|] == rs;
    ReplayNothing(j, st.db);
    if 0 < |rs| {
      assert ReplyAt(j, rs, 0, locks, st);
      ReplayNext(j, rs, st.db, 0);
    }
    if 1 < |rs| {
      assert ReplyAt(j, rs, 1, locks, st);
      ReplayNext(j, rs, st.db, 1);
    }
    assert 2 < |rs| ==> ReplyAt(j, rs, 2, locks, st);
  }

  lemma CancelProceeds(j: Job, rs: seq<Reply>, locks: set<Row>, st: State)
    requires j.CancelJob? && Justified(j, rs, locks, st)
    ensures Proceeds(j, rs, Replay(j, rs, st.db), st.db)
  {
    hide Replay, RepliesOk;
    CancelStages(j, rs, locks, st);
  }

  lemma CancelCommits(j: Job, rs: seq<Reply>, locks: set<Row>, st: State)
    requires j.CancelJob? && Justified(j, rs, locks, st) && Next(j, rs).Commit?
    ensures CommitsAs(j, rs, Replay(j, rs, st.db), st)
  {
    hide Replay, RepliesOk;
    CancelStages(j, rs, locks, st);
    var stage := Replay(j, rs, st.db);
    assert Publish(st.db, stage).wallets == st.db.wallets;
    assert Publish(st.db, stage).intents == Apply(Cancel(j.merchant, j.intent), st).db.intents;
    assert Publish(st.db, stage).payouts == st.db.payouts;
  }

  // ---- Sweep ----

  ghost function SweepStage(j: Job, rs: seq<Reply>, n: nat, db: Db): Stage
    requires j.SweepJob? && n <= |rs| && j.wallet < |db.wallets|
  {
    if n <= 1 then NoWrites
    else
      var w, txn := db.wallets[j.wallet], IdIn(rs[1]);
      NoWrites.(wallets := if n <= 3 then map[] else map[j.wallet := Moved(w, -w.balance)],
                txns := map[txn := PayoutTxn],
                entries := if n == 2 then [] else [Entry(txn, j.wallet, Debit, w.balance, w.currency)],
                newPayouts := if n <= 4 then []
                              else [PendingPayout(w.merchant, j.wallet, j.account, w.currency, w.balance, txn, TimeIn(rs[4]))])
  }

  lemma {:induction false} SweepStages(j: Job, rs: seq<Reply>, locks: set<Row>, st: State, n: nat)
    requires j.SweepJob? && Justified(j, rs, locks, st) && n <= |rs|
    ensures n <= 5
    ensures 0 < n ==> (rs[0] == RWallet(Some(st.db.wallets[j.wallet])) || (rs[0] == RWallet(None) && n == 1))
    ensures 1 < n ==> j.min <= st.db.wallets[j.wallet].balance
    ensures 4 < n ==> TimeIn(rs[4]) <= st.now
    ensures Replay(j, rs[..n], st.db) == SweepStage(j, rs, n, st.db)
  {
    hide Replay, NextTransfer, NextDeposit, NextConfirm, NextCancel, NextPay, NextReverse;
    if n == 0 {
      ReplayNothing(j, st.db);
    } else {
      SweepStages(j, rs, locks, st, n - 1);
      assert ReplyAt(j, rs, n - 1, locks, st);
      assert n == 1 ==> rs[0].RWallet? && (rs[0].wallet.Some? ==> rs[0].wallet.value == st.db.wallets[j.wallet]);
      ReplayNext(j, rs, st.db, n - 1);
    }
  }

  lemma SweepProceeds(j: Job, rs: seq<Reply>, locks: set<Row>, st: State)
    requires j.SweepJob? && Justified(j, rs, locks, st)
    ensures Proceeds(j, rs, Replay(j, rs, st.db), st.db)
  {
    hide Replay, RepliesOk;
    assert rs[..|rs|] == rs;
    SweepStages(j, rs, locks, st, |rs|);
  }

  lemma SweepCommits(j: Job, rs: seq<Reply>, locks: set<Row>, st: State)
    requires j.SweepJob? && Justified(j, rs, locks, st) && Next(j, rs).Commit?
    requires var stage := Replay(j, rs, st.db); StageOk(stage, locks, st.db) && FreshTxns(stage, st.db)
    ensures CommitsAs(j, rs, Replay(j, rs, st.db), st)
  {
    hide Replay, RepliesOk;
    assert rs[..|rs|] == rs;
    SweepStages(j, rs, locks, st, |rs|);
    var stage := Replay(j, rs, st.db);
    if |rs| <= 1 {
      PublishNothing(st.db);
    } else {
      assert IdIn(rs[1]) in stage.txns && j.wallet in stage.wallets;
      assert stage.entries[0].amount == st.db.wallets[j.wallet].balance;
      var op := OpOf(j, rs);
      assert Guard(op, st);
      assert Publish(st.db, stage).wallets == Apply(op, st).db.wallets;
      assert Publish(st.db, stage).intents == st.db.intents;
      assert Publish(st.db, stage).payouts == Apply(op, st).db.payouts;
    }
  }

  // ---- Pay ----

  ghost function PayStage(j: Job, rs: seq<Reply>, n: nat, db: Db): Stage
    requires j.PayJob? && n <= |rs| && j.payout < |db.payouts| && (2 < n ==> n - 2 <= |EndpointsIn(rs[1])|)
  {
    if n == 0 then NoWrites
    else
      NoWrites.(payouts := map[j.payout := db.payouts[j.payout].(status := Paid)],
                events := if n <= 2 then []
                          else Fanout(PayoutPaid(j.payout), j.row.merchant, EndpointsIn(rs[1])[..n - 2], j.row.amount, j.row.currency))
  }

  lemma {:induction false} PayStages(j: Job, rs: seq<Reply>, locks: set<Row>, st: State, n: nat)
    requires j.PayJob? && Justified(j, rs, locks, st) && n <= |rs|
    ensures 1 < n ==> rs[1].REndpoints? && EndpointsOf(st.db, j.row.merchant, rs[1].endpoints) && n - 2 <= |rs[1].endpoints|
    ensures Replay(j, rs[..n], st.db) == PayStage(j, rs, n, st.db)
  {
    hide Replay, EndpointsOf;
    if n == 0 {
      ReplayNothing(j, st.db);
    } else {
      PayStages(j, rs, locks, st, n - 1);
      assert ReplyAt(j, rs, n - 1, locks, st);
      ReplayNext(j, rs, st.db, n - 1);
      if 2 < n {
        FanoutGrows(PayoutPaid(j.payout), j.row.merchant, EndpointsIn(rs[1]), n - 3, j.row.amount, j.row.currency);
      }
    }
  }

  lemma PayProceeds(j: Job, rs: seq<Reply>, locks: set<Row>, st: State)
    requires j.PayJob? && Justified(j, rs, locks, st)
    ensures Proceeds(j, rs, Replay(j, rs, st.db), st.db)
  {
    hide Replay, RepliesOk;
    assert rs[..|rs|] == rs;
    PayStages(j, rs, locks, st, |rs|);
  }

  lemma PayCommits(j: Job, rs: seq<Reply>, locks: set<Row>, st: State)
    requires j.PayJob? && Justified(j, rs, locks, st) && Next(j, rs).Commit? && Live(st, j.claim)
    ensures CommitsAs(j, rs, Replay(j, rs, st.db), st)
  {
    hide Replay, RepliesOk;
    assert rs[..|rs|] == rs;
    PayStages(j, rs, locks, st, |rs|);
    var stage := Replay(j, rs, st.db);
    var op := OpOf(j, rs);
    assert Guard(op, st);
    assert EndpointsIn(rs[1])[..|rs| - 2] == EndpointsIn(rs[1]);
    assert Publish(st.db, stage).wallets == st.db.wallets;
    assert Publish(st.db, stage).intents == st.db.intents;
    assert Publish(st.db, stage).payouts == Apply(op, st).db.payouts;
  }

  // ---- Reverse ----

  ghost function ReverseStage(j: Job, rs: seq<Reply>, n: nat, db: Db): Stage
    requires j.ReverseJob? && n <= |rs| && j.payout < |db.payouts|
    requires 1 < n ==> j.row.wallet < |db.wallets|
    requires 6 < n ==> n - 6 <= |EndpointsIn(rs[5])|
  {
    if n <= 1 then NoWrites
    else
      var w, txn := j.row.wallet, IdIn(rs[1]);
      NoWrites.(wallets := if n <= 3 then map[] else map[w := Moved(db.wallets[w], j.row.amount)],
                payouts := if n <= 4 then map[]
                           else map[j.payout := FailedPayout(db.payouts[j.payout], j.row.attempts + 1, txn)],
                txns := map[txn := ReversalTxn],
                entries := if n == 2 then [] else [ReversalEntry(j.row, txn)],
                events := if n <= 6 then []
                          else Fanout(PayoutFailed(j.payout), j.row.merchant, EndpointsIn(rs[5])[..n - 6], j.row.amount, j.row.currency))
  }

  lemma {:induction false} ReverseStages(j: Job, rs: seq<Reply>, locks: set<Row>, st: State, n: nat)
    requires j.ReverseJob? && Justified(j, rs, locks, st) && n <= |rs|
    ensures 0 < n ==> rs[0].RWallet? && (rs[0].wallet.Some? ==>
              j.row.wallet < |st.db.wallets| && WalletRow(j.row.wallet) in locks && rs[0].wallet.value == st.db.wallets[j.row.wallet])
    ensures 1 < n ==> rs[0].wallet.Some?
    ensures 5 < n ==> rs[5].REndpoints? && EndpointsOf(st.db, j.row.merchant, rs[5].endpoints) && n - 6 <= |rs[5].endpoints|
    ensures Replay(j, rs[..n], st.db) == ReverseStage(j, rs, n, st.db)
  {
    hide Replay, EndpointsOf;
    if n == 0 {
      ReplayNothing(j, st.db);
    } else {
      ReverseStages(j, rs, locks, st, n - 1);
      assert ReplyAt(j, rs, n - 1, locks, st);
      ReplayNext(j, rs, st.db, n - 1);
      if 6 < n {
        FanoutGrows(PayoutFailed(j.payout), j.row.merchant, EndpointsIn(rs[5]), n - 7, j.row.amount, j.row.currency);
      }
    }
  }

  lemma ReverseProceeds(j: Job, rs: seq<Reply>, locks: set<Row>, st: State)
    requires j.ReverseJob? && Justified(j, rs, locks, st)
    ensures Proceeds(j, rs, Replay(j, rs, st.db), st.db)
  {
    hide Replay, RepliesOk;
    assert rs[..|rs|] == rs;
    ReverseStages(j, rs, locks, st, |rs|);
  }

  lemma ReverseCommits(j: Job, rs: seq<Reply>, locks: set<Row>, st: State)
    requires j.ReverseJob? && Justified(j, rs, locks, st) && Next(j, rs).Commit? && Live(st, j.claim)
    requires j.row.wallet < |st.db.wallets| ==> st.db.wallets[j.row.wallet].currency == j.row.currency
    requires var stage := Replay(j, rs, st.db); StageOk(stage, locks, st.db) && FreshTxns(stage, st.db)
    ensures CommitsAs(j, rs, Replay(j, rs, st.db), st)
  {
    hide Replay, RepliesOk;
    assert rs[..|rs|] == rs;
    ReverseStages(j, rs, locks, st, |rs|);
    var stage := Replay(j, rs, st.db);
    assert IdIn(rs[1]) in stage.txns && j.row.wallet in stage.wallets;
    assert stage.entries[0].amount == j.row.amount;
    var op := OpOf(j, rs);
    assert Guard(op, st);
    assert EndpointsIn(rs[5])[..|rs| - 6] == EndpointsIn(rs[5]);
    assert Publish(st.db, stage).wallets == Apply(op, st).db.wallets;
    assert Publish(st.db, stage).intents == st.db.intents;
    assert Publish(st.db, stage).payouts == Apply(op, st).db.payouts;
  }

  // ---- Every job ----

  lemma EveryJobProceeds(p: Proc, st: State)
    requires Coherent(p, st)
    ensures Proceeds(p.job, p.rs, p.stage, st.db)
  {
    hide Replay, RepliesOk, Proceeds, StageOk, JobOk;
    match p.job
    case TransferJob(_, _, _, _, _) => TransferProceeds(p.job, p.rs, p.locks, st);
    case DepositJob(_, _, _) => DepositProceeds(p.job, p.rs, p.locks, st);
    case ConfirmJob(_, _) => ConfirmProceeds(p.job, p.rs, p.locks, st);
    case CancelJob(_, _) => CancelProceeds(p.job, p.rs, p.locks, st);
    case SweepJob(_, _, _) => SweepProceeds(p.job, p.rs, p.locks, st);
    case PayJob(_, _, _) => PayProceeds(p.job, p.rs, p.locks, st);
    case ReverseJob(_, _, _) => ReverseProceeds(p.job, p.rs, p.locks, st);
  }
}
