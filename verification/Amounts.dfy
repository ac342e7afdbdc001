/** When a transfer's number is the same amount in the ledger and in the balances, over whole runs. */
module Amounts {
  import opened Sums
  import opened Ledger
  import opened Numbers
  import opened Books
  import opened Invariants

  predicate PrintsSafely(op: Op)
  {
    op.Transfer? ==> 0 < op.amount < TWO_TO_THE_53 && ReadsBack(op.printed, op.amount)
  }

  /** While every transfer is of a safe integer, each balance is its ledger's credits minus debits. */
  lemma {:induction false} SafeAmountsNeverDrift(ops: seq<Op>, w: Id)
    requires forall k | 0 <= k < |ops| :: PrintsSafely(ops[k])
    ensures Drift(ops, w) == 0
  {
    hide ReadsBack;
    if ops != [] {
      var n := |ops| - 1;
      SafeAmountsNeverDrift(ops[..n], w);
      assert PrintsSafely(ops[n]);
      if ops[n].Transfer? {
        SafeIntegersPrintExactly(ops[n].amount, ops[n].printed);
      }
    }
  }

  /** So while every transfer is of a safe integer, each balance is its ledger's credits minus debits. */
  lemma SafeAmountsKeepLedger(ops: seq<Op>, w: Id)
    requires ValidRun(Initial, ops) && w < |After(Initial, ops).db.wallets|
    requires forall k | 0 <= k < |ops| :: PrintsSafely(ops[k])
    ensures After(Initial, ops).db.wallets[w].balance == Sum(After(Initial, ops).db.entries, SignedOn(w))
  {
    hide Sum, ValidRun, After, Drift, PrintsSafely;
    BalancesAgreeInEveryRun(ops, w);
    SafeAmountsNeverDrift(ops, w);
  }

  // ---- Beyond safe integers ----

  const WALLETS := [OpenWallet(0, 0)] + [OpenWallet(1, 0)]

  /** A merchant takes a payment of `funds`. */
  function Funding(funds: int): seq<Op>
  {
    WALLETS + [CreateIntent(0, funds, 0)] + [Confirm(0, 0, 0, 0, 0, [])]
  }

  lemma WalletsOpen()
    ensures ValidRun(Initial, WALLETS) && Drift(WALLETS, 0) == 0
    ensures After(Initial, WALLETS) == Initial.(db := EmptyDb.(wallets := [Wallet(0, 0, 0, 0)] + [Wallet(1, 0, 0, 0)]))
  {
    hide ValidRun, After, Drift;
    NothingYet();
    assert [] + [OpenWallet(0, 0)] == [OpenWallet(0, 0)];
    RunExtends(Initial, [], OpenWallet(0, 0));
    DriftExtends([], OpenWallet(0, 0), 0);
    RunExtends(Initial, [OpenWallet(0, 0)], OpenWallet(1, 0));
    DriftExtends([OpenWallet(0, 0)], OpenWallet(1, 0), 0);
  }

  lemma FundingWorks(funds: int)
    requires 0 < funds <= MAX_BIGINT
    ensures ValidRun(Initial, Funding(funds)) && Drift(Funding(funds), 0) == 0
    ensures var db := After(Initial, Funding(funds)).db;
            db.wallets == [Wallet(0, 0, funds, 0)] + [Wallet(1, 0, 0, 0)] && db.txns.Keys == {0}
  {
    hide ValidRun, After, Drift, WALLETS;
    WalletsOpen();
    assert After(Initial, WALLETS).db.wallets[0] == Wallet(0, 0, 0, 0);
    RunExtends(Initial, WALLETS, CreateIntent(0, funds, 0));
    DriftExtends(WALLETS, CreateIntent(0, funds, 0), 0);
    RunExtends(Initial, WALLETS + [CreateIntent(0, funds, 0)], Confirm(0, 0, 0, 0, 0, []));
    DriftExtends(WALLETS + [CreateIntent(0, funds, 0)], Confirm(0, 0, 0, 0, 0, []), 0);
  }

  lemma NothingYet()
    ensures ValidRun(Initial, []) && After(Initial, []) == Initial && Drift([], 0) == 0
  {
  }

  lemma DriftExtends(ops: seq<Op>, op: Op, w: Id)
    ensures Drift(ops + [op], w) == Drift(ops, w) + OpGap(op, w)
  {
    assert (ops + [op])[..|ops|] == ops;
  }

  lemma TransferAfterFunding(amount: int, printed: int)
    requires 0 < amount <= printed <= MAX_BIGINT
    ensures var ops := Funding(printed) + [Transfer(0, 0, 1, amount, printed, 1)];
            && ValidRun(Initial, ops) && |After(Initial, ops).db.wallets| == 2
            && Drift(ops, 0) == printed - amount
  {
    hide ValidRun, After, Drift, Funding;
    FundingWorks(printed);
    RunExtends(Initial, Funding(printed), Transfer(0, 0, 1, amount, printed, 1));
    DriftExtends(Funding(printed), Transfer(0, 0, 1, amount, printed, 1), 0);
  }

  /**
   * 2 to the 60 is printed with its shortest digits, which do read back as it. A payment of that printed amount and a
   * transfer of 2 to the 60 leave a wallet whose balance is not what its entries say.
   */
  lemma LargeAmountsBreakLedger()
    ensures var amount, printed := 0x1000_0000_0000_0000, 1152921504606847000;
            var ops := Funding(printed) + [Transfer(0, 0, 1, amount, printed, 1)];
            && ReadsBack(printed, amount)
            && ValidRun(Initial, ops) && 0 < |After(Initial, ops).db.wallets|
            && After(Initial, ops).db.wallets[0].balance != Sum(After(Initial, ops).db.entries, SignedOn(0))
  {
    hide Sum, ValidRun, After, Drift, Funding, ReadsBack;
    var amount, printed := 0x1000_0000_0000_0000, 1152921504606847000;
    TransferAfterFunding(amount, printed);
    BalancesAgreeInEveryRun(Funding(printed) + [Transfer(0, 0, 1, amount, printed, 1)], 0);
    TwoToThe60ReadsBack();
  }

  lemma TwoToThe60ReadsBack()
    ensures ReadsBack(1152921504606847000, 0x1000_0000_0000_0000)
  {
    assert Spacing(0x10_0000_0000_0000) == 1 && Spacing(0x20_0000_0000_0000) == 2 && Spacing(0x40_0000_0000_0000) == 4;
    assert Spacing(0x80_0000_0000_0000) == 8 && Spacing(0x100_0000_0000_0000) == 16 && Spacing(0x200_0000_0000_0000) == 32;
    assert Spacing(0x400_0000_0000_0000) == 64 && Spacing(0x800_0000_0000_0000) == 128;
  }
}
