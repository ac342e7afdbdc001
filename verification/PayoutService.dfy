/**
 * The payout service's loops over the committed tables: the sweep, the claim of due payouts, and the processing of
 * each. Every statement or transaction is one atomic operation, which the sessions' refinement justifies; what the rest
 * of the world commits in between comes from a tape.
 */
module PayoutService {
  import opened Options
  import opened Ledger
  import opened Books
  import opened Totals
  import opened Records
  import opened PayoutQueue
  import opened Invariants
  import opened Sweeping
  import Outbox
  import Sessions

  const MAX_ATTEMPTS: nat := POLICY.maxAttempts

  /** What a worker asks to be given: payouts of one merchant, if any; rows that other sessions have locked are skipped. */
  datatype Ask = Ask(merchant: Option<Id>, locked: set<Id>)

  /** Due for this worker: pending, its time has come, not locked, and of the merchant it was asked to settle, if any. */
  predicate DueFor(st: State, ask: Ask, p: Id)
  {
    && p < |st.db.payouts| && st.db.payouts[p].status == Pending && st.db.payouts[p].nextAt <= st.now
    && p !in ask.locked && (ask.merchant.Some? ==> st.db.payouts[p].merchant == ask.merchant.value)
  }

  ghost predicate EarliestBelow(st: State, ask: Ask, r: Id, n: nat)
  {
    && r < n && DueFor(st, ask, r)
    && forall p: Id | p < n && DueFor(st, ask, p) :: st.db.payouts[r].nextAt <= st.db.payouts[p].nextAt
  }

  /** A fresh claim: its payout was pending, its time had come, it was unlocked and the merchant's, and it now has 60s. */
  predicate ClaimedFrom(before: State, st: State, ask: Ask, c: Id)
  {
    c in st.claims &&
    var Claim(p, row) := st.claims[c];
    && p < |before.db.payouts| == |st.db.payouts| && p !in ask.locked
    && var x := before.db.payouts[p];
       && x.status == Pending && x.nextAt <= before.now && (ask.merchant.None? || ask.merchant == Some(x.merchant))
       && row == x.(nextAt := before.now + 60) && st.db.payouts[p] == row
  }

  predicate OfDifferentPayouts(st: State, c: Id, d: Id)
  {
    c in st.claims && d in st.claims && st.claims[c].payout != st.claims[d].payout
  }

  /** The claimed payout's turn came no later than that of `p`. */
  predicate NoLaterThan(before: State, st: State, c: Id, p: Id)
    requires p < |before.db.payouts|
  {
    && c in st.claims && st.claims[c].payout < |before.db.payouts|
    && before.db.payouts[st.claims[c].payout].nextAt <= before.db.payouts[p].nextAt
  }

  predicate StillLeased(st: State, c: Id)
    requires c in st.claims
  {
    st.now < st.claims[c].row.nextAt
  }

  /** An operation that uses up the worker's claim. */
  predicate Spends(op: Op, claim: Id)
  {
    (op.Pay? || op.Retry? || op.Reverse?) && op.claim == claim
  }

  /** The operations from position `n` on are claims. */
  predicate OnlyLeases(ops: seq<Op>, n: nat)
  {
    forall k | n <= k < |ops| :: ops[k].Lease?
  }

  lemma NothingYet(ops: seq<Op>)
    ensures OnlyLeases(ops, |ops|)
  {
  }

  lemma OneMoreLease(ops: seq<Op>, n: nat, p: Id)
    requires n <= |ops| && OnlyLeases(ops, n)
    ensures OnlyLeases(ops + [Op.Lease(p)], n)
  {
  }

  /** The claims so far are live and of different payouts that were due, and what is still due comes no earlier. */
  ghost predicate BatchOk(before: State, st: State, ask: Ask, claims: seq<Id>)
  {
    && |st.db.payouts| == |before.db.payouts| && st.now == before.now
    && (forall i | 0 <= i < |claims| :: claims[i] < st.nextClaim && ClaimedFrom(before, st, ask, claims[i]))
    && (forall i, j | 0 <= i < j < |claims| :: OfDifferentPayouts(st, claims[i], claims[j]))
    && (forall p: Id {:trigger DueFor(st, ask, p)} {:trigger st.db.payouts[p]} | DueFor(st, ask, p) ::
          && st.db.payouts[p] == before.db.payouts[p]
          && forall i | 0 <= i < |claims| :: NoLaterThan(before, st, claims[i], p))
  }

  lemma ClaimedOneMore(before: State, st: State, ask: Ask, claims: seq<Id>, p: Id)
    requires BatchOk(before, st, ask, claims) && EarliestBelow(st, ask, p, |st.db.payouts|)
    requires Guard(Op.Lease(p), st)
    ensures BatchOk(before, Apply(Op.Lease(p), st), ask, claims + [st.nextClaim])
  {
    hide Guard, Apply;
    LeaseTakes(st, ask, p);
  }

  /** What became of a claimed payout: `LeaseLost` is a worker that stopped because its lease ran
      out, and `Threw` one whose last write, a retry or a reversal, failed. */
  datatype Outcome = PaidOut | WillRetry | FailedForGood | LeaseLost | Threw

  /** The bank's answer; does the transaction that marks the payout paid fail; does the write after a failure fail. */
  datatype Answers = Answers(bankOk: bool, markFails: bool, failureFails: bool)

  /** The operation credits the wallet of the claimed row and reports the failure to exactly the active endpoints. */
  predicate Compensates(op: Op, st: State, c: Id, row: Payout)
  {
    && op.Reverse? && op.claim == c && op.wallet == row.wallet
    && op.endpoints == Sessions.ActiveEndpoints(st.db.endpoints, row.merchant)
  }

  /** The wallet's balance has no room for the amount that would come back. */
  predicate CreditOverflows(st: State, row: Payout)
  {
    row.wallet < |st.db.wallets| && 0x7FFF_FFFF_FFFF_FFFF < st.db.wallets[row.wallet].balance + row.amount
  }

  lemma OthersLeaveClaim(op: Op, st: State, claim: Id)
    requires Guard(op, st) && ClaimsOk(st) && claim in st.claims && !Spends(op, claim)
    ensures claim in Apply(op, st).claims && Apply(op, st).claims[claim] == st.claims[claim]
  {
    assert claim in QueueOf(st).holds;
  }

  lemma ClaimIsCurrent(st: State, claim: Id)
    requires Consistent(st) && Live(st, claim)
    ensures var Claim(p, row) := st.claims[claim];
            && st.db.payouts[p].status == Pending && SameTerms(row, st.db.payouts[p])
            && row.wallet < |st.db.wallets| && row.amount > 0 && row.currency == st.db.wallets[row.wallet].currency
  {
    hide LedgerOk, BooksBalance, ChargesOk, Outbox.OutboxOk, EntriesOf, PayoutTxnsOwned, PayoutsDistinct;
    LiveClaimIsCurrent(st, claim);
    assert PayoutOk(st.db, st.db.payouts[st.claims[claim].payout]);
  }

  class Store {
    var st: State
    /** The supply of fresh transaction ids. */
    var supply: Id
    /** What the rest of the world commits before each of the service's operations. */
    var tape: seq<seq<Op>>
    ghost var ops: seq<Op>

    ghost predicate Valid()
      reads this
    {
      ValidRun(Initial, ops) && After(Initial, ops) == st && SupplyFresh()
    }

    ghost predicate SupplyFresh()
      reads this
    {
      forall t | t in st.db.txns :: t < supply
    }

    constructor ()
      ensures Valid() && st == Initial && ops == [] && tape == []
    {
      st := Initial;
      supply := 0;
      tape := [];
      ops := [];
    }

    /** One committed operation; ids handed out elsewhere move the supply along. */
    method Do(op: Op)
      requires Valid() && Guard(op, st)
      modifies `st, `supply, `ops
      ensures Valid() && st == Apply(op, old(st)) && ops == old(ops) + [op]
      ensures old(supply) <= supply
      ensures TxnOf(op) == {} ==> supply == old(supply)
      ensures TxnOf(op) == {old(supply)} ==> supply == old(supply) + 1
    {
      hide Guard, Apply, ValidRun, After, TxnOf;
      RunExtends(Initial, ops, op);
      var before := st;
      st := Apply(op, st);
      ops := ops + [op];
      supply := SupplyAfter(op, supply);
      SupplyStaysFresh(op, before, old(supply));
    }

    /** What the rest of the world commits now: anything but writes under the claims this worker holds. */
    method Interfere(mine: seq<Id>)
      requires Valid() && forall i | 0 <= i < |mine| :: mine[i] in st.claims
      modifies this
      ensures Valid() && old(ops) <= ops && old(supply) <= supply && old(st.now) <= st.now
      ensures forall i | 0 <= i < |mine| :: mine[i] in st.claims && st.claims[mine[i]] == old(st.claims)[mine[i]]
      ensures forall k, i | |old(ops)| <= k < |ops| && 0 <= i < |mine| :: !Spends(ops[k], mine[i])
    {
      hide Guard, Apply, ValidRun, After, TxnOf, ClaimsOk, Consistent;
      if tape != [] {
        var world := tape[0];
        tape := tape[1..];
        for n := 0 to |world|
          invariant Valid() && old(ops) <= ops && old(supply) <= supply && old(st.now) <= st.now
          invariant forall i | 0 <= i < |mine| :: mine[i] in st.claims && st.claims[mine[i]] == old(st.claims)[mine[i]]
          invariant forall k, i | |old(ops)| <= k < |ops| && 0 <= i < |mine| :: !Spends(ops[k], mine[i])
        {
          if Guard(world[n], st) && forall i | 0 <= i < |mine| :: !Spends(world[n], mine[i]) {
            RunIsConsistent(ops);
            ConsistentClaims(st);
            TimeGoesOn(world[n], st);
            forall i | 0 <= i < |mine|
              ensures mine[i] in Apply(world[n], st).claims && Apply(world[n], st).claims[mine[i]] == st.claims[mine[i]]
            {
              OthersLeaveClaim(world[n], st, mine[i]);
            }
            Do(world[n]);
          }
        }
      }
    }

    // ---- sweep ----

    /**
     * One uninterrupted sweep of all merchants or of one. It takes the listed wallets in turn: those at or above the
     * minimum with an active account of their merchant and currency. It zeroes each and adds one pending payout of what
     * it held, bound to that account; nothing else changes. With a minimum of at least 1 it gets through the list, and
     * an immediate second sweep would create none. With a smaller one it throws at the first empty wallet, since the
     * ledger takes no entry of nothing; and if there was none, a second sweep lists the same wallets again.
     */
    method Sweep(min: int, merchant: Option<Id>) returns (created: nat, threw: bool)
      requires Valid()
      modifies `st, `supply, `ops
      ensures Valid()
      ensures var list := Listing(old(st.db), min, merchant);
              && created <= |list| && (threw <==> created < |list|) && (1 <= min ==> !threw)
              && (forall i | 0 <= i < created :: 0 < old(st.db.wallets)[list[i].wallet].balance)
              && (threw ==> old(st.db.wallets)[list[created].wallet].balance == 0)
              && st.db.wallets == Swept(old(st.db.wallets), list[..created])
              && st.db.payouts == old(st.db.payouts) + Created(old(st.db.wallets), list[..created], old(supply), old(st.now))
              && (!threw ==> Listing(st.db, min, merchant) == if 1 <= min then [] else list)
      ensures |st.db.payouts| == |old(st.db.payouts)| + created && old(st.db.payouts) <= st.db.payouts
      ensures forall p | |old(st.db.payouts)| <= p < |st.db.payouts| ::
                PaysOut(old(st.db), st.db.payouts[p], min, merchant, old(st.now))
      ensures OfDifferentWallets(st.db.payouts, |old(st.db.payouts)|)
      ensures |st.db.wallets| == |old(st.db.wallets)|
      ensures forall w: nat | w < |st.db.wallets| ::
                st.db.wallets[w] == if PaidFrom(st.db.payouts, |old(st.db.payouts)|, w)
                                    then old(st.db.wallets)[w].(balance := 0) else old(st.db.wallets)[w]
      ensures OthersKeepTheirs(old(st.db), st.db, merchant)
      ensures !threw ==> forall w: nat | w < |st.db.wallets| :: SettledIff(old(st.db), st.db, min, merchant, w)
      ensures OnlyMoneyMoved(old(st.db), st.db)
      ensures st.now == old(st.now) && st.claims == old(st.claims)
    {
      hide ValidRun, After, Listing, Swept, Created, FindAccount, PaysOut, OfDifferentWallets, PaidFrom, SettledIff, OthersKeepTheirs;
      ghost var db0 := st.db;
      var settleable := Listing(st.db, min, merchant);
      created, threw := SettleEach(settleable, min);
      SweepMeans(db0, st.db, min, merchant, created, old(supply), old(st.now));
      if !threw {
        assert settleable[..|settleable|] == settleable;
        WhatIsLeftToSettle(db0, st.db, min, merchant);
      }
    }

    /** The sweep's loop: one transaction per listed wallet, up to the first that throws. */
    method SettleEach(settleable: seq<Settleable>, min: int) returns (created: nat, threw: bool)
      requires Valid() && forall i | 0 <= i < |settleable| :: IsSettleable(st.db, min, None, settleable[i])
      requires forall i, j | 0 <= i < j < |settleable| :: settleable[i].wallet != settleable[j].wallet
      modifies `st, `supply, `ops
      ensures Valid() && created <= |settleable| && (threw <==> created < |settleable|)
      ensures forall i | 0 <= i < created ::
                IsSettleable(old(st.db), min, None, settleable[i]) && 0 < old(st.db.wallets)[settleable[i].wallet].balance
      ensures threw ==>
                IsSettleable(old(st.db), min, None, settleable[created]) && old(st.db.wallets)[settleable[created].wallet].balance == 0
      ensures SweptSoFar(old(st), st, settleable[..created], old(supply))
    {
      hide ValidRun, After, Guard, Apply, Swept, Created;
      ghost var db0 := st.db;
      created, threw := 0, false;
      for i := 0 to |settleable|
        invariant Valid() && created == i && supply == old(supply) + i && !threw
        invariant forall k | 0 <= k < i :: 0 < db0.wallets[settleable[k].wallet].balance
        invariant SweptSoFar(old(st), st, settleable[..i], old(supply))
      {
        hide SweptSoFar;
        var w := settleable[i];
        StillUnswept(old(st), st, settleable, i, old(supply));
        var wallet := st.db.wallets[w.wallet];
        if min <= wallet.balance {
          BalanceIsNotNegative(ops, st, w.wallet);
          if wallet.balance == 0 {
            threw := true;
            return;
          }
          SweepEmptiesWallet(st, w.wallet, w.account, min, supply);
          ghost var before := st;
          Do(Op.Sweep(w.wallet, w.account, min, supply, st.now));
          created := created + 1;
          SweptSoFarOneMore(old(st), before, st, settleable, i, old(supply));
        }
      }
    }

    // ---- processDuePayouts ----

    /** The payout whose turn came first, of those that are pending, due, not locked, and the merchant's if one is given. */
    method EarliestDue(ask: Ask) returns (r: Option<Id>)
      ensures match r
              case None =>
                forall p | 0 <= p < |st.db.payouts| && p !in ask.locked ::
                  var x := st.db.payouts[p];
                  x.status != Pending || st.now < x.nextAt || (ask.merchant.Some? && x.merchant != ask.merchant.value)
              case Some(p) =>
                && p < |st.db.payouts| && p !in ask.locked
                && var x := st.db.payouts[p];
                   && x.status == Pending && x.nextAt <= st.now && (ask.merchant.None? || ask.merchant == Some(x.merchant))
                   && forall q | 0 <= q < |st.db.payouts| && q !in ask.locked ::
                        var y := st.db.payouts[q];
                        (y.status == Pending && y.nextAt <= st.now && (ask.merchant.None? || ask.merchant == Some(y.merchant)))
                          ==> x.nextAt <= y.nextAt
    {
      r := None;
      for n := 0 to |st.db.payouts|
        invariant r.Some? ==> EarliestBelow(st, ask, r.value, n)
        invariant r.None? ==> forall p {:trigger DueFor(st, ask, p)} {:trigger st.db.payouts[p]} | 0 <= p < n :: !DueFor(st, ask, p)
      {
        if DueFor(st, ask, n) && (r.None? || st.db.payouts[n].nextAt < st.db.payouts[r.value].nextAt) {
          r := Some(n);
        }
      }
    }

    /**
     * claimDue: lease up to `limit` due payouts, earliest first. Every claim is live and of a different payout that
     * was due, and a payout that stays unclaimed was not due or came later than all that were claimed.
     */
    method ClaimDue(limit: nat, ask: Ask) returns (claims: seq<Id>)
      requires Valid()
      modifies `st, `supply, `ops
      ensures Valid() && old(ops) <= ops && st.now == old(st.now)
      ensures |claims| <= limit && |ops| == |old(ops)| + |claims| && OnlyLeases(ops, |old(ops)|)
      ensures forall i | 0 <= i < |claims| :: claims[i] < st.nextClaim && ClaimedFrom(old(st), st, ask, claims[i])
      ensures forall i, j | 0 <= i < j < |claims| :: OfDifferentPayouts(st, claims[i], claims[j])
      ensures |st.db.payouts| == |old(st.db.payouts)|
      ensures forall p | 0 <= p < |st.db.payouts| && p !in ask.locked ::
                var x := st.db.payouts[p];
                (x.status == Pending && x.nextAt <= st.now && (ask.merchant.None? || ask.merchant == Some(x.merchant))) ==>
                  && |claims| == limit && x == old(st.db.payouts)[p]
                  && forall i | 0 <= i < |claims| :: NoLaterThan(old(st), st, claims[i], p)
    {
      hide ValidRun, After, Consistent, Guard, Apply, OnlyLeases;
      claims := [];
      assert OnlyLeases(ops, |ops|) by { NothingYet(ops); }
      var found := true;
      while found && |claims| < limit
        invariant Valid() && old(ops) <= ops && st.now == old(st.now)
        invariant |claims| <= limit && |ops| == |old(ops)| + |claims| && OnlyLeases(ops, |old(ops)|)
        invariant BatchOk(old(st), st, ask, claims)
        invariant !found ==> forall p {:trigger DueFor(st, ask, p)} {:trigger st.db.payouts[p]} | 0 <= p < |st.db.payouts| ::
                               !DueFor(st, ask, p)
        decreases limit - |claims|, found
      {
        hide BatchOk;
        var next := EarliestDue(ask);
        match next
        case None => found := false;
        case Some(p) =>
          LeaseTakes(st, ask, p);
          OneMoreLease(ops, |old(ops)|, p);
          ClaimedOneMore(old(st), st, ask, claims, p);
          claims := claims + [st.nextClaim];
          Do(Op.Lease(p));
      }
    }

    /** The catch block of processOne: record the failed attempt for a retry, or after the last one compensate. */
    method RetryOrReverse(c: Id, rest: seq<Id>, a: Answers) returns (outcome: Outcome)
      requires Valid() && c in st.claims && c !in rest && forall i | 0 <= i < |rest| :: rest[i] in st.claims
      requires !(a.bankOk && !a.markFails)
      modifies this
      ensures Valid() && old(ops) <= ops
      ensures forall i | 0 <= i < |rest| :: rest[i] in st.claims && st.claims[rest[i]] == old(st.claims)[rest[i]]
      ensures outcome != LeaseLost && outcome != Threw ==>
                && |old(ops)| < |ops| && Spends(ops[|ops| - 1], c) && c !in st.claims
                && forall k | |old(ops)| <= k < |ops| - 1 :: !Spends(ops[k], c)
      ensures outcome == LeaseLost || outcome == Threw ==>
                c in st.claims && forall k | |old(ops)| <= k < |ops| :: !Spends(ops[k], c)
      ensures var row := old(st.claims)[c].row;
              match outcome
              case PaidOut => false
              case WillRetry => !a.failureFails && row.attempts + 1 < 3 && ops[|ops| - 1] == Op.Retry(c)
              case FailedForGood => !a.failureFails && 3 <= row.attempts + 1 && Compensates(ops[|ops| - 1], st, c, row)
              case LeaseLost => st.claims[c].row.nextAt <= st.now
              case Threw => a.failureFails || (3 <= row.attempts + 1 && CreditOverflows(st, row))
    {
      hide ValidRun, After, Consistent, ClaimsOk, Apply;
      var row := st.claims[c].row;
      var mine := [c] + rest;
      assert mine[0] == c && forall i | 0 <= i < |rest| :: mine[i + 1] == rest[i];
      var attempts := row.attempts + 1;
      Interfere(mine);
      if !StillLeased(st, c) {
        return LeaseLost;
      }
      if a.failureFails {
        return Threw;
      }
      LeasedIsLive(ops, st, c);
      if attempts < MAX_ATTEMPTS {
        WriteSpends(Op.Retry(c), st, c);
        Do(Op.Retry(c));
        return WillRetry;
      }
      var reversal := Op.Reverse(c, row.wallet, supply, Sessions.ActiveEndpoints(st.db.endpoints, row.merchant));
      if MAX_BIGINT < st.db.wallets[row.wallet].balance + row.amount {
        return Threw;
      }
      EndpointsAreTheirs(st.db, row.merchant);
      BalanceIsNotNegative(ops, st, row.wallet);
      WriteSpends(reversal, st, c);
      Do(reversal);
      return FailedForGood;
    }

    /**
     * processOne, with the rest of the world at work before each write. The worker writes at most once under its claim,
     * and what it writes is decided by the answers and by the attempts on the row it claimed; nobody writes under
     * `rest`, the claims it has yet to process.
     */
    method ProcessOne(c: Id, rest: seq<Id>, a: Answers) returns (outcome: Outcome)
      requires Valid() && c in st.claims && c !in rest && forall i | 0 <= i < |rest| :: rest[i] in st.claims
      modifies this
      ensures Valid() && old(ops) <= ops
      ensures forall i | 0 <= i < |rest| :: rest[i] in st.claims && st.claims[rest[i]] == old(st.claims)[rest[i]]
      ensures outcome != LeaseLost && outcome != Threw ==>
                && |old(ops)| < |ops| && Spends(ops[|ops| - 1], c) && c !in st.claims
                && forall k | |old(ops)| <= k < |ops| - 1 :: !Spends(ops[k], c)
      ensures outcome == LeaseLost || outcome == Threw ==>
                c in st.claims && forall k | |old(ops)| <= k < |ops| :: !Spends(ops[k], c)
      ensures outcome != LeaseLost ==> (outcome == PaidOut <==> a.bankOk && !a.markFails)
      ensures var row := old(st.claims)[c].row;
              match outcome
              case PaidOut => ops[|ops| - 1] == Op.Pay(c, Sessions.ActiveEndpoints(st.db.endpoints, row.merchant))
              case WillRetry => !a.failureFails && row.attempts + 1 < 3 && ops[|ops| - 1] == Op.Retry(c)
              case FailedForGood => !a.failureFails && 3 <= row.attempts + 1 && Compensates(ops[|ops| - 1], st, c, row)
              case LeaseLost => st.claims[c].row.nextAt <= st.now
              case Threw => a.failureFails || (3 <= row.attempts + 1 && CreditOverflows(st, row))
    {
      hide ValidRun, After, Consistent, ClaimsOk, Apply;
      var row := st.claims[c].row;
      var mine := [c] + rest;
      assert mine[0] == c && forall i | 0 <= i < |rest| :: mine[i + 1] == rest[i];
      Interfere(mine);
      if a.bankOk && !a.markFails {
        if !StillLeased(st, c) {
          return LeaseLost;
        }
        var endpoints := Sessions.ActiveEndpoints(st.db.endpoints, row.merchant);
        EndpointsAreTheirs(st.db, row.merchant);
        LeasedIsLive(ops, st, c);
        WriteSpends(Op.Pay(c, endpoints), st, c);
        Do(Op.Pay(c, endpoints));
        return PaidOut;
      }
      outcome := RetryOrReverse(c, rest, a);
    }

    /**
     * processDuePayouts: claim a batch and process each in turn, until one throws and leaves the rest to their leases.
     * `answers` holds what each meets, `claimed` is the run up to the claim, and the first `done` of the batch are
     * processed: this worker wrote exactly once under the claim, or its lease ran out first. Nobody wrote under the rest.
     */
    method ProcessDuePayouts(limit: nat, ask: Ask, answers: seq<Answers>)
      returns (n: nat, threw: bool, ghost due: seq<Id>, ghost done: nat, ghost claimed: seq<Op>)
      requires Valid() && limit <= |answers|
      modifies this
      ensures Valid() && n == |due| <= limit && done <= n && (threw <==> done < n)
      ensures old(ops) <= claimed <= ops && ValidRun(Initial, claimed)
      ensures var s := After(Initial, claimed);
              && (forall i | 0 <= i < n :: ClaimedFrom(old(st), s, ask, due[i]))
              && (forall i, j | 0 <= i < j < n :: OfDifferentPayouts(s, due[i], due[j]))
              && (n < limit ==> forall p | 0 <= p < |s.db.payouts| && p !in ask.locked ::
                    var x := s.db.payouts[p];
                    x.status != Pending || s.now < x.nextAt || (ask.merchant.Some? && x.merchant != ask.merchant.value))
              && (forall i | 0 <= i < done ::
                    WrittenOnce(ops, |claimed|, due[i], s.claims[due[i]].row.attempts, answers[i]) || Expired(st, due[i]))
      ensures forall i | done <= i < n :: due[i] in st.claims
      ensures threw ==> !answers[done].bankOk || answers[done].markFails
    {
      hide ValidRun, After, Consistent, ClaimsOk, Apply, Guard, WrittenOnce;
      var claims := ClaimDue(limit, ask);
      n, threw, due, done, claimed := |claims|, false, claims, 0, ops;
      ghost var leased := st.claims;
      ghost var attempts := seq(|claims|, (k: nat) requires k < |claims| => leased[claims[k]].row.attempts);
      for i := 0 to |claims|
        invariant Valid() && claimed <= ops && done == i
        invariant forall k | 0 <= k < i ::
                    WrittenOnce(ops, |claimed|, claims[k], leased[claims[k]].row.attempts, answers[k]) || Expired(st, claims[k])
        invariant forall k | i <= k < |claims| :: claims[k] in st.claims && st.claims[claims[k]] == leased[claims[k]]
      {
        ghost var before := ops;
        var rest := claims[i + 1..];
        var outcome := ProcessOne(claims[i], rest, answers[i]);
        forall k | i < k < |claims|
          ensures claims[k] in st.claims && st.claims[claims[k]] == leased[claims[k]]
        {
          assert rest[k - i - 1] == claims[k];
        }
        if outcome == Threw {
          threw := true;
          WhatIsDoneStaysDone(before, ops, |claimed|, claims, attempts, answers, i);
          return;
        }
        WhatIsDoneStaysDone(before, ops, |claimed|, claims, attempts, answers, i);
        if outcome != LeaseLost {
          SpentIsWrittenOnce(ops, |claimed|, claims[i], attempts[i], answers[i], |ops| - 1);
        }
        done := done + 1;
      }
    }
  }

  /** The claim has lapsed unused. */
  predicate Expired(st: State, c: Id)
  {
    c in st.claims && st.claims[c].row.nextAt <= st.now
  }

  /** The write that the bank's answer and the attempts already counted call for. */
  predicate Fits(op: Op, c: Id, attempts: nat, a: Answers)
  {
    if a.bankOk && !a.markFails then op.Pay? && op.claim == c
    else if attempts + 1 < 3 then op == Op.Retry(c)
    else op.Reverse? && op.claim == c
  }

  /** One operation of the run writes under the claim; it is the one called for, and it came at position `n` or later. */
  ghost predicate WrittenOnce(ops: seq<Op>, n: nat, c: Id, attempts: nat, a: Answers)
  {
    exists k | n <= k < |ops| :: Fits(ops[k], c, attempts, a) && forall j | 0 <= j < |ops| && Spends(ops[j], c) :: j == k
  }

  lemma SpentIsWrittenOnce(ops: seq<Op>, n: nat, c: Id, attempts: nat, a: Answers, k: nat)
    requires ValidRun(Initial, ops) && n <= k < |ops| && Fits(ops[k], c, attempts, a)
    ensures WrittenOnce(ops, n, c, attempts, a)
  {
    hide ValidRun;
    forall j | 0 <= j < |ops| && Spends(ops[j], c)
      ensures j == k
    {
      ClaimsWriteOnce(ops, c, j, k);
    }
  }

  /** A lapsed claim stays lapsed: no operation can write under it. */
  lemma {:induction false} ExpiredStays(before: seq<Op>, ops: seq<Op>, c: Id)
    requires ValidRun(Initial, ops) && before <= ops
    requires ValidRun(Initial, before) && Expired(After(Initial, before), c)
    ensures Expired(After(Initial, ops), c)
    decreases |ops|
  {
    hide Guard, Apply, Consistent, ClaimsOk;
    if |before| == |ops| {
      assert before == ops;
    } else {
      var n := |ops| - 1;
      ExpiredStays(before, ops[..n], c);
      var st := After(Initial, ops[..n]);
      RunIsConsistent(ops[..n]);
      ConsistentClaims(st);
      ExpiredIsNotSpent(ops[n], st, c);
      OthersLeaveClaim(ops[n], st, c);
      TimeGoesOn(ops[n], st);
    }
  }

  lemma ExpiredIsNotSpent(op: Op, st: State, c: Id)
    requires Guard(op, st) && Expired(st, c)
    ensures !Spends(op, c)
  {
  }

  lemma WhatIsDoneStaysDone(
      before: seq<Op>, ops: seq<Op>, n: nat, claims: seq<Id>, attempts: seq<nat>, answers: seq<Answers>, done: nat)
    requires done <= |claims| == |attempts| <= |answers|
    requires ValidRun(Initial, ops) && before <= ops && ValidRun(Initial, before)
    requires forall i | 0 <= i < done ::
               WrittenOnce(before, n, claims[i], attempts[i], answers[i]) || Expired(After(Initial, before), claims[i])
    ensures forall i | 0 <= i < done ::
              WrittenOnce(ops, n, claims[i], attempts[i], answers[i]) || Expired(After(Initial, ops), claims[i])
  {
    hide ValidRun, After, Spends, Fits;
    forall i | 0 <= i < done
      ensures WrittenOnce(ops, n, claims[i], attempts[i], answers[i]) || Expired(After(Initial, ops), claims[i])
    {
      if WrittenOnce(before, n, claims[i], attempts[i], answers[i]) {
        var k :| n <= k < |before| && Fits(before[k], claims[i], attempts[i], answers[i]);
        SpentIsWrittenOnce(ops, n, claims[i], attempts[i], answers[i], k);
      } else {
        ExpiredStays(before, ops, claims[i]);
      }
    }
  }

  function SupplyAfter(op: Op, supply: Id): Id
  {
    match op
    case Deposit(_, _, t) => Max(supply, t + 1)
    case Transfer(_, _, _, _, _, t) => Max(supply, t + 1)
    case Confirm(_, _, _, t, _, _) => Max(supply, t + 1)
    case Sweep(_, _, _, t, _) => Max(supply, t + 1)
    case Reverse(_, _, t, _) => Max(supply, t + 1)
    case _ => supply
  }

  function Max(a: nat, b: nat): nat
  {
    if a < b then b else a
  }

  lemma SupplyStaysFresh(op: Op, st: State, supply: Id)
    requires Guard(op, st) && forall t | t in st.db.txns :: t < supply
    ensures forall t | t in Apply(op, st).db.txns :: t < SupplyAfter(op, supply)
    ensures supply <= SupplyAfter(op, supply)
    ensures TxnOf(op) == {} ==> SupplyAfter(op, supply) == supply
    ensures TxnOf(op) == {supply} ==> SupplyAfter(op, supply) == supply + 1
  {
    assert supply in {supply};
  }

  lemma TimeGoesOn(op: Op, st: State)
    requires Guard(op, st)
    ensures st.now <= Apply(op, st).now
  {
  }

  /** Nothing but wallets, payouts and the ledger differs. */
  predicate OnlyMoneyMoved(db: Db, db': Db)
  {
    && db'.intents == db.intents && db'.charges == db.charges && db'.accounts == db.accounts
    && db'.endpoints == db.endpoints && db'.events == db.events
  }

  /** What the transaction of one settleable wallet commits. */
  lemma SweepEmptiesWallet(st: State, w: Id, a: Id, min: int, txn: Id)
    requires w < |st.db.wallets| && min <= st.db.wallets[w].balance && 0 < st.db.wallets[w].balance && txn !in st.db.txns
    requires a < |st.db.accounts| && st.db.accounts[a].merchant == st.db.wallets[w].merchant
    requires st.db.accounts[a].currency == st.db.wallets[w].currency
    ensures Guard(Op.Sweep(w, a, min, txn, st.now), st)
    ensures var st', x := Apply(Op.Sweep(w, a, min, txn, st.now), st), st.db.wallets[w];
            && st'.db.wallets == st.db.wallets[w := x.(balance := 0)]
            && st'.db.payouts == st.db.payouts + [PendingPayout(x.merchant, w, a, x.currency, x.balance, txn, st.now)]
            && OnlyMoneyMoved(st.db, st'.db)
            && st'.now == st.now && st'.claims == st.claims
  {
  }

  /** The state after a sweep has got through `list`. */
  ghost predicate SweptSoFar(before: State, st: State, list: seq<Settleable>, supply: Id)
  {
    && (forall k | 0 <= k < |list| :: list[k].wallet < |before.db.wallets|)
    && st.db.wallets == Swept(before.db.wallets, list)
    && st.db.payouts == before.db.payouts + Created(before.db.wallets, list, supply, before.now)
    && OnlyMoneyMoved(before.db, st.db)
    && st.now == before.now && st.claims == before.claims
  }

  lemma StillUnswept(before: State, st: State, list: seq<Settleable>, i: nat, supply: Id)
    requires i < |list| && SweptSoFar(before, st, list[..i], supply) && list[i].wallet < |before.db.wallets|
    requires forall j, k | 0 <= j < k < |list| :: list[j].wallet != list[k].wallet
    ensures |st.db.wallets| == |before.db.wallets| && st.db.wallets[list[i].wallet] == before.db.wallets[list[i].wallet]
    ensures st.db.accounts == before.db.accounts
  {
    hide Swept, Created;
    assert !Lists(list[..i], list[i].wallet);
  }

  lemma SweptSoFarOneMore(before: State, st: State, st': State, list: seq<Settleable>, i: nat, supply: Id)
    requires forall k | 0 <= k < |list| :: list[k].wallet < |before.db.wallets|
    requires i < |list| && SweptSoFar(before, st, list[..i], supply)
    requires |st.db.wallets| == |before.db.wallets| && st.db.wallets[list[i].wallet] == before.db.wallets[list[i].wallet]
    requires var w, x := list[i], before.db.wallets[list[i].wallet];
             && st'.db.wallets == st.db.wallets[w.wallet := x.(balance := 0)]
             && st'.db.payouts == st.db.payouts + [PendingPayout(x.merchant, w.wallet, w.account, x.currency, x.balance, supply + i, st.now)]
             && OnlyMoneyMoved(st.db, st'.db) && st'.now == st.now && st'.claims == st.claims
    ensures SweptSoFar(before, st', list[..i + 1], supply)
  {
    hide Swept, Created, Lists;
    SweptOneMore(before.db.wallets, list, i);
    CreatedOneMore(before.db.wallets, list, i, supply, before.now);
  }

  /** The lease is live, its payout is no longer due, and no other payout or claim changes. */
  lemma LeaseTakes(st: State, ask: Ask, p: Id)
    requires DueFor(st, ask, p)
    ensures Guard(Op.Lease(p), st)
    ensures var st', row := Apply(Op.Lease(p), st), st.db.payouts[p].(nextAt := st.now + 60);
            && st'.now == st.now && st'.nextClaim == st.nextClaim + 1
            && st'.db.payouts == st.db.payouts[p := row]
            && st'.claims == st.claims[st.nextClaim := Claim(p, row)]
  {
  }

  lemma SweptOneMore(wallets: seq<Wallet>, list: seq<Settleable>, i: nat)
    requires i < |list| && forall k | 0 <= k < |list| :: list[k].wallet < |wallets|
    ensures Swept(wallets, list[..i + 1])
         == Swept(wallets, list[..i])[list[i].wallet := Swept(wallets, list[..i])[list[i].wallet].(balance := 0)]
  {
    assert list[..i + 1][..i] == list[..i];
  }

  lemma CreatedOneMore(wallets: seq<Wallet>, list: seq<Settleable>, i: nat, supply: Id, now: nat)
    requires i < |list| && forall k | 0 <= k < |list| :: list[k].wallet < |wallets|
    ensures Created(wallets, list[..i + 1], supply, now)
         == Created(wallets, list[..i], supply, now)
            + [var w := wallets[list[i].wallet];
               PendingPayout(w.merchant, list[i].wallet, list[i].account, w.currency, w.balance, supply + i, now)]
  {
  }

  lemma LeasedIsLive(ops: seq<Op>, st: State, c: Id)
    requires ValidRun(Initial, ops) && After(Initial, ops) == st && c in st.claims && StillLeased(st, c)
    ensures Live(st, c)
    ensures var Claim(p, row) := st.claims[c];
            row.wallet < |st.db.wallets| && row.amount > 0 && row.currency == st.db.wallets[row.wallet].currency
  {
    hide ValidRun, After, Consistent;
    RunIsConsistent(ops);
    ConsistentClaims(st);
    ClaimIsCurrent(st, c);
  }

  lemma EndpointsAreTheirs(db: Db, merchant: Id)
    ensures EndpointsOf(db, merchant, Sessions.ActiveEndpoints(db.endpoints, merchant))
  {
    var r := Sessions.ActiveEndpoints(db.endpoints, merchant);
    assert forall i | 0 <= i < |r| :: r[i] in r;
  }

  lemma BalanceIsNotNegative(ops: seq<Op>, st: State, w: Id)
    requires ValidRun(Initial, ops) && After(Initial, ops) == st && w < |st.db.wallets|
    ensures 0 <= st.db.wallets[w].balance
  {
    hide ValidRun, After;
    RunIsConsistent(ops);
  }

  lemma WriteSpends(op: Op, st: State, c: Id)
    requires Guard(op, st) && Spends(op, c)
    ensures Apply(op, st).claims == st.claims - {c} && Apply(op, st).db.endpoints == st.db.endpoints
  {
  }

  /** Over a run no claim comes back or changes, claim ids are never reused, and time does not go back. */
  lemma {:induction false} ClaimsOnlyFade(before: seq<Op>, ops: seq<Op>)
    requires ValidRun(Initial, ops) && before <= ops
    ensures ValidRun(Initial, before)
    ensures var st, st' := After(Initial, before), After(Initial, ops);
            && st.nextClaim <= st'.nextClaim && st.now <= st'.now && |st.db.payouts| <= |st'.db.payouts|
            && forall c | c in st'.claims && c < st.nextClaim :: c in st.claims && st'.claims[c] == st.claims[c]
    decreases |ops|
  {
    hide Guard, Apply;
    if |before| == |ops| {
      assert before == ops;
    } else {
      var n := |ops| - 1;
      ClaimsOnlyFade(before, ops[..n]);
      ClaimsFadeInStep(ops[n], After(Initial, ops[..n]));
    }
  }

  lemma ClaimsFadeInStep(op: Op, st: State)
    requires Guard(op, st)
    ensures var st' := Apply(op, st);
            && st.nextClaim <= st'.nextClaim && st.now <= st'.now && |st.db.payouts| <= |st'.db.payouts|
            && forall c | c in st'.claims && c < st.nextClaim :: c in st.claims && st'.claims[c] == st.claims[c]
  {
  }

  /** In every run each claim is good for at most one write. */
  lemma ClaimsWriteOnce(ops: seq<Op>, c: Id, j: nat, k: nat)
    requires ValidRun(Initial, ops) && j < |ops| && k < |ops| && Spends(ops[j], c) && Spends(ops[k], c)
    ensures j == k
  {
    hide Guard, Apply;
    if j < k {
      SpentClaimsStaySpent(ops, c, j, k);
    } else if k < j {
      SpentClaimsStaySpent(ops, c, k, j);
    }
  }

  lemma SpentClaimsStaySpent(ops: seq<Op>, c: Id, j: nat, k: nat)
    requires ValidRun(Initial, ops) && j < k < |ops| && Spends(ops[j], c)
    ensures !Spends(ops[k], c)
  {
    hide Guard, Apply, ValidRun, After, Consistent, ClaimsOk;
    ValidAt(ops, j);
    ValidAt(ops, k);
    var st := After(Initial, ops[..j]);
    RunIsConsistent(ops[..j]);
    ConsistentClaims(st);
    SpendingTakesClaim(ops[j], st, c);
    assert ops[..k][..j + 1] == ops[..j + 1];
    ClaimsOnlyFade(ops[..j + 1], ops[..k]);
    if Spends(ops[k], c) {
      SpendingNeedsClaim(ops[k], After(Initial, ops[..k]), c);
    }
  }

  lemma SpendingNeedsClaim(op: Op, st: State, c: Id)
    requires Guard(op, st) && Spends(op, c)
    ensures c in st.claims
  {
  }

  lemma SpendingTakesClaim(op: Op, st: State, c: Id)
    requires Guard(op, st) && Spends(op, c) && ClaimsOk(st)
    ensures c !in Apply(op, st).claims && c < Apply(op, st).nextClaim
  {
    assert c in QueueOf(st).holds;
  }
}
