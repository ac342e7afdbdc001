/** What one uninterrupted settlement sweep does: the rows it lists, and what it makes of wallets and payouts. */
module Sweeping {
  import opened Options
  import opened Sums
  import opened Ledger
  import opened Totals

  /** A settleable wallet and the active account the listing joined it with. */
  datatype Settleable = Settleable(wallet: Id, account: Id)

  function FindAccount(accounts: seq<Account>, merchant: Id, currency: Id): (r: Option<Id>)
    ensures r.Some? ==> r.value < |accounts| && accounts[r.value] == Account(merchant, currency, true)
    ensures r.None? ==> Account(merchant, currency, true) !in accounts
  {
    if accounts == [] then None
    else
      var n := |accounts| - 1;
      if accounts[n] == Account(merchant, currency, true) then Some(n) else FindAccount(accounts[..n], merchant, currency)
  }

  /** There is an active account of the wallet's merchant and currency. */
  predicate HasAccount(db: Db, w: Wallet)
  {
    Account(w.merchant, w.currency, true) in db.accounts
  }

  predicate Settles(db: Db, min: int, merchant: Option<Id>, w: Id)
  {
    && w < |db.wallets|
    && min <= db.wallets[w].balance
    && (merchant.Some? ==> db.wallets[w].merchant == merchant.value)
    && FindAccount(db.accounts, db.wallets[w].merchant, db.wallets[w].currency).Some?
  }

  function AccountFor(db: Db, w: Id): Id
    requires w < |db.wallets|
    requires FindAccount(db.accounts, db.wallets[w].merchant, db.wallets[w].currency).Some?
  {
    FindAccount(db.accounts, db.wallets[w].merchant, db.wallets[w].currency).value
  }

  lemma ListsMore(r: seq<Settleable>, x: Settleable)
    ensures forall w: Id | Lists(r, w) :: Lists(r + [x], w)
  {
    forall w: Id | Lists(r, w)
      ensures Lists(r + [x], w)
    {
      var i :| 0 <= i < |r| && r[i].wallet == w;
      assert (r + [x])[i].wallet == w;
    }
  }

  /** The settling wallets among the first `n`, in order, each with its account. */
  function Rows(db: Db, min: int, merchant: Option<Id>, n: nat): seq<Settleable>
    requires n <= |db.wallets|
  {
    if n == 0 then [] else Rows(db, min, merchant, n - 1) + Listed(db, min, merchant, n - 1)
  }

  function Listed(db: Db, min: int, merchant: Option<Id>, w: Id): seq<Settleable>
  {
    if Settles(db, min, merchant, w) then [Settleable(w, AccountFor(db, w))] else []
  }

  /** The row is of a wallet to be settled, and the account an active one of the wallet's merchant and currency. */
  predicate IsSettleable(db: Db, min: int, merchant: Option<Id>, x: Settleable)
  {
    && x.wallet < |db.wallets| && x.account < |db.accounts|
    && var w := db.wallets[x.wallet];
       && min <= w.balance && (merchant.None? || merchant == Some(w.merchant))
       && db.accounts[x.account] == Account(w.merchant, w.currency, true)
  }

  lemma {:induction false} RowsMean(db: Db, min: int, merchant: Option<Id>, n: nat, r: seq<Settleable>)
    requires n <= |db.wallets| && r == Rows(db, min, merchant, n)
    ensures forall i | 0 <= i < |r| :: r[i].wallet < n && IsSettleable(db, min, merchant, r[i])
    ensures forall i, j | 0 <= i < j < |r| :: r[i].wallet != r[j].wallet
    ensures forall w: nat | w < n && Settles(db, min, merchant, w) :: Lists(r, w)
  {
    if 0 < n {
      var before, x := Rows(db, min, merchant, n - 1), Listed(db, min, merchant, n - 1);
      RowsMean(db, min, merchant, n - 1, before);
      if x != [] {
        ListsMore(before, x[0]);
        assert r[|before|].wallet == n - 1;
      } else {
        assert before + x == before;
      }
    }
  }

  /**
   * listSettleableWallets: each wallet that holds the minimum, is the merchant's if one is given and has an active
   * account of its merchant and currency, once and with such an account; and no other.
   */
  function Listing(db: Db, min: int, merchant: Option<Id>): (r: seq<Settleable>)
    ensures forall i | 0 <= i < |r| :: IsSettleable(db, min, merchant, r[i])
    ensures forall i, j | 0 <= i < j < |r| :: r[i].wallet != r[j].wallet
    ensures forall i: nat {:trigger Lists(r, i)} | i < |db.wallets| ::
              var w := db.wallets[i];
              (min <= w.balance && (merchant.None? || merchant == Some(w.merchant)) && HasAccount(db, w)) ==> Lists(r, i)
  {
    var r := Rows(db, min, merchant, |db.wallets|);
    RowsMean(db, min, merchant, |db.wallets|, r);
    r
  }

  predicate Lists(list: seq<Settleable>, w: Id)
  {
    exists i | 0 <= i < |list| :: list[i].wallet == w
  }

  /** The wallets after sweeping the listed ones. */
  function Swept(wallets: seq<Wallet>, list: seq<Settleable>): (r: seq<Wallet>)
    requires forall i | 0 <= i < |list| :: list[i].wallet < |wallets|
    ensures |r| == |wallets|
    ensures forall w: Id | w < |wallets| :: r[w] == if Lists(list, w) then wallets[w].(balance := 0) else wallets[w]
  {
    if list == [] then wallets
    else
      var n := |list| - 1;
      var r := Swept(wallets, list[..n]);
      assert forall w: Id | w < |wallets| :: Lists(list, w) <==> Lists(list[..n], w) || w == list[n].wallet by {
        forall w: Id | w < |wallets|
          ensures Lists(list, w) <==> Lists(list[..n], w) || w == list[n].wallet
        {
          if Lists(list[..n], w) {
            var i :| 0 <= i < n && list[..n][i].wallet == w;
            assert list[i].wallet == w;
          }
          if Lists(list, w) && w != list[n].wallet {
            var i :| 0 <= i < |list| && list[i].wallet == w;
            assert list[..n][i].wallet == w;
          }
        }
      }
      r[list[n].wallet := r[list[n].wallet].(balance := 0)]
  }

  /** The payouts a sweep adds, one per listed wallet, under transaction ids `supply`, `supply + 1`, … */
  function Created(wallets: seq<Wallet>, list: seq<Settleable>, supply: Id, now: nat): (r: seq<Payout>)
    requires forall i | 0 <= i < |list| :: list[i].wallet < |wallets|
    ensures |r| == |list|
  {
    seq(|list|, i requires 0 <= i < |list| =>
      var w := wallets[list[i].wallet];
      PendingPayout(w.merchant, list[i].wallet, list[i].account, w.currency, w.balance, supply + i, now))
  }

  /** The payout pays out all that its wallet held, which was the minimum or more, to an active account of its own. */
  predicate PaysOut(db: Db, x: Payout, min: int, merchant: Option<Id>, now: nat)
  {
    && x.wallet < |db.wallets| && x.account < |db.accounts|
    && var w := db.wallets[x.wallet];
       && 0 < w.balance && min <= w.balance && (merchant.None? || merchant == Some(w.merchant))
       && db.accounts[x.account] == Account(w.merchant, w.currency, true)
       && x.amount == w.balance && x.merchant == w.merchant && x.currency == w.currency
       && x.status == Pending && x.reversal == None && x.attempts == 0 && x.nextAt == now && x.failures == []
  }

  /** Payouts from `n` on, by position, are of different wallets. */
  predicate OfDifferentWallets(payouts: seq<Payout>, n: nat)
  {
    forall p, q | n <= p < q < |payouts| :: payouts[p].wallet != payouts[q].wallet
  }

  /** Some payout from `n` on, by position, is of the wallet. */
  predicate PaidFrom(payouts: seq<Payout>, n: nat, w: Id)
  {
    exists p | n <= p < |payouts| :: payouts[p].wallet == w
  }

  /** The rows that a sweep of the first `created` listed wallets leaves. */
  predicate SweptFirst(db: Db, db': Db, list: seq<Settleable>, created: nat, supply: Id, now: nat)
    requires forall i | 0 <= i < |list| :: list[i].wallet < |db.wallets|
  {
    && created <= |list|
    && db'.wallets == Swept(db.wallets, list[..created])
    && db'.payouts == db.payouts + Created(db.wallets, list[..created], supply, now)
  }

  lemma NewPayout(db: Db, db': Db, list: seq<Settleable>, created: nat, supply: Id, now: nat, p: nat)
    requires forall i | 0 <= i < |list| :: list[i].wallet < |db.wallets|
    requires SweptFirst(db, db', list, created, supply, now) && |db.payouts| <= p < |db'.payouts|
    ensures |db'.payouts| == |db.payouts| + created
    ensures var x := list[p - |db.payouts|]; var w := db.wallets[x.wallet];
            && db'.payouts[p].wallet == x.wallet && db'.payouts[p].account == x.account
            && db'.payouts[p].amount == w.balance && db'.payouts[p].merchant == w.merchant
            && db'.payouts[p].currency == w.currency && db'.payouts[p].status == Pending
            && db'.payouts[p].reversal == None && db'.payouts[p].attempts == 0 && db'.payouts[p].nextAt == now
            && db'.payouts[p].failures == []
  {
    hide Swept;
  }

  /** The payouts that a sweep adds, said of the rows alone. */
  lemma NewPayoutsPayOut(db: Db, db': Db, min: int, merchant: Option<Id>, created: nat, supply: Id, now: nat)
    requires var list := Listing(db, min, merchant);
             && SweptFirst(db, db', list, created, supply, now)
             && forall i | 0 <= i < created :: 0 < db.wallets[list[i].wallet].balance
    ensures |db'.payouts| == |db.payouts| + created && db.payouts <= db'.payouts
    ensures forall p | |db.payouts| <= p < |db'.payouts| :: PaysOut(db, db'.payouts[p], min, merchant, now)
    ensures OfDifferentWallets(db'.payouts, |db.payouts|)
  {
    hide Swept, Settles, Listing, HasAccount, Lists, PendingPayout;
    var list := Listing(db, min, merchant);
    forall p | |db.payouts| <= p < |db'.payouts|
      ensures PaysOut(db, db'.payouts[p], min, merchant, now) && db'.payouts[p].wallet == list[p - |db.payouts|].wallet
    {
      NewPayout(db, db', list, created, supply, now, p);
    }
  }

  lemma PaidFromIffListed(db: Db, db': Db, list: seq<Settleable>, created: nat, supply: Id, now: nat, w: nat)
    requires forall i | 0 <= i < |list| :: list[i].wallet < |db.wallets|
    requires SweptFirst(db, db', list, created, supply, now)
    ensures PaidFrom(db'.payouts, |db.payouts|, w) <==> Lists(list[..created], w)
  {
    hide Swept, PendingPayout, Created;
    var n := |db.payouts|;
    if Lists(list[..created], w) {
      var i :| 0 <= i < created && list[..created][i].wallet == w;
      NewPayout(db, db', list, created, supply, now, n + i);
    }
    if PaidFrom(db'.payouts, n, w) {
      var p :| n <= p < |db'.payouts| && db'.payouts[p].wallet == w;
      NewPayout(db, db', list, created, supply, now, p);
      assert list[..created][p - n].wallet == w;
    }
  }

  /** And the wallets it leaves: those that a new payout is of are empty, and the others as they were. */
  lemma PaidWalletsAreEmpty(db: Db, db': Db, list: seq<Settleable>, created: nat, supply: Id, now: nat)
    requires forall i | 0 <= i < |list| :: list[i].wallet < |db.wallets|
    requires SweptFirst(db, db', list, created, supply, now)
    ensures |db'.wallets| == |db.wallets|
    ensures forall w: nat | w < |db.wallets| ::
              db'.wallets[w] == if PaidFrom(db'.payouts, |db.payouts|, w) then db.wallets[w].(balance := 0) else db.wallets[w]
  {
    hide Swept, Created, PaidFrom, Lists;
    forall w: nat | w < |db.wallets|
      ensures PaidFrom(db'.payouts, |db.payouts|, w) <==> Lists(list[..created], w)
    {
      PaidFromIffListed(db, db', list, created, supply, now, w);
    }
  }

  /** The rows after a sweep, without the list: the new payouts, and the wallets they are of. */
  lemma SweepMeans(db: Db, db': Db, min: int, merchant: Option<Id>, created: nat, supply: Id, now: nat)
    requires var list := Listing(db, min, merchant);
             && SweptFirst(db, db', list, created, supply, now)
             && forall i | 0 <= i < created :: 0 < db.wallets[list[i].wallet].balance
    ensures |db'.payouts| == |db.payouts| + created && db.payouts <= db'.payouts
    ensures forall p | |db.payouts| <= p < |db'.payouts| :: PaysOut(db, db'.payouts[p], min, merchant, now)
    ensures OfDifferentWallets(db'.payouts, |db.payouts|)
    ensures |db'.wallets| == |db.wallets|
    ensures forall w: nat | w < |db.wallets| ::
              db'.wallets[w] == if PaidFrom(db'.payouts, |db.payouts|, w) then db.wallets[w].(balance := 0) else db.wallets[w]
    ensures OthersKeepTheirs(db, db', merchant)
    ensures created == |Listing(db, min, merchant)| ==>
              forall w: nat | w < |db.wallets| :: SettledIff(db, db', min, merchant, w)
  {
    hide SweptFirst, Listing, PaysOut, OfDifferentWallets, PaidFrom, SettledIff, OthersKeepTheirs;
    var list := Listing(db, min, merchant);
    NewPayoutsPayOut(db, db', min, merchant, created, supply, now);
    PaidWalletsAreEmpty(db, db', list, created, supply, now);
    OnlyTheirsIsPaidOut(db, db', min, merchant, now);
    if created == |list| {
      forall w: nat | w < |db.wallets|
        ensures SettledIff(db, db', min, merchant, w)
      {
        WholeListSwept(db, db', list, supply, now);
        SweptOutIff(db, db', min, merchant, w);
      }
    }
  }

  /** If the sweep was for one merchant, no other merchant's wallet is touched. */
  predicate OthersKeepTheirs(db: Db, db': Db, merchant: Option<Id>)
    requires |db'.wallets| == |db.wallets|
  {
    merchant.Some? ==>
      forall w | 0 <= w < |db.wallets| && db.wallets[w].merchant != merchant.value :: db'.wallets[w] == db.wallets[w]
  }

  lemma OnlyTheirsIsPaidOut(db: Db, db': Db, min: int, merchant: Option<Id>, now: nat)
    requires forall p | |db.payouts| <= p < |db'.payouts| :: PaysOut(db, db'.payouts[p], min, merchant, now)
    requires |db'.wallets| == |db.wallets|
    requires forall w: nat | w < |db.wallets| ::
               db'.wallets[w] == if PaidFrom(db'.payouts, |db.payouts|, w) then db.wallets[w].(balance := 0) else db.wallets[w]
    ensures OthersKeepTheirs(db, db', merchant)
  {
  }

  lemma WholeListSwept(db: Db, db': Db, list: seq<Settleable>, supply: Id, now: nat)
    requires forall i | 0 <= i < |list| :: list[i].wallet < |db.wallets|
    requires SweptFirst(db, db', list, |list|, supply, now)
    ensures db'.wallets == Swept(db.wallets, list)
  {
    hide Swept, Created;
    assert list[..|list|] == list;
  }

  /** The wallet is empty after the sweep exactly if it was, or held the minimum, is the merchant's and has an account. */
  predicate SettledIff(db: Db, db': Db, min: int, merchant: Option<Id>, w: nat)
    requires w < |db.wallets| == |db'.wallets|
  {
    var x := db.wallets[w];
    db'.wallets[w].balance == 0 <==>
      || x.balance == 0
      || (min <= x.balance && (merchant.None? || merchant == Some(x.merchant))
          && Account(x.merchant, x.currency, true) in db.accounts)
  }

  /** After a sweep that got through its list a wallet is empty if it was, or if it was to be settled; else it is not. */
  lemma SweptOutIff(db: Db, db': Db, min: int, merchant: Option<Id>, w: Id)
    requires w < |db.wallets| && db'.wallets == Swept(db.wallets, Listing(db, min, merchant))
    ensures |db'.wallets| == |db.wallets| && SettledIff(db, db', min, merchant, w)
  {
    hide Listing, Swept, FindAccount;
    var list := Listing(db, min, merchant);
    if Lists(list, w) {
      var i :| 0 <= i < |list| && list[i].wallet == w;
      assert db.accounts[list[i].account] in db.accounts;
    }
  }

  /** What leaves the wallets of each currency is what the new payouts are for. */
  lemma {:induction false} SweepMovesExactly(wallets: seq<Wallet>, list: seq<Settleable>, supply: Id, now: nat, c: Id)
    requires forall i | 0 <= i < |list| :: list[i].wallet < |wallets|
    requires forall i, j | 0 <= i < j < |list| :: list[i].wallet != list[j].wallet
    ensures Sum(wallets, BalanceIn(c)) - Sum(Swept(wallets, list), BalanceIn(c)) == Sum(Created(wallets, list, supply, now), OutIn(c))
  {
    hide Sum;
    if list == [] {
      assert Created(wallets, list, supply, now) == [];
      assert Sum<Payout>([], OutIn(c)) == 0 by { EmptySum(c); }
    } else {
      var n := |list| - 1;
      var before := list[..n];
      SweepMovesExactly(wallets, before, supply, now, c);
      var w := list[n].wallet;
      assert !Lists(before, w);
      var r := Swept(wallets, before);
      assert r[w] == wallets[w];
      SumUpdate(r, w, r[w].(balance := 0), BalanceIn(c));
      assert Created(wallets, list, supply, now)
          == Created(wallets, before, supply, now) + [Created(wallets, list, supply, now)[n]];
      SumOne(Created(wallets, before, supply, now), Created(wallets, list, supply, now)[n], OutIn(c));
    }
  }

  lemma EmptySum(c: Id)
    ensures Sum<Payout>([], OutIn(c)) == 0
  {
  }

  /** A wallet that settled before a sweep is empty after it, so it settles again only if nothing is enough; no other starts to. */
  lemma SweptSettlesIff(db: Db, db': Db, min: int, merchant: Option<Id>, w: Id)
    requires w < |db.wallets| && db'.accounts == db.accounts
    requires db'.wallets == Swept(db.wallets, Listing(db, min, merchant))
    ensures Settles(db', min, merchant, w) <==> Settles(db, min, merchant, w) && min <= 0
    ensures db'.wallets[w].merchant == db.wallets[w].merchant && db'.wallets[w].currency == db.wallets[w].currency
  {
    hide Listing, FindAccount;
    assert Lists(Listing(db, min, merchant), w) <==> Settles(db, min, merchant, w);
  }

  lemma ListedAfterSweep(db: Db, db': Db, min: int, merchant: Option<Id>, w: Id)
    requires w < |db.wallets| && db'.accounts == db.accounts
    requires db'.wallets == Swept(db.wallets, Listing(db, min, merchant))
    ensures Listed(db', min, merchant, w) == if 1 <= min then [] else Listed(db, min, merchant, w)
  {
    hide Swept, FindAccount, Lists, Listing;
    SweptSettlesIff(db, db', min, merchant, w);
  }

  /** The rows of `db'` among the first `n` wallets, if wallet by wallet it lists nothing or what `db` does. */
  lemma {:induction false} RowsFollow(db: Db, db': Db, min: int, merchant: Option<Id>, n: nat, same: bool)
    requires n <= |db.wallets| && n <= |db'.wallets|
    requires forall w: nat | w < n :: Listed(db', min, merchant, w) == if same then Listed(db, min, merchant, w) else []
    ensures Rows(db', min, merchant, n) == if same then Rows(db, min, merchant, n) else []
  {
    hide Listed;
    if n != 0 {
      RowsFollow(db, db', min, merchant, n - 1, same);
    }
  }

  /** What a second sweep would list: no wallet, or with a minimum below 1 exactly the wallets just swept. */
  lemma WhatIsLeftToSettle(db: Db, db': Db, min: int, merchant: Option<Id>)
    requires db'.accounts == db.accounts
    requires db'.wallets == Swept(db.wallets, Listing(db, min, merchant))
    ensures Listing(db', min, merchant) == if 1 <= min then [] else Listing(db, min, merchant)
  {
    hide Swept, FindAccount, Lists, Listed, Settles;
    forall w: nat | w < |db.wallets|
      ensures Listed(db', min, merchant, w) == if 1 <= min then [] else Listed(db, min, merchant, w)
    {
      ListedAfterSweep(db, db', min, merchant, w);
    }
    RowsFollow(db, db', min, merchant, |db.wallets|, min < 1);
  }
}
