/**
 * What the payout updates do without a lease. The three marks name a payout and check neither its status nor the claim,
 * so here a worker may write under any claim it ever got, at any time and as often as it likes; every other operation
 * is as before. This is exactly when the records survive it, write by write and over whole runs, and how they do not.
 */
module LateWrites {
  import opened Options
  import opened Ledger
  import opened Books
  import opened PayoutQueue
  import opened Records
  import opened Outbox
  import LeaseQueue

  /** markPaid, markRetry and markFailed, each with the rest of its transaction. */
  datatype Mark = MarkPaid(endpoints: seq<Id>) | MarkRetry | MarkFailed(txn: Id, endpoints: seq<Id>)

  /** The claimed row as the claim statement returned it: of a payout that was pending then. */
  predicate ClaimFits(db: Db, c: Claim)
  {
    && c.payout < |db.payouts| && SameTerms(c.row, db.payouts[c.payout])
    && c.row.attempts < POLICY.maxAttempts && c.row.wallet < |db.wallets|
  }

  /** The service would issue the mark for the claimed row, and the schema's CHECKs let it through. */
  predicate Possible(db: Db, c: Claim, m: Mark)
  {
    && ClaimFits(db, c)
    && match m
       case MarkPaid(eps) => EndpointsOf(db, c.row.merchant, eps)
       case MarkRetry => c.row.attempts + 1 < POLICY.maxAttempts
       case MarkFailed(txn, eps) =>
         && POLICY.maxAttempts <= c.row.attempts + 1
         && Postable(db, ReversalEntry(c.row, txn)) && EndpointsOf(db, c.row.merchant, eps)
  }

  function Marked(db: Db, c: Claim, m: Mark, now: nat): Db
    requires Possible(db, c, m)
  {
    match m
    case MarkPaid(eps) => PaidOut(db, c.payout, c.row, eps)
    case MarkRetry => db.(payouts := db.payouts[c.payout := RetriedPayout(db.payouts[c.payout], c.row.attempts + 1, now)])
    case MarkFailed(txn, eps) => Reversed(db, c.payout, c.row, txn, eps)
  }

  /** Paid and failed payouts stay exactly as they are. */
  ghost predicate KeepsClosed(db: Db, db': Db)
  {
    |db.payouts| <= |db'.payouts|
    && forall p | 0 <= p < |db.payouts| && db.payouts[p].status != Pending :: db'.payouts[p] == db.payouts[p]
  }

  /** One of the endpoints has already been told that the payout was paid. */
  ghost predicate Told(db: Db, payout: Id, endpoints: seq<Id>)
  {
    exists k | 0 <= k < |db.events| :: db.events[k].source == PayoutPaid(payout) && db.events[k].endpoint in endpoints
  }

  /** The guard the updates lack. */
  ghost predicate InTime(db: Db, c: Claim, m: Mark)
    requires c.payout < |db.payouts|
  {
    || db.payouts[c.payout].status == Pending
    || (m.MarkPaid? && db.payouts[c.payout].status == Paid && !Told(db, c.payout, m.endpoints))
  }

  ghost predicate RecordsOk(db: Db)
  {
    LedgerOk(db) && PayoutsOk(db) && OutboxOk(db)
  }

  // ---- One write ----

  /** On a pending payout a mark does what it is for. */
  lemma TimelyMarkIsSafe(db: Db, c: Claim, m: Mark, now: nat)
    requires RecordsOk(db) && Possible(db, c, m) && db.payouts[c.payout].status == Pending
    ensures PayoutsOk(Marked(db, c, m, now)) && OutboxOk(Marked(db, c, m, now)) && KeepsClosed(db, Marked(db, c, m, now))
  {
    hide EntriesOf, PayoutsOk, OutboxOk, BalancesInRange, TxnsShaped, VersionsCount;
    TimelyMarkKeepsPayouts(db, c, m, now);
    TimelyMarkKeepsOutbox(db, c, m, now);
  }

  lemma TimelyMarkKeepsPayouts(db: Db, c: Claim, m: Mark, now: nat)
    requires EntriesOk(db) && PayoutsOk(db) && Possible(db, c, m) && db.payouts[c.payout].status == Pending
    ensures PayoutsOk(Marked(db, c, m, now))
  {
    hide EntriesOf, EntriesOk, PayoutTxnsOwned, PayoutsDistinct;
    assert PayoutOk(db, db.payouts[c.payout]);
    match m
    case MarkFailed(txn, eps) => ReversalKeepsPayouts(db, c.payout, c.row, txn, eps);
    case _ => ScheduleKeepsPayouts(db, Marked(db, c, m, now), c.payout);
  }

  lemma TimelyMarkKeepsOutbox(db: Db, c: Claim, m: Mark, now: nat)
    requires OutboxOk(db) && Possible(db, c, m) && db.payouts[c.payout].status == Pending
    ensures OutboxOk(Marked(db, c, m, now))
  {
    hide EventOk, EventsDistinct;
    var db' := Marked(db, c, m, now);
    forall k | 0 <= k < |db.events|
      ensures EventOk(db', db.events[k])
    {
      EventsStayOk(db, db', db.events[k]);
    }
    var r := c.row;
    match m
    case MarkPaid(eps) =>
      MarkReports(db, c, m, now);
      FanoutKeepsOutbox(db, db', PayoutPaid(c.payout), r.merchant, eps, r.amount, r.currency);
    case MarkFailed(_, eps) =>
      MarkReports(db, c, m, now);
      FanoutKeepsOutbox(db, db', PayoutFailed(c.payout), r.merchant, eps, r.amount, r.currency);
    case MarkRetry =>
      EventsDistinctSame(db, db');
  }

  lemma MarkReports(db: Db, c: Claim, m: Mark, now: nat)
    requires Possible(db, c, m) && !m.MarkRetry? && db.payouts[c.payout].status == Pending
    ensures var source := if m.MarkPaid? then PayoutPaid(c.payout) else PayoutFailed(c.payout);
            && !Final(db, source)
            && forall e | 0 <= e < |db.endpoints| && db.endpoints[e].merchant == c.row.merchant ::
                 EventOk(Marked(db, c, m, now), Event(source, c.row.merchant, e, c.row.amount, c.row.currency))
  {
  }

  /** Paying a paid payout again changes nothing but the outbox, which it repeats itself in exactly if an endpoint knew. */
  lemma SecondPaymentKeepsOutboxIff(db: Db, c: Claim, m: Mark, now: nat)
    requires RecordsOk(db) && Possible(db, c, m) && m.MarkPaid? && db.payouts[c.payout].status == Paid
    ensures Marked(db, c, m, now) == db.(events := db.events + Fanout(PayoutPaid(c.payout), c.row.merchant, m.endpoints, c.row.amount, c.row.currency))
    ensures OutboxOk(Marked(db, c, m, now)) <==> !Told(db, c.payout, m.endpoints)
  {
    hide LedgerOk, PayoutsOk;
    var db' := Marked(db, c, m, now);
    assert db'.payouts == db.payouts;
    var n, eps := |db.events|, m.endpoints;
    if Told(db, c.payout, eps) {
      var k :| 0 <= k < n && db.events[k].source == PayoutPaid(c.payout) && db.events[k].endpoint in eps;
      var i :| 0 <= i < |eps| && eps[i] == db.events[k].endpoint;
      assert db'.events[k] == db.events[k] && db'.events[n + i].endpoint == eps[i];
      assert SameChange(db'.events[k].source, db'.events[n + i].source);
    } else {
      forall k | 0 <= k < |db'.events|
        ensures EventOk(db', db'.events[k])
      {
        if k < n {
          assert EventOk(db, db.events[k]);
          EventsStayOk(db, db', db.events[k]);
        }
      }
      forall j, k | 0 <= j < k < |db'.events| && SameChange(db'.events[j].source, db'.events[k].source)
        ensures db'.events[j].endpoint != db'.events[k].endpoint
      {
        if n <= j {
          assert db'.events[j].endpoint == eps[j - n] && db'.events[k].endpoint == eps[k - n];
        } else if n <= k {
          assert db'.events[k].endpoint == eps[k - n];
        }
      }
    }
  }

  /**
   * The marks keep paid and failed payouts as they are, reversals matched one to one with failed payouts, and each
   * change reported once per endpoint, if and only if they come while the payout is pending; except that marking a paid
   * payout paid is harmless as long as it tells nobody twice.
   */
  lemma MarkIsSafeIffInTime(db: Db, c: Claim, m: Mark, now: nat)
    requires RecordsOk(db) && Possible(db, c, m)
    ensures var db' := Marked(db, c, m, now);
            PayoutsOk(db') && OutboxOk(db') && KeepsClosed(db, db') <==> InTime(db, c, m)
  {
    hide RecordsOk, PayoutsOk, OutboxOk, Told;
    if db.payouts[c.payout].status == Pending {
      TimelyMarkIsSafe(db, c, m, now);
    } else if m.MarkPaid? && db.payouts[c.payout].status == Paid {
      SecondPaymentKeepsOutboxIff(db, c, m, now);
      SamePayoutsStayOk(db, c, m, now);
    } else {
      LateMarkChangesClosed(db, c, m, now);
    }
  }

  lemma SamePayoutsStayOk(db: Db, c: Claim, m: Mark, now: nat)
    requires RecordsOk(db) && Possible(db, c, m) && m.MarkPaid? && db.payouts[c.payout].status == Paid
    ensures PayoutsOk(Marked(db, c, m, now)) && KeepsClosed(db, Marked(db, c, m, now))
  {
    hide EntriesOf, EntriesOk, PayoutTxnsOwned, PayoutsDistinct, OutboxOk;
    assert PayoutOk(db, db.payouts[c.payout]);
    ScheduleKeepsPayouts(db, Marked(db, c, m, now), c.payout);
  }

  lemma LateMarkChangesClosed(db: Db, c: Claim, m: Mark, now: nat)
    requires RecordsOk(db) && Possible(db, c, m) && db.payouts[c.payout].status != Pending
    requires m.MarkPaid? ==> db.payouts[c.payout].status == Failed
    ensures !KeepsClosed(db, Marked(db, c, m, now))
  {
    hide LedgerOk, OutboxOk, EntriesOf;
    var before, after := db.payouts[c.payout], Marked(db, c, m, now).payouts[c.payout];
    assert PayoutOk(db, before);
    match m
    case MarkRetry => assert |after.failures| == |before.failures| + 1;
    case MarkFailed(txn, _) => assert after.reversal == Some(txn) && txn !in db.txns;
    case MarkPaid(_) =>
  }

  /** The row of a failed payout that is marked paid contradicts its reversal. */
  lemma PaidAfterFailedKeepsReversal(db: Db, c: Claim, eps: seq<Id>, now: nat)
    requires RecordsOk(db) && Possible(db, c, MarkPaid(eps))
    ensures PayoutsOk(Marked(db, c, MarkPaid(eps), now)) <==> db.payouts[c.payout].status != Failed
  {
    hide EntriesOf, PayoutTxnsOwned, PayoutsDistinct, OutboxOk;
    var db' := Marked(db, c, MarkPaid(eps), now);
    assert PayoutOk(db, db.payouts[c.payout]);
    if db.payouts[c.payout].status == Failed {
      assert !PayoutOk(db', db'.payouts[c.payout]);
    } else {
      ScheduleKeepsPayouts(db, db', c.payout);
    }
  }

  /** Reversals stay matched one to one with failed payouts exactly when the payout had not failed before. */
  lemma ReversalKeepsMatchIff(db: Db, c: Claim, txn: Id, eps: seq<Id>, now: nat)
    requires RecordsOk(db) && Possible(db, c, MarkFailed(txn, eps))
    ensures PayoutsOk(Marked(db, c, MarkFailed(txn, eps), now)) <==> db.payouts[c.payout].status != Failed
  {
    hide EntriesOf, OutboxOk;
    if db.payouts[c.payout].status == Failed {
      SecondReversalOrphansTheFirst(db, c.payout, c.row, txn, eps);
    } else {
      ReversalKeepsPayouts(db, c.payout, c.row, txn, eps);
    }
  }

  // ---- Whole runs ----

  /** Any operation but a worker's write; or a write under a claim somebody once got. */
  datatype Move = World(op: Op) | Write(claim: Id, mark: Mark)

  predicate Allowed(st: State, m: Move)
  {
    match m
    case World(op) => !Writes(op) && Guard(op, st)
    case Write(c, mark) => c in st.claims && Possible(st.db, st.claims[c], mark)
  }

  /** A write leaves its claim behind, to be written under again. */
  function Following(st: State, m: Move): State
    requires Allowed(st, m)
  {
    match m
    case World(op) => Apply(op, st)
    case Write(c, mark) => st.(db := Marked(st.db, st.claims[c], mark, st.now))
  }

  ghost predicate Fits(st: State, m: Move)
    requires Allowed(st, m)
  {
    m.Write? ==> InTime(st.db, st.claims[m.claim], m.mark)
  }

  ghost predicate ClaimsFit(st: State)
  {
    forall c | c in st.claims :: ClaimFits(st.db, st.claims[c])
  }

  ghost predicate Sound(st: State)
  {
    RecordsOk(st.db) && ClaimsFit(st)
  }

  lemma WorldIsSafe(st: State, op: Op)
    requires Sound(st) && !Writes(op) && Guard(op, st)
    ensures RecordsOk(Apply(op, st).db) && KeepsClosed(st.db, Apply(op, st).db)
  {
    hide LedgerOk, PayoutsOk, OutboxOk, ClaimsFit, Guard, Apply;
    assert EntriesOk(st.db) by { LedgerHasEntries(st.db); }
    StepKeepsLedger(op, st);
    StepKeepsPayouts(op, st);
    StepKeepsOutbox(op, st);
    StepKeepsReports(op, st);
  }

  lemma LedgerHasEntries(db: Db)
    requires LedgerOk(db)
    ensures EntriesOk(db)
  {
  }

  lemma WorldKeepsClaims(st: State, op: Op)
    requires Sound(st) && !Writes(op) && Guard(op, st)
    ensures ClaimsFit(Apply(op, st))
  {
    hide LedgerOk, PayoutsDistinct, PayoutTxnsOwned, OutboxOk, EntriesOf, EndpointsOf, NoDuplicates;
    if op.Lease? {
      assert PayoutOk(st.db, st.db.payouts[op.payout]);
    }
  }

  lemma WriteKeepsLedger(db: Db, c: Claim, m: Mark, now: nat)
    requires LedgerOk(db) && Possible(db, c, m)
    ensures LedgerOk(Marked(db, c, m, now))
  {
    hide LedgerOk;
    if m.MarkFailed? {
      SingleKeepsLedger(db, ReversalTxn, ReversalEntry(c.row, m.txn));
      SameLedger(Single(db, ReversalTxn, ReversalEntry(c.row, m.txn)), Marked(db, c, m, now));
    } else {
      SameLedger(db, Marked(db, c, m, now));
    }
  }

  lemma WriteKeepsClaims(st: State, c: Claim, m: Mark)
    requires ClaimsFit(st) && Possible(st.db, c, m)
    ensures ClaimsFit(st.(db := Marked(st.db, c, m, st.now)))
  {
  }

  lemma MoveIsSafeIffItFits(st: State, m: Move)
    requires Sound(st) && Allowed(st, m)
    ensures Sound(Following(st, m)) && KeepsClosed(st.db, Following(st, m).db) <==> Fits(st, m)
  {
    hide LedgerOk, PayoutsOk, OutboxOk, ClaimsFit, KeepsClosed, InTime, Marked, Guard, Apply;
    match m
    case World(op) =>
      WorldIsSafe(st, op);
      WorldKeepsClaims(st, op);
    case Write(c, mark) =>
      MarkIsSafeIffInTime(st.db, st.claims[c], mark, st.now);
      WriteKeepsLedger(st.db, st.claims[c], mark, st.now);
      WriteKeepsClaims(st, st.claims[c], mark);
  }

  ghost predicate Valid(moves: seq<Move>)
    decreases |moves|, 0
  {
    moves == [] || (Valid(moves[..|moves| - 1]) && Allowed(Reached(moves[..|moves| - 1]), moves[|moves| - 1]))
  }

  ghost function Reached(moves: seq<Move>): State
    requires Valid(moves)
    decreases |moves|, 1
  {
    if moves == [] then Initial else Following(Reached(moves[..|moves| - 1]), moves[|moves| - 1])
  }

  /** The records were right after each move, and no move changed a closed payout. */
  ghost predicate SafeThroughout(moves: seq<Move>)
    requires Valid(moves)
    decreases |moves|
  {
    moves == [] ||
    (var front := moves[..|moves| - 1];
     SafeThroughout(front) && Sound(Reached(moves)) && KeepsClosed(Reached(front).db, Reached(moves).db))
  }

  /** Each write found what the updates do not check. */
  ghost predicate FitsThroughout(moves: seq<Move>)
    requires Valid(moves)
    decreases |moves|
  {
    moves == [] ||
    (var front := moves[..|moves| - 1];
     FitsThroughout(front) && Fits(Reached(front), moves[|moves| - 1]))
  }

  lemma InitialIsSound()
    ensures Sound(Initial)
  {
  }

  /**
   * Without any lease: over a whole run the records stay right and closed payouts stay as they are if and only if
   * every write comes while its payout is pending, or repeats a payment that nobody is told of twice.
   */
  lemma {:induction false} RunIsSafeIffWritesFit(moves: seq<Move>)
    requires Valid(moves)
    ensures SafeThroughout(moves) <==> FitsThroughout(moves)
    ensures SafeThroughout(moves) ==> Sound(Reached(moves))
    decreases |moves|
  {
    hide Sound, KeepsClosed, Allowed, Following, Fits;
    if moves == [] {
      InitialIsSound();
    } else {
      var n := |moves| - 1;
      RunIsSafeIffWritesFit(moves[..n]);
      if SafeThroughout(moves[..n]) {
        MoveIsSafeIffItFits(Reached(moves[..n]), moves[n]);
      }
    }
  }

  // ---- Two workers and an expired lease ----

  lemma OneMore(moves: seq<Move>, m: Move)
    requires Valid(moves) && Allowed(Reached(moves), m)
    ensures Valid(moves + [m]) && Reached(moves + [m]) == Following(Reached(moves), m)
  {
    hide Allowed, Following;
    assert (moves + [m])[..|moves|] == moves;
  }

  const DEPOSITED := Entry(0, 0, Credit, 100, 0)
  const SWEPT := Entry(1, 0, Debit, 100, 0)

  /** The swept payout of 100, pending. */
  function Waiting(attempts: nat, nextAt: nat, failures: seq<nat>): Payout
  {
    Payout(0, 0, 0, 0, 100, 1, Pending, None, attempts, nextAt, failures)
  }

  /** The database with the one wallet swept into the one payout. */
  function Scene(row: Payout, now: nat, claims: map<Id, Claim>, next: Id): State
  {
    State(Db([Wallet(0, 0, 0, 0)], map[0 := DepositTxn, 1 := PayoutTxn], [DEPOSITED] + [SWEPT], [], [], [row],
             [Account(0, 0, true)], [], []),
          now, claims, next)
  }

  const FUNDING := [World(OpenWallet(0, 0))] + [World(OpenAccount(0, 0))] + [World(Deposit(0, 100, 0))]

  const SWEEPING := FUNDING + [World(Sweep(0, 0, 100, 1, 0))]

  lemma FundingWorks()
    ensures Valid(FUNDING)
    ensures Reached(FUNDING) == State(Db([Wallet(0, 0, 100, 0)], map[0 := DepositTxn], [DEPOSITED], [], [], [],
                                         [Account(0, 0, true)], [], []), 0, map[], 0)
  {
    hide Valid, Reached;
    var a, b, c := World(OpenWallet(0, 0)), World(OpenAccount(0, 0)), World(Deposit(0, 100, 0));
    assert Valid([]) && Reached([]) == Initial by { Nothing(); }
    assert [] + [a] == [a];
    OneMore([], a);
    OneMore([a], b);
    OneMore([a] + [b], c);
  }

  lemma SweepingWorks()
    ensures Valid(SWEEPING) && Reached(SWEEPING) == Scene(Waiting(0, 0, []), 0, map[], 0)
  {
    hide Valid, Reached, FUNDING;
    FundingWorks();
    OneMore(FUNDING, World(Sweep(0, 0, 100, 1, 0)));
  }

  lemma Nothing()
    ensures Valid([]) && Reached([]) == Initial
  {
  }

  /** A claim, the bank's refusal, and the wait for the retry. */
  function Refused(claim: Id, wait: nat): seq<Move>
  {
    [World(Lease(0))] + [Write(claim, MarkRetry)] + [World(Tick(wait))]
  }

  lemma RefusedWorks(moves: seq<Move>, row: Payout, now: nat, claims: map<Id, Claim>, next: Id, wait: nat)
    requires Valid(moves) && Reached(moves) == Scene(row, now, claims, next)
    requires row == Waiting(row.attempts, row.nextAt, row.failures) && row.nextAt <= now && row.attempts < 2
    ensures var held := row.(nextAt := now + 60);
            var moves' := moves + Refused(next, wait);
            && Valid(moves')
            && Reached(moves') == Scene(Waiting(row.attempts + 1, now + LeaseQueue.Backoff(POLICY, row.attempts + 1), row.failures + [now]),
                                        now + wait, claims[next := Claim(0, held)], next + 1)
  {
    hide Valid, Reached, LeaseQueue.Backoff;
    OneMore(moves, World(Lease(0)));
    OneMore(moves + [World(Lease(0))], Write(next, MarkRetry));
    OneMore(moves + [World(Lease(0))] + [Write(next, MarkRetry)], World(Tick(wait)));
    assert moves + Refused(next, wait) == moves + [World(Lease(0))] + [Write(next, MarkRetry)] + [World(Tick(wait))];
  }

  /** Two workers hold the payout on its last attempt, the first one past its lease. */
  const TWO_CLAIMS := SWEEPING + Refused(0, 10) + Refused(1, 20) + [World(Lease(0))] + [World(Tick(60))] + [World(Lease(0))]

  lemma TwoClaimsHappen()
    ensures Valid(TWO_CLAIMS)
    ensures var st := Reached(TWO_CLAIMS);
            && st.db == Scene(Waiting(2, 150, [0] + [10]), 90, map[], 0).db && st.now == 90
            && 2 in st.claims && st.claims[2] == Claim(0, Waiting(2, 90, [0] + [10]))
            && 3 in st.claims && st.claims[3] == Claim(0, Waiting(2, 150, [0] + [10]))
  {
    hide Valid, Reached;
    SweepingWorks();
    LeaseQueue.Delays();
    assert [] + [0] == [0];
    RefusedWorks(SWEEPING, Waiting(0, 0, []), 0, map[], 0, 10);
    var one := SWEEPING + Refused(0, 10);
    RefusedWorks(one, Waiting(1, 10, [0]), 10, Reached(one).claims, 1, 20);
    var two := one + Refused(1, 20);
    OneMore(two, World(Lease(0)));
    OneMore(two + [World(Lease(0))], World(Tick(60)));
    OneMore(two + [World(Lease(0))] + [World(Tick(60))], World(Lease(0)));
  }

  /** Both reverse: the wallet ends with twice what was ever deposited, and the first reversal belongs to no payout. */
  lemma DoubleReversalHappens()
    ensures var moves := TWO_CLAIMS + [Write(3, MarkFailed(2, []))] + [Write(2, MarkFailed(3, []))];
            && Valid(moves) && Reached(moves).db.wallets == [Wallet(0, 0, 200, 0)]
            && !FitsThroughout(moves) && !SafeThroughout(moves)
  {
    hide Valid, Reached, TWO_CLAIMS, FitsThroughout, SafeThroughout;
    TwoClaimsHappen();
    OneMore(TWO_CLAIMS, Write(3, MarkFailed(2, [])));
    var once := TWO_CLAIMS + [Write(3, MarkFailed(2, []))];
    assert Reached(once).db.wallets == [Wallet(0, 0, 100, 0)] && Reached(once).db.payouts[0].status == Failed;
    OneMore(once, Write(2, MarkFailed(3, [])));
    LastWriteDoesNotFit(once, Write(2, MarkFailed(3, [])));
    RunIsSafeIffWritesFit(once + [Write(2, MarkFailed(3, []))]);
  }

  /** One is paid by the bank, the other reverses: paid is left, and the wallet has the money too. */
  lemma ReversalOfPaidHappens()
    ensures var moves := TWO_CLAIMS + [Write(3, MarkPaid([]))] + [Write(2, MarkFailed(2, []))];
            && Valid(moves) && Valid(TWO_CLAIMS + [Write(3, MarkPaid([]))])
            && Reached(TWO_CLAIMS + [Write(3, MarkPaid([]))]).db.payouts == [Waiting(2, 150, [0] + [10]).(status := Paid)]
            && Reached(moves).db.wallets == [Wallet(0, 0, 100, 0)]
            && Reached(moves).db.payouts == [FailedPayout(Waiting(2, 150, [0] + [10]), 3, 2)]
            && !FitsThroughout(moves) && !SafeThroughout(moves)
  {
    hide Valid, Reached, TWO_CLAIMS, FitsThroughout, SafeThroughout;
    TwoClaimsHappen();
    OneMore(TWO_CLAIMS, Write(3, MarkPaid([])));
    var paid := TWO_CLAIMS + [Write(3, MarkPaid([]))];
    OneMore(paid, Write(2, MarkFailed(2, [])));
    LastWriteDoesNotFit(paid, Write(2, MarkFailed(2, [])));
    RunIsSafeIffWritesFit(paid + [Write(2, MarkFailed(2, []))]);
  }

  lemma LastWriteDoesNotFit(moves: seq<Move>, m: Move)
    requires Valid(moves) && Allowed(Reached(moves), m) && Valid(moves + [m]) && !Fits(Reached(moves), m)
    ensures !FitsThroughout(moves + [m])
  {
    hide Valid, Reached, Allowed, Fits;
    assert (moves + [m])[..|moves|] == moves;
  }
}
