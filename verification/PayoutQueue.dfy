/**
 * The payouts table as a lease queue: scheduling columns and workers' claims. Every atomic operation on the money
 * tables is a step of that queue or leaves it alone, so the queue's invariants hold of payouts.
 */
module PayoutQueue {
  import opened Options
  import opened Ledger
  import Q = LeaseQueue

  const POLICY := Q.PAYOUT_POLICY

  function FateOf(s: PayoutStatus): Q.Fate
  {
    match s
    case Pending => Q.Open
    case Paid => Q.Done
    case Failed => Q.GivenUp
  }

  function RowOf(p: Payout): Q.Row
  {
    Q.Row(FateOf(p.status), p.attempts, p.nextAt, p.failures)
  }

  function RowsOf(payouts: seq<Payout>): (rows: seq<Q.Row>)
    ensures |rows| == |payouts|
  {
    seq(|payouts|, i requires 0 <= i < |payouts| => RowOf(payouts[i]))
  }

  function HoldOf(c: Claim): Q.Hold
  {
    Q.Hold(c.payout, c.row.attempts, c.row.nextAt)
  }

  function HoldsOf(claims: map<Id, Claim>): map<Id, Q.Hold>
  {
    map c | c in claims :: HoldOf(claims[c])
  }

  function QueueOf(st: State): Q.Queue
  {
    Q.Queue(RowsOf(st.db.payouts), st.now, HoldsOf(st.claims), st.nextClaim)
  }

  /** The queue step an operation takes, if any. */
  function QueueStep(op: Op): Option<Q.Step>
  {
    match op
    case Tick(d) => Some(Q.Tick(d))
    case Sweep(_, _, _, _, at) => Some(Q.Enqueue(at))
    case Lease(p) => Some(Q.Claim(p))
    case Pay(c, _) => Some(Q.Succeed(c))
    case Retry(c) => Some(Q.Fail(c))
    case Reverse(c, _, _, _) => Some(Q.Fail(c))
    case _ => None
  }

  lemma StepIsEnabled(op: Op, st: State)
    requires Guard(op, st) && QueueStep(op).Some?
    ensures Q.Enabled(POLICY, QueueOf(st), QueueStep(op).value)
  {
    hide EndpointsOf, NoDuplicates, Postable;
  }

  lemma StepRefinesHolds(op: Op, st: State, s: Q.Step)
    requires Guard(op, st) && QueueStep(op) == Some(s) && Q.Enabled(POLICY, QueueOf(st), s)
    ensures QueueOf(Apply(op, st)).holds == Q.Next(POLICY, QueueOf(st), s).holds
  {
    hide Q.Backoff, Q.Enabled, EndpointsOf, NoDuplicates, Postable;
  }

  lemma StepRefinesRows(op: Op, st: State, s: Q.Step)
    requires Guard(op, st) && QueueStep(op) == Some(s) && Q.Enabled(POLICY, QueueOf(st), s)
    ensures QueueOf(Apply(op, st)).rows == Q.Next(POLICY, QueueOf(st), s).rows
  {
    hide Q.Backoff, Q.Enabled, EndpointsOf, NoDuplicates, Postable;
  }

  lemma StepRefinesQueue(op: Op, st: State)
    requires Guard(op, st)
    ensures match QueueStep(op)
            case None => QueueOf(Apply(op, st)) == QueueOf(st)
            case Some(s) => Q.Enabled(POLICY, QueueOf(st), s) && QueueOf(Apply(op, st)) == Q.Next(POLICY, QueueOf(st), s)
  {
    hide Q.Backoff, Q.Enabled, RowsOf, HoldsOf, EndpointsOf, NoDuplicates, Postable;
    match QueueStep(op)
    case None =>
    case Some(s) =>
      StepIsEnabled(op, st);
      StepRefinesHolds(op, st, s);
      StepRefinesRows(op, st, s);
  }

  /** What was agreed when the payout was created never changes. */
  predicate SameTerms(p: Payout, r: Payout)
  {
    && p.merchant == r.merchant && p.wallet == r.wallet && p.account == r.account
    && p.currency == r.currency && p.amount == r.amount && p.txn == r.txn
  }

  ghost predicate TermsKept(st: State)
  {
    forall c | c in st.claims ::
      st.claims[c].payout < |st.db.payouts| && SameTerms(st.claims[c].row, st.db.payouts[st.claims[c].payout])
  }

  ghost predicate ClaimsOk(st: State)
  {
    Q.Inv(POLICY, QueueOf(st)) && TermsKept(st)
  }

  lemma StepKeepsTerms(op: Op, st: State)
    requires TermsKept(st) && Guard(op, st)
    ensures TermsKept(Apply(op, st))
  {
    hide EndpointsOf, NoDuplicates, Postable, Q.Backoff;
  }

  /** The operation is a worker's write under a claim. */
  predicate Writes(op: Op)
  {
    op.Pay? || op.Retry? || op.Reverse?
  }

  lemma StepKeepsClaims(op: Op, st: State)
    requires ClaimsOk(st) && Guard(op, st)
    ensures ClaimsOk(Apply(op, st))
  {
    hide Q.Inv, Guard, Apply, QueueOf, Q.Next, Q.Enabled;
    StepKeepsTerms(op, st);
    StepRefinesQueue(op, st);
    if QueueStep(op).Some? {
      Q.StepKeepsInv(POLICY, QueueOf(st), QueueStep(op).value);
    }
  }

  /**
   * What a live lease guarantees its worker about the committed payout: still pending, on the terms and with the
   * attempts it claimed, and rested for as long as its failures demand.
   */
  lemma LiveClaimIsCurrent(st: State, c: Id)
    requires ClaimsOk(st) && Live(st, c)
    ensures var Claim(p, row) := st.claims[c];
            var payout := st.db.payouts[p];
            && payout.status == Pending
            && SameTerms(row, payout)
            && payout.attempts == row.attempts == |payout.failures| < POLICY.maxAttempts
            && payout.nextAt == row.nextAt
            && (0 < |payout.failures| ==> payout.failures[0] + Q.Span(POLICY, |payout.failures|) <= st.now)
  {
    var q := QueueOf(st);
    assert Q.Live(q, c);
    Q.LiveHoldHasWaited(POLICY, q, c);
    assert Q.LiveHoldOk(POLICY, q, c);
    assert q.rows[st.claims[c].payout] == RowOf(st.db.payouts[st.claims[c].payout]);
  }
}
