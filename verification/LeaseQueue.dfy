/**
 * A retry queue kept in a table and worked by any number of processes: a worker leases a due row by pushing its
 * next-attempt time into the future, and later closes the row or schedules a retry with exponential backoff.
 * Payouts and the polled webhook outbox are two instances of it, with different policies.
 *
 * The update statements of the repositories do not check that the row is still open or that the lease is still
 * theirs, so the one thing this machine assumes of a worker is that it writes only while its lease is live.
 */
module LeaseQueue {
  datatype Policy = Policy(maxAttempts: nat, base: nat, cap: nat, lease: nat)

  /** Two attempts after the first, 10s then 20s apart, under a 60s lease. */
  const PAYOUT_POLICY := Policy(3, 10, 300, 60)

  /** Four attempts after the first, starting at 5s, under a 60s lease. */
  const WEBHOOK_POLICY := Policy(5, 5, 300, 60)

  function Power2(n: nat): nat
  {
    if n == 0 then 1 else 2 * Power2(n - 1)
  }

  function Backoff(p: Policy, attempt: nat): nat
    requires 0 < attempt
  {
    var delay := p.base * Power2(attempt - 1);
    if delay < p.cap then delay else p.cap
  }

  /** The shortest time `failures` recorded failures and their delays can take. */
  function Span(p: Policy, failures: nat): nat
  {
    if failures == 0 then 0 else Span(p, failures - 1) + Backoff(p, failures)
  }

  /** Still to be worked on; or closed, with its work done or given up. */
  datatype Fate = Open | Done | GivenUp

  /** `failures` is a history variable: the times at which a retry was recorded. */
  datatype Row = Row(fate: Fate, attempts: nat, nextAt: nat, failures: seq<nat>)

  /** What a worker holds after a claim: the row, the attempts it read, and when its lease runs out. */
  datatype Hold = Hold(row: nat, attempts: nat, until: nat)

  datatype Queue = Queue(rows: seq<Row>, now: nat, holds: map<nat, Hold>, nextHold: nat)

  const Empty := Queue([], 0, map[], 0)

  datatype Step =
    | Tick(seconds: nat)
    | Enqueue(at: nat)
    | Claim(row: nat)
    | Succeed(hold: nat)
    | Fail(hold: nat)
    | Abandon(hold: nat)

  predicate Due(q: Queue, row: nat)
  {
    row < |q.rows| && q.rows[row].fate.Open? && q.rows[row].nextAt <= q.now
  }

  predicate Live(q: Queue, hold: nat)
  {
    hold in q.holds && q.now < q.holds[hold].until
  }

  predicate Enabled(p: Policy, q: Queue, s: Step)
  {
    match s
    case Tick(_) => true
    case Enqueue(at) => at <= q.now
    case Claim(row) => Due(q, row)
    case Succeed(h) => Live(q, h) && q.holds[h].row < |q.rows|
    case Fail(h) => Live(q, h) && q.holds[h].row < |q.rows|
    case Abandon(h) => Live(q, h) && q.holds[h].row < |q.rows|
  }

  function Next(p: Policy, q: Queue, s: Step): Queue
    requires Enabled(p, q, s)
  {
    match s
    case Tick(d) => q.(now := q.now + d)
    case Enqueue(at) => q.(rows := q.rows + [Row(Open, 0, at, [])])
    case Claim(row) =>
      var r := q.rows[row].(nextAt := q.now + p.lease);
      q.(rows := q.rows[row := r],
         holds := q.holds[q.nextHold := Hold(row, r.attempts, r.nextAt)],
         nextHold := q.nextHold + 1)
    case Succeed(h) => Settled(q, h, Written(p, q.rows[q.holds[h].row], Success, q.holds[h].attempts, q.now))
    case Fail(h) => Settled(q, h, Written(p, q.rows[q.holds[h].row], Failure, q.holds[h].attempts, q.now))
    case Abandon(h) => Settled(q, h, Written(p, q.rows[q.holds[h].row], Abandonment, q.holds[h].attempts, q.now))
  }

  /** The row after its worker's one write, and the lease given up. */
  function Settled(q: Queue, h: nat, r: Row): Queue
    requires h in q.holds && q.holds[h].row < |q.rows|
  {
    q.(rows := q.rows[q.holds[h].row := r], holds := q.holds - {h})
  }

  /** What the worker's update reports of its attempt. */
  datatype Report = Success | Failure | Abandonment

  /** What the update writes over the row `r`, whatever that is by now; `attempts` is what the worker read. */
  function Written(p: Policy, r: Row, report: Report, attempts: nat, now: nat): Row
  {
    match report
    case Success => r.(fate := Done)
    case Failure =>
      if attempts + 1 < p.maxAttempts then Retried(p, r, attempts + 1, now)
      else r.(fate := GivenUp, attempts := attempts + 1)
    case Abandonment => r.(fate := GivenUp, attempts := attempts + 1)
  }

  /** A row whose `attempts`-th failure is recorded at time `now`. */
  function Retried(p: Policy, r: Row, attempts: nat, now: nat): Row
    requires 0 < attempts
  {
    r.(attempts := attempts, nextAt := now + Backoff(p, attempts), failures := r.failures + [now])
  }

  /** The row may not be attempted before `t` unless its backoff has passed. */
  ghost predicate RestedAt(p: Policy, r: Row, t: nat)
  {
    0 < |r.failures| ==> r.failures[|r.failures| - 1] + Backoff(p, |r.failures|) <= t
  }

  ghost predicate RowOk(p: Policy, r: Row)
  {
    && (forall i | 0 <= i < |r.failures| - 1 :: r.failures[i] + Backoff(p, i + 1) <= r.failures[i + 1])
    && |r.failures| < p.maxAttempts
    && r.attempts <= p.maxAttempts
    && (r.fate.Open? ==> r.attempts == |r.failures| && RestedAt(p, r, r.nextAt))
  }

  /** A live lease means: the row is open, is the one the worker read, and stays leased until the worker's deadline. */
  ghost predicate LiveHoldOk(p: Policy, q: Queue, h: nat)
    requires h in q.holds && q.holds[h].row < |q.rows|
  {
    var Hold(row, attempts, until) := q.holds[h];
    q.now < until ==>
      && q.rows[row].fate.Open?
      && q.rows[row].nextAt == until
      && q.rows[row].attempts == attempts
      && RestedAt(p, q.rows[row], q.now)
  }

  ghost predicate Exclusive(q: Queue)
  {
    forall g, h | Live(q, g) && Live(q, h) && g != h :: q.holds[g].row != q.holds[h].row
  }

  ghost predicate Inv(p: Policy, q: Queue)
  {
    && 0 < p.maxAttempts
    && 0 < p.lease
    && (forall i | 0 <= i < |q.rows| :: RowOk(p, q.rows[i]))
    && (forall h | h in q.holds :: h < q.nextHold && q.holds[h].row < |q.rows| && LiveHoldOk(p, q, h))
    && Exclusive(q)
  }

  /** A due row is under no live lease. */
  lemma DueRowsAreFree(p: Policy, q: Queue, row: nat, h: nat)
    requires Inv(p, q) && Due(q, row) && Live(q, h)
    ensures q.holds[h].row != row
  {
    assert LiveHoldOk(p, q, h);
  }

  lemma ClaimKeepsInv(p: Policy, q: Queue, row: nat)
    requires Inv(p, q) && Due(q, row)
    ensures Inv(p, Next(p, q, Claim(row)))
  {
    var q' := Next(p, q, Claim(row));
    assert RowOk(p, q.rows[row]);
    forall h | h in q'.holds
      ensures h < q'.nextHold && q'.holds[h].row < |q'.rows| && LiveHoldOk(p, q', h)
    {
      if h != q.nextHold {
        assert LiveHoldOk(p, q, h);
        if Live(q, h) {
          DueRowsAreFree(p, q, row, h);
        }
      }
    }
    forall g, h | Live(q', g) && Live(q', h) && g != h
      ensures q'.holds[g].row != q'.holds[h].row
    {
      if g == q.nextHold {
        DueRowsAreFree(p, q, row, h);
      } else if h == q.nextHold {
        DueRowsAreFree(p, q, row, g);
      } else {
        assert Live(q, g) && Live(q, h);
      }
    }
  }

  lemma SettleKeepsInv(p: Policy, q: Queue, h: nat, r: Row)
    requires Inv(p, q) && Live(q, h) && RowOk(p, r)
    ensures Inv(p, Settled(q, h, r))
  {
    var q' := Settled(q, h, r);
    forall g | g in q'.holds
      ensures g < q'.nextHold && q'.holds[g].row < |q'.rows| && LiveHoldOk(p, q', g)
    {
      assert LiveHoldOk(p, q, g);
      assert Live(q, g) ==> q.holds[g].row != q.holds[h].row;
    }
    assert forall g | Live(q', g) :: Live(q, g);
  }

  /** The clock and new rows leave the claimed rows alone. */
  lemma OthersKeepInv(p: Policy, q: Queue, s: Step)
    requires Inv(p, q) && Enabled(p, q, s) && (s.Tick? || s.Enqueue?)
    ensures Inv(p, Next(p, q, s))
  {
    var q' := Next(p, q, s);
    forall h | h in q.holds
      ensures h < q'.nextHold && q'.holds[h].row < |q'.rows| && LiveHoldOk(p, q', h)
    {
      assert LiveHoldOk(p, q, h);
    }
    assert forall h | Live(q', h) :: Live(q, h);
  }

  lemma WriteKeepsInv(p: Policy, q: Queue, s: Step)
    requires Inv(p, q) && Enabled(p, q, s) && (s.Succeed? || s.Fail? || s.Abandon?)
    ensures Inv(p, Next(p, q, s))
  {
    hide Exclusive, Backoff;
    assert LiveHoldOk(p, q, s.hold) && RowOk(p, q.rows[q.holds[s.hold].row]);
    var r := Next(p, q, s).rows[q.holds[s.hold].row];
    assert Next(p, q, s) == Settled(q, s.hold, r);
    SettleKeepsInv(p, q, s.hold, r);
  }

  lemma StepKeepsInv(p: Policy, q: Queue, s: Step)
    requires Inv(p, q) && Enabled(p, q, s)
    ensures Inv(p, Next(p, q, s))
  {
    hide Inv, Next;
    if s.Tick? || s.Enqueue? {
      OthersKeepInv(p, q, s);
    } else if s.Claim? {
      ClaimKeepsInv(p, q, s.row);
    } else {
      WriteKeepsInv(p, q, s);
    }
  }

  ghost predicate Valid(p: Policy, q: Queue, steps: seq<Step>)
    decreases |steps|
  {
    steps == [] || (Enabled(p, q, steps[0]) && Valid(p, Next(p, q, steps[0]), steps[1..]))
  }

  ghost function Final(p: Policy, q: Queue, steps: seq<Step>): Queue
    requires Valid(p, q, steps)
    decreases |steps|
  {
    if steps == [] then q else Final(p, Next(p, q, steps[0]), steps[1..])
  }

  lemma {:induction false} RunKeepsInv(p: Policy, q: Queue, steps: seq<Step>)
    requires Inv(p, q) && Valid(p, q, steps)
    ensures Inv(p, Final(p, q, steps))
    decreases |steps|
  {
    if steps != [] {
      StepKeepsInv(p, q, steps[0]);
      RunKeepsInv(p, Next(p, q, steps[0]), steps[1..]);
    }
  }

  /**
   * In every run, with any number of workers, no row is under two live leases; and a row under a live lease is not
   * due, so no claim statement can pick it.
   */
  lemma LeasesAreExclusive(p: Policy, steps: seq<Step>)
    requires 0 < p.maxAttempts && 0 < p.lease && Valid(p, Empty, steps)
    ensures var q := Final(p, Empty, steps);
            && Exclusive(q)
            && (forall h | Live(q, h) :: q.holds[h].row < |q.rows| && q.rows[q.holds[h].row].fate.Open? && !Due(q, q.holds[h].row))
  {
    RunKeepsInv(p, Empty, steps);
    var q := Final(p, Empty, steps);
    forall h | Live(q, h)
      ensures q.holds[h].row < |q.rows| && q.rows[q.holds[h].row].fate.Open? && !Due(q, q.holds[h].row)
    {
      assert LiveHoldOk(p, q, h);
    }
  }

  /** Every row that was ever closed stays exactly as it was closed. */
  lemma {:induction false} ClosedRowsNeverChange(p: Policy, q: Queue, steps: seq<Step>, row: nat)
    requires Inv(p, q) && Valid(p, q, steps)
    requires row < |q.rows| && !q.rows[row].fate.Open?
    ensures var q' := Final(p, q, steps); row < |q'.rows| && q'.rows[row] == q.rows[row]
    decreases |steps|
  {
    if steps != [] {
      var s := steps[0];
      assert !s.Tick? && !s.Enqueue? && !s.Claim? ==> LiveHoldOk(p, q, s.hold);
      StepKeepsInv(p, q, s);
      ClosedRowsNeverChange(p, Next(p, q, s), steps[1..], row);
    }
  }

  /**
   * The update statements check neither the status nor the lease. Written over a closed row, they leave it exactly as
   * it was closed if and only if they close it the same way: a success over a row that is done, or a last attempt over
   * a row given up at that attempt.
   */
  lemma LateWriteKeepsClosedIff(p: Policy, r: Row, report: Report, attempts: nat, now: nat)
    requires !r.fate.Open?
    ensures Written(p, r, report, attempts, now) == r <==>
              match report
              case Success => r.fate.Done?
              case Failure => p.maxAttempts <= attempts + 1 == r.attempts && r.fate.GivenUp?
              case Abandonment => attempts + 1 == r.attempts && r.fate.GivenUp?
  {
    var r' := Written(p, r, report, attempts, now);
    if report.Failure? && attempts + 1 < p.maxAttempts {
      assert |r'.failures| == |r.failures| + 1;
    }
  }

  lemma {:induction false} FailuresAreSpaced(p: Policy, r: Row, k: nat)
    requires RowOk(p, r) && k < |r.failures|
    ensures r.failures[0] + Span(p, k) <= r.failures[k]
  {
    if 0 < k {
      FailuresAreSpaced(p, r, k - 1);
    }
  }

  /**
   * A worker that holds a live lease on a row with `k` recorded failures is at least the `k` backoff delays away
   * from the first of them.
   */
  lemma LiveHoldHasWaited(p: Policy, q: Queue, h: nat)
    requires Inv(p, q) && Live(q, h)
    ensures var r := q.rows[q.holds[h].row];
            && r.fate.Open? && q.holds[h].attempts == r.attempts == |r.failures| < p.maxAttempts
            && (0 < |r.failures| ==> r.failures[0] + Span(p, |r.failures|) <= q.now)
  {
    assert LiveHoldOk(p, q, h);
    var r := q.rows[q.holds[h].row];
    assert RowOk(p, r);
    if 0 < |r.failures| {
      FailuresAreSpaced(p, r, |r.failures| - 1);
    }
  }

  /** The payout worker's delays: 10s, 20s; the webhook worker's: 5s, 10s, 20s, 40s. */
  lemma Delays()
    ensures Backoff(PAYOUT_POLICY, 1) == 10 && Backoff(PAYOUT_POLICY, 2) == 20 && Span(PAYOUT_POLICY, 2) == 30
    ensures forall k | 1 <= k <= 4 :: Backoff(WEBHOOK_POLICY, k) == [5, 10, 20, 40][k - 1]
  {
    assert Power2(0) == 1 && Power2(1) == 2 && Power2(2) == 4 && Power2(3) == 8;
    assert Span(PAYOUT_POLICY, 1) == 10;
  }

  /** Each delay is twice the one before until it would pass five minutes, and five minutes from then on. */
  lemma DelaysDoubleUpToTheCap(p: Policy, attempt: nat)
    requires p in [PAYOUT_POLICY, WEBHOOK_POLICY] && 0 < attempt
    ensures var d, d' := Backoff(p, attempt), Backoff(p, attempt + 1);
            d' == (if 2 * d < 300 then 2 * d else 300) && 0 < d <= 300
  {
    PowerIsPositive(attempt - 1);
    assert Power2(attempt) == 2 * Power2(attempt - 1);
  }

  lemma {:induction false} PowerIsPositive(n: nat)
    ensures 1 <= Power2(n)
  {
    if 0 < n {
      PowerIsPositive(n - 1);
    }
  }

  /**
   * In numbers, for payouts and for the polled webhooks: a claim lasts 60 seconds, and a failure recorded under a live
   * one opens the row again after its delay, or closes it at the third attempt of a payout and the fifth of a webhook.
   */
  lemma ClaimsAndFailuresInNumbers(p: Policy, q: Queue, s: Step)
    requires p in [PAYOUT_POLICY, WEBHOOK_POLICY] && Inv(p, q) && Enabled(p, q, s) && (s.Claim? || s.Fail?)
    ensures var q' := Next(p, q, s);
            match s
            case Claim(row) =>
              && q'.rows[row].nextAt == q.now + 60
              && q.nextHold in q'.holds && q'.holds[q.nextHold] == Hold(row, q.rows[row].attempts, q.now + 60)
            case Fail(h) =>
              var row, attempts := q.holds[h].row, q.rows[q.holds[h].row].attempts + 1;
              && q'.rows[row].attempts == attempts && h !in q'.holds
              && if attempts < if p == PAYOUT_POLICY then 3 else 5
                 then q'.rows[row].fate.Open? && q'.rows[row].nextAt == q.now + Backoff(p, attempts)
                 else q'.rows[row].fate.GivenUp?
            case _ => true
  {
    hide Backoff, Exclusive;
    assert s.Fail? ==> LiveHoldOk(p, q, s.hold);
  }
}
