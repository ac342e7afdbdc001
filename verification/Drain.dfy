/**
 * How the broker's queues run dry: with no new publish and no redelivery, every message has a bounded number of POSTs
 * and of consumer steps left, and when none can be taken each event that was in flight has its final outcome.
 */
module Drain {
  import opened Sums
  import opened Relay

  /** A number for each message in the deliver queue, in the retry queue, and in a handler. */
  datatype Measure = Measure(delivering: Message -> int, retrying: Message -> int, handling: Handler -> int)

  function Total(r: Pipe, m: Measure): int
  {
    Sum(r.deliver, m.delivering) + Sum(r.retry, m.retrying) + Sum(r.busy, m.handling)
  }

  /** The POSTs that a message can still get, counting its retries. */
  function PostsAhead(m: Message): int
  {
    6 - m.attempt
  }

  const POSTS := Measure(PostsAhead, PostsAhead, (h: Handler) =>
    match h.stage
    case Received => PostsAhead(h.message)
    case Answered => PostsAhead(h.message) - 1
    case Refused => PostsAhead(h.message) - 1
    case _ => 0)

  /** A bound on the broker's and consumers' steps that a message still needs. */
  const WORK := Measure(m => 8 * PostsAhead(m), m => 8 * PostsAhead(m) + 1, (h: Handler) =>
    match h.stage
    case Received => 8 * PostsAhead(h.message) - 1
    case Answered => 8 * PostsAhead(h.message) - 2
    case Refused => 8 * PostsAhead(h.message) - 3
    case DeadLettered => 2
    case Settled => 1
    case Gone => 0)

  /** A step that puts no message back in front of the consumers' work: no publish, no redelivery. */
  predicate Quiet(l: Label)
  {
    !l.Publish? && !l.Redeliver?
  }

  /** A step of the broker or of a consumer that moves a message on. */
  predicate Drains(l: Label)
  {
    l.Deliver? || l.Expire? || l.EndpointMissing? || l.Post? || l.MarkDelivered? || l.Republish? || l.MarkFailed?
    || l.Ack? || l.Discard?
  }

  predicate AllQuiet(trace: seq<Label>)
  {
    forall i | 0 <= i < |trace| :: Quiet(trace[i])
  }

  /** Nothing is left in the deliver and retry queues or unacknowledged. */
  predicate Drained(r: Pipe)
  {
    r.deliver == [] && r.retry == [] && forall h | 0 <= h < |r.busy| :: r.busy[h].stage == Gone
  }

  /** Every message in the broker or in hand is in its first to last attempt. */
  predicate AttemptsOk(r: Pipe)
  {
    && (forall h | 0 <= h < |r.busy| :: AttemptOk(r.busy[h].message))
    && (forall i | 0 <= i < |r.deliver| :: AttemptOk(r.deliver[i]))
    && (forall i | 0 <= i < |r.retry| :: AttemptOk(r.retry[i]))
  }

  function MovedCost(h: Handler, stage: Stage, m: Measure): int
  {
    m.handling(Handler(h.message, stage)) - m.handling(h)
  }

  /** What one quiet step adds to a measure. */
  function Change(r: Pipe, l: Label, m: Measure): int
    requires Enabled(r, l)
  {
    match l
    case Deliver(i) => m.handling(Handler(r.deliver[i], Received)) - m.delivering(r.deliver[i])
    case Expire(i) => m.delivering(r.retry[i]) - m.retrying(r.retry[i])
    case EndpointMissing(h) => MovedCost(r.busy[h], DeadLettered, m)
    case Post(h, ok) => MovedCost(r.busy[h], if ok then Answered else Refused, m)
    case MarkDelivered(h, stored) => MovedCost(r.busy[h], if stored then Settled else Refused, m)
    case Republish(h) =>
      var x := r.busy[h].message;
      if MAX_ATTEMPTS <= x.attempt then MovedCost(r.busy[h], DeadLettered, m)
      else MovedCost(r.busy[h], Settled, m) + m.retrying(Message(x.event, x.attempt + 1))
    case MarkFailed(h) => MovedCost(r.busy[h], Settled, m)
    case Ack(h) => MovedCost(r.busy[h], Gone, m)
    case Discard(h) => MovedCost(r.busy[h], Gone, m)
    case _ => 0
  }

  lemma StepChanges(r: Pipe, l: Label, m: Measure)
    requires Enabled(r, l) && Quiet(l)
    ensures Total(Step(r, l), m) == Total(r, m) + Change(r, l, m)
  {
    hide Sum, Marked, Without, Claimable;
    match l
    case Deliver(i) =>
      SumWithout(r.deliver, i, m.delivering);
      SumOne(r.busy, Handler(r.deliver[i], Received), m.handling);
    case Expire(i) =>
      SumWithout(r.retry, i, m.retrying);
      SumOne(r.deliver, r.retry[i], m.delivering);
    case EndpointMissing(h) => SumUpdate(r.busy, h, Handler(r.busy[h].message, DeadLettered), m.handling);
    case Post(h, ok) => SumUpdate(r.busy, h, Handler(r.busy[h].message, if ok then Answered else Refused), m.handling);
    case MarkDelivered(h, stored) =>
      SumUpdate(r.busy, h, Handler(r.busy[h].message, if stored then Settled else Refused), m.handling);
    case Republish(h) =>
      var x := r.busy[h].message;
      SumUpdate(r.busy, h, Handler(x, if MAX_ATTEMPTS <= x.attempt then DeadLettered else Settled), m.handling);
      SumOne(r.retry, Message(x.event, x.attempt + 1), m.retrying);
    case MarkFailed(h) => SumUpdate(r.busy, h, Handler(r.busy[h].message, Settled), m.handling);
    case Ack(h) => SumUpdate(r.busy, h, Handler(r.busy[h].message, Gone), m.handling);
    case Discard(h) => SumUpdate(r.busy, h, Handler(r.busy[h].message, Gone), m.handling);
    case _ =>
  }

  /** A quiet step pays for each POST out of the ones ahead, and a draining one for itself out of the work. */
  lemma StepPays(r: Pipe, l: Label)
    requires AttemptsOk(r) && Enabled(r, l) && Quiet(l)
    ensures Change(r, l, POSTS) <= if l.Post? then -1 else 0
    ensures Change(r, l, WORK) <= if Drains(l) then -1 else 0
  {
    hide Marked, Claimable, Without, Sum;
    assert l.Deliver? ==> AttemptOk(r.deliver[l.i]);
    assert l.Expire? ==> AttemptOk(r.retry[l.i]);
    assert Drains(l) && !l.Deliver? && !l.Expire? ==> AttemptOk(r.busy[l.h].message);
  }

  /** The POST requests of the run. */
  function Posts(trace: seq<Label>): nat
  {
    if trace == [] then 0
    else Posts(trace[..|trace| - 1]) + if trace[|trace| - 1].Post? then 1 else 0
  }

  function DrainSteps(trace: seq<Label>): nat
  {
    if trace == [] then 0
    else DrainSteps(trace[..|trace| - 1]) + if Drains(trace[|trace| - 1]) then 1 else 0
  }

  lemma {:induction false} RunPays(r: Pipe, trace: seq<Label>)
    requires Inv(r) && Valid(r, trace) && AllQuiet(trace)
    ensures Inv(End(r, trace))
    ensures Posts(trace) + Total(End(r, trace), POSTS) <= Total(r, POSTS)
    ensures DrainSteps(trace) + Total(End(r, trace), WORK) <= Total(r, WORK)
    decreases |trace|
  {
    hide Enabled, Step, Total, POSTS, WORK, Change, Drains;
    if trace != [] {
      var n := |trace| - 1;
      RunPays(r, trace[..n]);
      var before := End(r, trace[..n]);
      StepPays(before, trace[n]);
      StepChanges(before, trace[n], POSTS);
      StepChanges(before, trace[n], WORK);
      StepKeepsInv(before, trace[n]);
    }
  }

  lemma TotalsAreNatural(r: Pipe)
    requires AttemptsOk(r)
    ensures 0 <= Total(r, POSTS) && 0 <= Total(r, WORK)
  {
    hide Sum;
    forall m | m in [POSTS, WORK]
      ensures 0 <= Total(r, m)
    {
      SumNonNegative(r.deliver, m.delivering);
      SumNonNegative(r.retry, m.retrying);
      SumNonNegative(r.busy, m.handling);
    }
    assert POSTS in [POSTS, WORK] && WORK in [POSTS, WORK];
  }

  lemma {:induction false} SafeStaysOverRun(r: Pipe, trace: seq<Label>, e: nat)
    requires Inv(r) && Valid(r, trace) && Safe(r, e)
    ensures Inv(End(r, trace)) && Safe(End(r, trace), e)
    decreases |trace|
  {
    hide Enabled, Step, Safe;
    if trace != [] {
      var n := |trace| - 1;
      SafeStaysOverRun(r, trace[..n], e);
      SafeStays(End(r, trace[..n]), trace[n]);
      StepKeepsInv(End(r, trace[..n]), trace[n]);
    }
  }

  /** A message can always be moved on until the queues are dry. */
  lemma StuckIffDrained(r: Pipe)
    ensures Drained(r) <==> forall l: Label | Drains(l) :: !Enabled(r, l)
  {
    if !Drained(r) {
      if r.deliver != [] {
        assert Enabled(r, Deliver(0));
      } else if r.retry != [] {
        assert Enabled(r, Expire(0));
      } else {
        var h: nat :| h < |r.busy| && r.busy[h].stage != Gone;
        var l := match r.busy[h].stage
          case Received => Post(h, true)
          case Answered => MarkDelivered(h, true)
          case Refused => Republish(h)
          case DeadLettered => MarkFailed(h)
          case _ => Ack(h);
        assert Drains(l) && Enabled(r, l);
      }
    }
  }

  /**
   * From any reachable state, over any run without new publishes and redeliveries: the POSTs still to come are at most
   * the sum over the messages in the broker and in hand of six minus their attempt, every attempt stays within 1..5,
   * and so many steps can move messages on and no more.
   */
  lemma DrainIsBounded(past: seq<Label>, trace: seq<Label>)
    requires Valid(Start, past) && Valid(End(Start, past), trace) && AllQuiet(trace)
    ensures var r := End(Start, past); var r' := End(r, trace);
            && Posts(trace) <= Total(r, POSTS)
            && DrainSteps(trace) <= Total(r, WORK)
            && AttemptsOk(r')
  {
    hide Total, POSTS, WORK, Enabled, Step, Valid, End;
    TraceKeepsInv(past);
    RunPays(End(Start, past), trace);
    TotalsAreNatural(End(End(Start, past), trace));
  }

  /**
   * And when none is left to move, every event that had a message in the broker or in hand has been answered with a
   * 2xx, is in the dead queue, or was explicitly discarded.
   */
  lemma DrainedEventsAreDecided(past: seq<Label>, trace: seq<Label>, e: nat)
    requires Valid(Start, past) && Valid(End(Start, past), trace) && AllQuiet(trace)
    requires Safe(End(Start, past), e)
    requires forall l: Label | Drains(l) :: !Enabled(End(End(Start, past), trace), l)
    ensures var r' := End(End(Start, past), trace);
            Drained(r') && (e in r'.posted || Queued(r'.dead, e) || e in r'.discarded)
  {
    hide Enabled, Step, Valid, End;
    TraceKeepsInv(past);
    SafeStaysOverRun(End(Start, past), trace, e);
    StuckIffDrained(End(End(Start, past), trace));
  }
}
