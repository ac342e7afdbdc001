/**
 * The webhook pipeline: relays claim outbox events, publish them on a confirm channel and mark them; the broker holds
 * the deliver, retry and dead queues; consumers POST, acknowledge, retry or dead-letter. Relays and consumers may crash
 * between any two steps, confirms may fail, the reaper may run at any time, and unacknowledged messages come back.
 * The broker is durable, and a consumer's publish before its ack on one channel is in order.
 */
module Relay {
  import opened Sums

  const MAX_ATTEMPTS: nat := 5
  const RELAY_BATCH: nat := 20

  datatype Status = Pending | Publishing | Published | Delivered | Failed

  datatype Message = Message(event: nat, attempt: nat)

  /** Where the consumer's handler of one delivery stands; `Gone` is acknowledged, discarded or returned to the queue. */
  datatype Stage = Received | Answered | Refused | DeadLettered | Settled | Gone

  datatype Handler = Handler(message: Message, stage: Stage)

  /** A relay's claimed batch: how many are published, whether the broker has taken all of those, and its confirm. */
  datatype Batch = Batch(ids: seq<nat>, sent: nat, taken: bool, confirmed: bool)

  /**
   * `status` is the outbox table. `posted` and `discarded` are history variables: events that got a 2xx, and events
   * with a message dropped by a handler error.
   */
  datatype Pipe = Pipe(
    status: seq<Status>, batches: map<nat, Batch>, nextBatch: nat,
    deliver: seq<Message>, retry: seq<Message>, dead: seq<Message>, busy: seq<Handler>,
    posted: set<nat>, discarded: set<nat>)

  const Start := Pipe([], map[], 0, [], [], [], [], {}, {})

  datatype Label =
    // the outbox and the relays
    | Enqueue
    | Reap(event: nat)
    | ClaimBatch(ids: seq<nat>)
    | Publish(batch: nat, arrives: bool)
    | Confirm(batch: nat)
    | MarkPublished(batch: nat)
    | ResetBatch(batch: nat)
    | CrashRelay(batch: nat)
    // the broker and the consumers
    | Deliver(i: nat)
    | Expire(i: nat)
    | EndpointMissing(h: nat)
    | Post(h: nat, ok: bool)
    | MarkDelivered(h: nat, stored: bool)
    | Republish(h: nat)
    | MarkFailed(h: nat)
    | Ack(h: nat)
    | Discard(h: nat)
    | Redeliver(h: nat)

  predicate At(r: Pipe, h: nat, stage: Stage)
  {
    h < |r.busy| && r.busy[h].stage == stage
  }

  predicate Claimable(r: Pipe, ids: seq<nat>)
  {
    && (forall k | 0 <= k < |ids| :: ids[k] < |r.status| && r.status[ids[k]] == Pending)
    && (forall j, k | 0 <= j < k < |ids| :: ids[j] != ids[k])
  }

  predicate Enabled(r: Pipe, l: Label)
  {
    match l
    case Enqueue => true
    case Reap(e) => e < |r.status| && r.status[e] == Publishing
    case ClaimBatch(ids) => Claimable(r, ids)
    case Publish(b, _) => b in r.batches && r.batches[b].sent < |r.batches[b].ids|
    case Confirm(b) => b in r.batches && r.batches[b].sent == |r.batches[b].ids| && r.batches[b].taken
    case MarkPublished(b) => b in r.batches && r.batches[b].confirmed
    case ResetBatch(b) => b in r.batches
    case CrashRelay(b) => b in r.batches
    case Deliver(i) => i < |r.deliver|
    case Expire(i) => i < |r.retry|
    case EndpointMissing(h) => At(r, h, Received)
    case Post(h, _) => At(r, h, Received)
    case MarkDelivered(h, _) => At(r, h, Answered)
    case Republish(h) => At(r, h, Refused)
    case MarkFailed(h) => At(r, h, DeadLettered)
    case Ack(h) => At(r, h, Settled)
    case Discard(h) => At(r, h, Received) || At(r, h, DeadLettered)
    case Redeliver(h) => h < |r.busy| && r.busy[h].stage != Gone
  }

  /** The statuses after an update of every row whose id is in `ids`. */
  function Marked(status: seq<Status>, ids: seq<nat>, s: Status): (r: seq<Status>)
    ensures |r| == |status|
  {
    seq(|status|, (e: nat) requires e < |status| => if e in ids then s else status[e])
  }

  function Moved(r: Pipe, h: nat, stage: Stage): Pipe
    requires h < |r.busy|
  {
    r.(busy := r.busy[h := Handler(r.busy[h].message, stage)])
  }

  function Step(r: Pipe, l: Label): Pipe
    requires Enabled(r, l)
  {
    match l
    case Enqueue => r.(status := r.status + [Pending])
    case Reap(e) => r.(status := r.status[e := Pending])
    case ClaimBatch(ids) =>
      r.(status := Marked(r.status, ids, Publishing),
         batches := r.batches[r.nextBatch := Batch(ids, 0, true, false)], nextBatch := r.nextBatch + 1)
    case Publish(b, arrives) =>
      var x := r.batches[b];
      r.(batches := r.batches[b := x.(sent := x.sent + 1, taken := x.taken && arrives)],
         deliver := if arrives then r.deliver + [Message(x.ids[x.sent], 1)] else r.deliver)
    case Confirm(b) => r.(batches := r.batches[b := r.batches[b].(confirmed := true)])
    case MarkPublished(b) => r.(status := Marked(r.status, r.batches[b].ids, Published), batches := r.batches - {b})
    case ResetBatch(b) => r.(status := Marked(r.status, r.batches[b].ids, Pending), batches := r.batches - {b})
    case CrashRelay(b) => r.(batches := r.batches - {b})
    case Deliver(i) => r.(deliver := Without(r.deliver, i), busy := r.busy + [Handler(r.deliver[i], Received)])
    case Expire(i) => r.(retry := Without(r.retry, i), deliver := r.deliver + [r.retry[i]])
    case EndpointMissing(h) => Moved(r, h, DeadLettered).(dead := r.dead + [r.busy[h].message])
    case Post(h, ok) =>
      if ok then Moved(r, h, Answered).(posted := r.posted + {r.busy[h].message.event})
      else Moved(r, h, Refused)
    case MarkDelivered(h, stored) =>
      if stored then Moved(r, h, Settled).(status := Marked(r.status, [r.busy[h].message.event], Delivered))
      else Moved(r, h, Refused)
    case Republish(h) =>
      var m := r.busy[h].message;
      if MAX_ATTEMPTS <= m.attempt then Moved(r, h, DeadLettered).(dead := r.dead + [m])
      else Moved(r, h, Settled).(retry := r.retry + [Message(m.event, m.attempt + 1)])
    case MarkFailed(h) => Moved(r, h, Settled).(status := Marked(r.status, [r.busy[h].message.event], Failed))
    case Ack(h) => Moved(r, h, Gone)
    case Discard(h) => Moved(r, h, Gone).(discarded := r.discarded + {r.busy[h].message.event})
    case Redeliver(h) => Moved(r, h, Gone).(deliver := r.deliver + [r.busy[h].message])
  }

  ghost predicate Valid(r: Pipe, trace: seq<Label>)
    decreases |trace|, 0
  {
    trace == [] || (Valid(r, trace[..|trace| - 1]) && Enabled(End(r, trace[..|trace| - 1]), trace[|trace| - 1]))
  }

  ghost function End(r: Pipe, trace: seq<Label>): Pipe
    requires Valid(r, trace)
    decreases |trace|, 1
  {
    if trace == [] then r else Step(End(r, trace[..|trace| - 1]), trace[|trace| - 1])
  }

  // ---- No silent loss ----

  predicate Queued(s: seq<Message>, e: nat)
  {
    exists i | 0 <= i < |s| :: s[i].event == e
  }

  predicate InHand(busy: seq<Handler>, e: nat)
  {
    exists i | 0 <= i < |busy| :: busy[i].message.event == e && (busy[i].stage == Received || busy[i].stage == Refused)
  }

  /** The event has a message on its way, or has been answered with a 2xx, dead-lettered or explicitly discarded. */
  predicate Safe(r: Pipe, e: nat)
  {
    || Queued(r.deliver, e) || Queued(r.retry, e) || InHand(r.busy, e)
    || e in r.posted || Queued(r.dead, e) || e in r.discarded
  }

  ghost predicate BatchOk(r: Pipe, x: Batch)
  {
    && x.sent <= |x.ids|
    && (x.taken ==> forall k | 0 <= k < x.sent :: Safe(r, x.ids[k]))
    && (x.confirmed ==> x.taken && x.sent == |x.ids|)
  }

  ghost predicate HandlerOk(r: Pipe, h: Handler)
  {
    match h.stage
    case Answered => h.message.event in r.posted
    case DeadLettered => Queued(r.dead, h.message.event)
    case Settled => Safe(r, h.message.event)
    case _ => true
  }

  /** Every event is still the relays' to publish, or safe. */
  ghost predicate EventSafe(r: Pipe, e: nat)
    requires e < |r.status|
  {
    r.status[e] == Pending || r.status[e] == Publishing || Safe(r, e)
  }

  predicate AttemptOk(m: Message)
  {
    1 <= m.attempt <= MAX_ATTEMPTS
  }

  ghost predicate Inv(r: Pipe)
  {
    && (forall e | 0 <= e < |r.status| :: EventSafe(r, e))
    && (forall b | b in r.batches :: b < r.nextBatch && BatchOk(r, r.batches[b]))
    && (forall h | 0 <= h < |r.busy| :: HandlerOk(r, r.busy[h]) && AttemptOk(r.busy[h].message))
    && (forall i | 0 <= i < |r.deliver| :: AttemptOk(r.deliver[i]))
    && (forall i | 0 <= i < |r.retry| :: AttemptOk(r.retry[i]))
  }

  lemma QueuedAppend(s: seq<Message>, m: Message)
    ensures forall e | Queued(s, e) :: Queued(s + [m], e)
    ensures Queued(s + [m], m.event)
  {
    assert (s + [m])[|s|] == m;
    forall e | Queued(s, e)
      ensures Queued(s + [m], e)
    {
      var i :| 0 <= i < |s| && s[i].event == e;
      assert (s + [m])[i].event == e;
    }
  }

  lemma QueuedWithout(s: seq<Message>, i: nat)
    requires i < |s|
    ensures forall e | Queued(s, e) && e != s[i].event :: Queued(Without(s, i), e)
  {
    forall e | Queued(s, e) && e != s[i].event
      ensures Queued(Without(s, i), e)
    {
      var k :| 0 <= k < |s| && s[k].event == e;
      assert Without(s, i)[if k < i then k else k - 1] == s[k];
    }
  }

  lemma InHandAppend(busy: seq<Handler>, m: Message)
    ensures forall e | InHand(busy, e) :: InHand(busy + [Handler(m, Received)], e)
    ensures InHand(busy + [Handler(m, Received)], m.event)
  {
    var busy' := busy + [Handler(m, Received)];
    assert busy'[|busy|].message == m;
    forall e | InHand(busy, e)
      ensures InHand(busy', e)
    {
      var i :| 0 <= i < |busy| && busy[i].message.event == e && (busy[i].stage == Received || busy[i].stage == Refused);
      assert busy'[i] == busy[i];
    }
  }

  lemma InHandMoved(busy: seq<Handler>, h: nat, stage: Stage)
    requires h < |busy|
    ensures var busy' := busy[h := Handler(busy[h].message, stage)];
            && (forall e | InHand(busy, e) && e != busy[h].message.event :: InHand(busy', e))
            && (stage == Refused ==> InHand(busy', busy[h].message.event))
            && (busy[h].stage != Received && busy[h].stage != Refused ==> forall e | InHand(busy, e) :: InHand(busy', e))
  {
    var busy' := busy[h := Handler(busy[h].message, stage)];
    assert busy'[h].stage == stage;
    forall e | InHand(busy, e)
      ensures InHand(busy', e) || (e == busy[h].message.event && (busy[h].stage == Received || busy[h].stage == Refused))
    {
      var i :| 0 <= i < |busy| && busy[i].message.event == e && (busy[i].stage == Received || busy[i].stage == Refused);
      assert i != h ==> busy'[i] == busy[i];
    }
  }

  /** No step loses a safe event. */
  lemma SafeStays(r: Pipe, l: Label)
    requires Inv(r) && Enabled(r, l)
    ensures forall e | Safe(r, e) :: Safe(Step(r, l), e)
  {
    hide Queued, InHand, Marked;
    match l
    case Publish(b, arrives) => QueuedAppend(r.deliver, Message(r.batches[b].ids[r.batches[b].sent], 1));
    case Deliver(i) =>
      QueuedWithout(r.deliver, i);
      InHandAppend(r.busy, r.deliver[i]);
    case Expire(i) =>
      QueuedWithout(r.retry, i);
      QueuedAppend(r.deliver, r.retry[i]);
    case EndpointMissing(h) =>
      QueuedAppend(r.dead, r.busy[h].message);
      InHandMoved(r.busy, h, DeadLettered);
    case Post(h, ok) => InHandMoved(r.busy, h, if ok then Answered else Refused);
    case MarkDelivered(h, stored) => InHandMoved(r.busy, h, if stored then Settled else Refused);
    case Republish(h) =>
      var m := r.busy[h].message;
      QueuedAppend(r.dead, m);
      QueuedAppend(r.retry, Message(m.event, m.attempt + 1));
      InHandMoved(r.busy, h, if MAX_ATTEMPTS <= m.attempt then DeadLettered else Settled);
    case MarkFailed(h) => InHandMoved(r.busy, h, Settled);
    case Ack(h) => InHandMoved(r.busy, h, Gone);
    case Discard(h) => InHandMoved(r.busy, h, Gone);
    case Redeliver(h) =>
      QueuedAppend(r.deliver, r.busy[h].message);
      InHandMoved(r.busy, h, Gone);
    case _ =>
  }

  lemma QueuedDeadStays(r: Pipe, l: Label)
    requires Enabled(r, l)
    ensures r.dead <= Step(r, l).dead && r.posted <= Step(r, l).posted
    ensures forall e | Queued(r.dead, e) :: Queued(Step(r, l).dead, e)
  {
    hide Marked;
    var dead' := Step(r, l).dead;
    forall e | Queued(r.dead, e)
      ensures Queued(dead', e)
    {
      var i :| 0 <= i < |r.dead| && r.dead[i].event == e;
      assert dead'[i].event == e;
    }
  }

  lemma StepKeepsBatches(r: Pipe, l: Label)
    requires Inv(r) && Enabled(r, l)
    ensures forall b | b in Step(r, l).batches :: b < Step(r, l).nextBatch && BatchOk(Step(r, l), Step(r, l).batches[b])
  {
    hide Queued, InHand, Marked, Safe, EventSafe, HandlerOk;
    SafeStays(r, l);
    var r' := Step(r, l);
    if l.Publish? && l.arrives {
      SentIsSafe(r, l.batch);
    }
    forall b | b in r'.batches
      ensures b < r'.nextBatch && BatchOk(r', r'.batches[b])
    {
      assert b in r.batches ==> BatchOk(r, r.batches[b]);
    }
  }

  lemma SentIsSafe(r: Pipe, b: nat)
    requires Enabled(r, Publish(b, true))
    ensures Safe(Step(r, Publish(b, true)), r.batches[b].ids[r.batches[b].sent])
  {
    hide InHand;
    QueuedAppend(r.deliver, Message(r.batches[b].ids[r.batches[b].sent], 1));
  }

  /** The stage a step leaves its handler in is justified by what the step did. */
  lemma MoverIsJustified(r: Pipe, l: Label, h: nat)
    requires Inv(r) && Enabled(r, l) && h < |r.busy| && Step(r, l).busy[h] != r.busy[h]
    ensures h < |Step(r, l).busy| && HandlerOk(Step(r, l), Step(r, l).busy[h]) && Step(r, l).busy[h].message == r.busy[h].message
  {
    hide Queued, InHand, Marked, EventSafe, BatchOk;
    SafeStays(r, l);
    QueuedAppend(r.dead, r.busy[h].message);
    QueuedAppend(r.retry, Message(r.busy[h].message.event, r.busy[h].message.attempt + 1));
    assert HandlerOk(r, r.busy[h]);
  }

  lemma OthersStayJustified(r: Pipe, l: Label, x: Handler)
    requires Inv(r) && Enabled(r, l) && HandlerOk(r, x)
    ensures HandlerOk(Step(r, l), x)
  {
    hide Queued, InHand, Marked, EventSafe, BatchOk, Step;
    SafeStays(r, l);
    QueuedDeadStays(r, l);
  }

  lemma StepKeepsHandlers(r: Pipe, l: Label)
    requires Inv(r) && Enabled(r, l)
    ensures forall h | 0 <= h < |Step(r, l).busy| ::
              HandlerOk(Step(r, l), Step(r, l).busy[h]) && AttemptOk(Step(r, l).busy[h].message)
  {
    hide Queued, InHand, Marked, EventSafe, BatchOk, Safe;
    var r' := Step(r, l);
    forall h | 0 <= h < |r'.busy|
      ensures HandlerOk(r', r'.busy[h]) && AttemptOk(r'.busy[h].message)
    {
      if h < |r.busy| {
        assert HandlerOk(r, r.busy[h]) && AttemptOk(r.busy[h].message);
        if r'.busy[h] != r.busy[h] {
          MoverIsJustified(r, l, h);
        } else {
          OthersStayJustified(r, l, r.busy[h]);
        }
      }
    }
  }

  lemma StepKeepsEvents(r: Pipe, l: Label)
    requires Inv(r) && Enabled(r, l)
    ensures forall e | 0 <= e < |Step(r, l).status| :: EventSafe(Step(r, l), e)
  {
    hide Queued, InHand, Safe;
    SafeStays(r, l);
    var r' := Step(r, l);
    forall e | 0 <= e < |r'.status|
      ensures EventSafe(r', e)
    {
      assert e < |r.status| ==> EventSafe(r, e);
      if l.MarkPublished? && e in r.batches[l.batch].ids {
        assert BatchOk(r, r.batches[l.batch]);
      } else if (l.MarkDelivered? || l.MarkFailed?) && e == r.busy[l.h].message.event {
        assert HandlerOk(r, r.busy[l.h]);
        HandledIsSafe(r, r.busy[l.h]);
      }
    }
  }

  lemma HandledIsSafe(r: Pipe, h: Handler)
    requires HandlerOk(r, h) && (h.stage == Answered || h.stage == DeadLettered || h.stage == Settled)
    ensures Safe(r, h.message.event)
  {
  }

  lemma StepKeepsAttempts(r: Pipe, l: Label)
    requires Inv(r) && Enabled(r, l)
    ensures forall i | 0 <= i < |Step(r, l).deliver| :: AttemptOk(Step(r, l).deliver[i])
    ensures forall i | 0 <= i < |Step(r, l).retry| :: AttemptOk(Step(r, l).retry[i])
  {
    hide Queued, InHand, Marked, Safe, EventSafe, BatchOk, HandlerOk;
  }

  lemma StepKeepsInv(r: Pipe, l: Label)
    requires Inv(r) && Enabled(r, l)
    ensures Inv(Step(r, l))
  {
    hide Enabled, Step, EventSafe, BatchOk, HandlerOk, AttemptOk;
    StepKeepsBatches(r, l);
    StepKeepsHandlers(r, l);
    StepKeepsEvents(r, l);
    StepKeepsAttempts(r, l);
  }

  lemma {:induction false} TraceKeepsInv(trace: seq<Label>)
    requires Valid(Start, trace)
    ensures Inv(End(Start, trace))
    decreases |trace|
  {
    hide Enabled, Step;
    if trace != [] {
      TraceKeepsInv(trace[..|trace| - 1]);
      StepKeepsInv(End(Start, trace[..|trace| - 1]), trace[|trace| - 1]);
    }
  }

  /**
   * No silent loss: in every run, whatever crashes, negative confirms, reaping and redelivery happen, every committed
   * event is pending or publishing, or has a message in a queue or a consumer's hands, or got a 2xx answer, or is
   * dead-lettered, or was dropped by the explicit handler-error step.
   */
  lemma NoSilentLoss(trace: seq<Label>, e: nat)
    requires Valid(Start, trace) && e < |End(Start, trace).status|
    ensures var r := End(Start, trace);
            r.status[e] == Pending || r.status[e] == Publishing || Safe(r, e)
  {
    hide Safe, Valid, End;
    TraceKeepsInv(trace);
    assert EventSafe(End(Start, trace), e);
  }
}
