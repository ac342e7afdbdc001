/**
 * The outbox statuses that the repository calls terminal, delivered and failed: exactly which updates leave them, over
 * single steps and whole runs, and a run for each update that does.
 */
module Terminal {
  import opened Relay

  predicate Finished(s: Status)
  {
    s == Delivered || s == Failed
  }

  predicate AnyFinished(status: seq<Status>, ids: seq<nat>)
  {
    exists k | 0 <= k < |ids| :: ids[k] < |status| && Finished(status[ids[k]])
  }

  predicate StatusIs(status: seq<Status>, e: nat, s: Status)
  {
    e < |status| && status[e] == s
  }

  /** What the update statement would find if it looked: a finished event that it is about to call something else. */
  predicate Overwrites(r: Pipe, l: Label)
    requires Enabled(r, l)
  {
    match l
    case MarkPublished(b) => AnyFinished(r.status, r.batches[b].ids)
    case ResetBatch(b) => AnyFinished(r.status, r.batches[b].ids)
    case MarkDelivered(h, stored) => stored && StatusIs(r.status, r.busy[h].message.event, Failed)
    case MarkFailed(h) => StatusIs(r.status, r.busy[h].message.event, Delivered)
    case _ => false
  }

  predicate KeepsFinished(status: seq<Status>, status': seq<Status>)
  {
    |status| <= |status'|
    && forall e | 0 <= e < |status| && Finished(status[e]) :: status'[e] == status[e]
  }

  /**
   * A step of the pipeline keeps every delivered and failed event as it is if and only if it is not a relay's update of
   * a batch that holds one, nor a consumer's delivered over failed or failed over delivered.
   */
  lemma FinishedStaysIff(r: Pipe, l: Label)
    requires Enabled(r, l)
    ensures KeepsFinished(r.status, Step(r, l).status) <==> !Overwrites(r, l)
  {
    var status' := Step(r, l).status;
    if Overwrites(r, l) {
      match l
      case MarkPublished(b) => UpdateHits(r.status, r.batches[b].ids, Published);
      case ResetBatch(b) => UpdateHits(r.status, r.batches[b].ids, Pending);
      case MarkDelivered(h, _) => assert status'[r.busy[h].message.event] == Delivered;
      case MarkFailed(h) => assert status'[r.busy[h].message.event] == Failed;
    } else {
      match l
      case MarkPublished(b) => UpdateMisses(r.status, r.batches[b].ids, Published);
      case ResetBatch(b) => UpdateMisses(r.status, r.batches[b].ids, Pending);
      case _ =>
    }
  }

  lemma UpdateHits(status: seq<Status>, ids: seq<nat>, s: Status)
    requires AnyFinished(status, ids) && !Finished(s)
    ensures !KeepsFinished(status, Marked(status, ids, s))
  {
    var k :| 0 <= k < |ids| && ids[k] < |status| && Finished(status[ids[k]]);
    assert Marked(status, ids, s)[ids[k]] == s;
  }

  lemma FinishedAmong(status: seq<Status>, ids: seq<nat>, e: nat)
    requires e < |status| && Finished(status[e]) && e in ids
    ensures AnyFinished(status, ids)
  {
    var k :| 0 <= k < |ids| && ids[k] == e;
    assert Finished(status[ids[k]]);
  }

  lemma UpdateMisses(status: seq<Status>, ids: seq<nat>, s: Status)
    requires !AnyFinished(status, ids)
    ensures KeepsFinished(status, Marked(status, ids, s))
  {
    forall e | 0 <= e < |status| && Finished(status[e])
      ensures Marked(status, ids, s)[e] == status[e]
    {
      if e in ids {
        FinishedAmong(status, ids, e);
      }
    }
  }

  // ---- Over runs ----

  lemma {:induction false} PrefixIsValid(trace: seq<Label>, n: nat)
    requires Valid(Start, trace) && n <= |trace|
    ensures Valid(Start, trace[..n])
    decreases |trace|
  {
    hide Enabled, Step;
    if n == |trace| {
      assert trace[..n] == trace;
    } else {
      PrefixIsValid(trace[..|trace| - 1], n);
      assert trace[..|trace| - 1][..n] == trace[..n];
    }
  }

  ghost function StatusAt(trace: seq<Label>, n: nat): seq<Status>
    requires Valid(Start, trace) && n <= |trace|
  {
    PrefixIsValid(trace, n);
    End(Start, trace[..n]).status
  }

  /** From the moment an event is delivered or failed its status never changes. */
  ghost predicate FinishedForGood(trace: seq<Label>)
    requires Valid(Start, trace)
  {
    forall m, n | 0 <= m <= n <= |trace| :: KeepsFinished(StatusAt(trace, m), StatusAt(trace, n))
  }

  lemma StepAt(trace: seq<Label>, n: nat)
    requires Valid(Start, trace) && n < |trace|
    ensures Valid(Start, trace[..n]) && Enabled(End(Start, trace[..n]), trace[n])
    ensures StatusAt(trace, n) == End(Start, trace[..n]).status
    ensures StatusAt(trace, n + 1) == Step(End(Start, trace[..n]), trace[n]).status
  {
    hide Enabled, Step;
    PrefixIsValid(trace, n + 1);
    assert trace[..n + 1][..n] == trace[..n];
  }

  ghost predicate OverwritesAt(trace: seq<Label>, n: nat)
    requires Valid(Start, trace) && n < |trace|
  {
    StepAt(trace, n);
    Overwrites(End(Start, trace[..n]), trace[n])
  }

  ghost predicate KeptAt(trace: seq<Label>, n: nat)
    requires Valid(Start, trace) && n < |trace|
  {
    KeepsFinished(StatusAt(trace, n), StatusAt(trace, n + 1))
  }

  lemma KeptIffNotOverwritten(trace: seq<Label>, n: nat)
    requires Valid(Start, trace) && n < |trace|
    ensures KeptAt(trace, n) <==> !OverwritesAt(trace, n)
  {
    hide Enabled, Step, Overwrites, KeepsFinished, Valid, End;
    StepAt(trace, n);
    FinishedStaysIff(End(Start, trace[..n]), trace[n]);
  }

  lemma {:induction false} KeptThroughout(trace: seq<Label>, m: nat, n: nat)
    requires Valid(Start, trace) && m <= n <= |trace|
    requires forall k | 0 <= k < |trace| :: KeptAt(trace, k)
    ensures KeepsFinished(StatusAt(trace, m), StatusAt(trace, n))
    decreases n
  {
    hide StatusAt;
    if m < n {
      KeptThroughout(trace, m, n - 1);
      assert KeptAt(trace, n - 1);
    }
  }

  /** Delivered and failed are terminal in exactly the runs in which no such update is made. */
  lemma TerminalIffNeverOverwritten(trace: seq<Label>)
    requires Valid(Start, trace)
    ensures FinishedForGood(trace) <==> forall n | 0 <= n < |trace| :: !OverwritesAt(trace, n)
  {
    hide OverwritesAt, KeepsFinished, Valid, StatusAt;
    forall n | 0 <= n < |trace|
      ensures KeptAt(trace, n) <==> !OverwritesAt(trace, n)
    {
      KeptIffNotOverwritten(trace, n);
    }
    if FinishedForGood(trace) {
      assert forall n | 0 <= n < |trace| :: KeptAt(trace, n);
    } else if forall n | 0 <= n < |trace| :: !OverwritesAt(trace, n) {
      forall m, n | 0 <= m <= n <= |trace|
        ensures KeepsFinished(StatusAt(trace, m), StatusAt(trace, n))
      {
        KeptThroughout(trace, m, n);
      }
    }
  }

  // ---- A run for each ----

  /** The event's message is published, posted, and marked delivered, before its relay has got any further. */
  const DELIVERED := [Enqueue] + [ClaimBatch([0])] + [Publish(0, true)] + [Deliver(0)] + [Post(0, true)] + [MarkDelivered(0, true)]

  /** A pipe with one event and one batch, and no message waiting. */
  function OneEvent(status: Status, batches: map<nat, Batch>, busy: seq<Handler>, dead: seq<Message>): Pipe
  {
    Pipe([status], batches, 1, [], [], dead, busy, {0}, {})
  }

  lemma OneMore(trace: seq<Label>, l: Label)
    requires Valid(Start, trace) && Enabled(End(Start, trace), l)
    ensures Valid(Start, trace + [l]) && End(Start, trace + [l]) == Step(End(Start, trace), l)
  {
    hide Enabled, Step;
    assert (trace + [l])[..|trace|] == trace;
  }

  lemma Nothing()
    ensures Valid(Start, []) && End(Start, []) == Start
  {
  }

  lemma PublishedWorks()
    ensures var trace := [Enqueue] + [ClaimBatch([0])] + [Publish(0, true)];
            && Valid(Start, trace)
            && End(Start, trace) == Pipe([Publishing], map[0 := Batch([0], 1, true, false)], 1, [Message(0, 1)], [], [], [], {}, {})
  {
    hide Valid, End;
    Nothing();
    assert [] + [Enqueue] == [Enqueue];
    OneMore([], Enqueue);
    assert Marked([Pending], [0], Publishing) == [Publishing];
    OneMore([Enqueue], ClaimBatch([0]));
    OneMore([Enqueue] + [ClaimBatch([0])], Publish(0, true));
  }

  const SENT := map[0 := Batch([0], 1, true, false)]

  lemma DeliveredWorks()
    ensures Valid(Start, DELIVERED)
    ensures End(Start, DELIVERED) == OneEvent(Delivered, SENT, [Handler(Message(0, 1), Settled)], [])
  {
    hide Valid, End, Marked;
    PublishedWorks();
    var t := [Enqueue] + [ClaimBatch([0])] + [Publish(0, true)];
    OneMore(t, Deliver(0));
    OneMore(t + [Deliver(0)], Post(0, true));
    OneMore(t + [Deliver(0)] + [Post(0, true)], MarkDelivered(0, true));
    assert Marked([Publishing], [0], Delivered) == [Delivered] by { MarkedOne(Publishing, Delivered); }
  }

  lemma MarkedOne(from: Status, to: Status)
    ensures Marked([from], [0], to) == [to]
  {
  }

  /** The relay marks the event published, or its confirm is lost and it puts the event back to pending, after its delivery. */
  lemma RelayOverwritesDelivered()
    ensures var marked, reset := DELIVERED + [Confirm(0)] + [MarkPublished(0)], DELIVERED + [ResetBatch(0)];
            && Valid(Start, DELIVERED) && End(Start, DELIVERED).status == [Delivered]
            && Valid(Start, marked) && End(Start, marked).status == [Published]
            && Valid(Start, reset) && End(Start, reset).status == [Pending]
  {
    hide Valid, End, Marked, DELIVERED;
    DeliveredWorks();
    OneMore(DELIVERED, Confirm(0));
    OneMore(DELIVERED + [Confirm(0)], MarkPublished(0));
    OneMore(DELIVERED, ResetBatch(0));
    MarkedOne(Delivered, Published);
    MarkedOne(Delivered, Pending);
  }

  /** The delivered message comes back unacknowledged and its endpoint is gone; then it comes back once more and the endpoint is there. */
  const LOST := DELIVERED + [Redeliver(0)] + [Deliver(0)] + [EndpointMissing(1)] + [MarkFailed(1)]
  const FOUND := LOST + [Redeliver(1)] + [Deliver(0)] + [Post(2, true)] + [MarkDelivered(2, true)]

  lemma LostWorks()
    ensures Valid(Start, LOST)
    ensures End(Start, LOST) == OneEvent(Failed, SENT, [Handler(Message(0, 1), Gone)] + [Handler(Message(0, 1), Settled)], [Message(0, 1)])
  {
    hide Valid, End, Marked, DELIVERED;
    DeliveredWorks();
    OneMore(DELIVERED, Redeliver(0));
    OneMore(DELIVERED + [Redeliver(0)], Deliver(0));
    OneMore(DELIVERED + [Redeliver(0)] + [Deliver(0)], EndpointMissing(1));
    OneMore(DELIVERED + [Redeliver(0)] + [Deliver(0)] + [EndpointMissing(1)], MarkFailed(1));
    MarkedOne(Delivered, Failed);
  }

  lemma ConsumerOverwritesBoth()
    ensures Valid(Start, LOST) && End(Start, LOST).status == [Failed]
    ensures Valid(Start, FOUND) && End(Start, FOUND).status == [Delivered]
  {
    hide Valid, End, Marked, LOST;
    LostWorks();
    OneMore(LOST, Redeliver(1));
    OneMore(LOST + [Redeliver(1)], Deliver(0));
    OneMore(LOST + [Redeliver(1)] + [Deliver(0)], Post(2, true));
    OneMore(LOST + [Redeliver(1)] + [Deliver(0)] + [Post(2, true)], MarkDelivered(2, true));
    MarkedOne(Failed, Delivered);
  }
}
