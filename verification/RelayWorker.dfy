/**
 * The relay's tick and the consumer's handler, as written, against everything the other relays, consumers, reapers and
 * the broker may do in between. Each takes only steps of the pipeline's machine.
 */
module RelayWorker {
  import opened Relay

  /** What this process is working on: a batch it claimed, a message it was handed, or neither. */
  datatype Work = NoWork | OwnBatch(batch: nat) | OwnHandler(handler: nat)

  predicate OnBatch(l: Label, b: nat)
  {
    (l.Publish? || l.Confirm? || l.MarkPublished? || l.ResetBatch? || l.CrashRelay?) && l.batch == b
  }

  predicate OnHandler(l: Label, h: nat)
  {
    (l.EndpointMissing? || l.Post? || l.MarkDelivered? || l.Republish? || l.MarkFailed? || l.Ack? || l.Discard? || l.Redeliver?)
    && l.h == h
  }

  /** The step works on this process's own batch or message. */
  predicate Touches(l: Label, w: Work)
  {
    match w
    case NoWork => false
    case OwnBatch(b) => OnBatch(l, b)
    case OwnHandler(h) => OnHandler(l, h)
  }

  /** Only the steps on this process's own batch or message are its own; every other one is for the world to take. */
  lemma OnlyTheseAreOwn(l: Label, b: nat, h: nat)
    ensures !Touches(l, NoWork)
    ensures Touches(l, OwnBatch(b)) <==>
              l in [Publish(b, true), Publish(b, false), Confirm(b), MarkPublished(b), ResetBatch(b), CrashRelay(b)]
    ensures Touches(l, OwnHandler(h)) <==>
              || l in [EndpointMissing(h), Post(h, true), Post(h, false), MarkDelivered(h, true), MarkDelivered(h, false)]
              || l in [Republish(h), MarkFailed(h), Ack(h), Discard(h), Redeliver(h)]
  {
  }

  predicate InProgress(r: Pipe, w: Work)
  {
    match w
    case NoWork => true
    case OwnBatch(b) => b in r.batches && b < r.nextBatch
    case OwnHandler(h) => h < |r.busy|
  }

  predicate SameWork(r: Pipe, r': Pipe, w: Work)
    requires InProgress(r, w)
  {
    |r.status| <= |r'.status| &&
    match w
    case NoWork => true
    case OwnBatch(b) => b in r'.batches && b < r'.nextBatch && r'.batches[b] == r.batches[b]
    case OwnHandler(h) => h < |r'.busy| && r'.busy[h] == r.busy[h]
  }

  /** The steps of the run that work on this process's batch or message, in order. */
  function Own(trace: seq<Label>, w: Work): seq<Label>
  {
    if trace == [] then []
    else
      var l := trace[|trace| - 1];
      Own(trace[..|trace| - 1], w) + if Touches(l, w) then [l] else []
  }

  lemma OwnExtends(trace: seq<Label>, l: Label, w: Work)
    ensures Own(trace + [l], w) == Own(trace, w) + if Touches(l, w) then [l] else []
  {
    hide Touches;
    assert (trace + [l])[..|trace|] == trace;
  }

  /** What nothing that happens takes back: answers, dead letters and discards. */
  predicate Grows(r: Pipe, r': Pipe)
  {
    r.posted <= r'.posted && r.discarded <= r'.discarded && r.dead <= r'.dead
  }

  lemma StepGrows(r: Pipe, l: Label)
    requires Enabled(r, l)
    ensures Grows(r, Step(r, l))
  {
    hide Marked, Claimable;
  }

  lemma OthersLeaveWork(r: Pipe, l: Label, w: Work)
    requires Enabled(r, l) && InProgress(r, w) && !Touches(l, w)
    ensures SameWork(r, Step(r, l), w)
  {
    hide Marked, Claimable;
  }

  // ---- The claim: the oldest pending events ----

  /** The oldest `limit` pending events among the first `n`, oldest first. */
  function Oldest(status: seq<Status>, n: nat, limit: nat): (ids: seq<nat>)
    requires n <= |status|
    ensures |ids| <= limit
    ensures forall k | 0 <= k < |ids| :: ids[k] < n && status[ids[k]] == Pending
    ensures forall j, k | 0 <= j < k < |ids| :: ids[j] < ids[k]
    ensures forall e | 0 <= e < n && status[e] == Pending && e !in ids ::
              |ids| == limit && forall k | 0 <= k < |ids| :: ids[k] < e
  {
    if n == 0 then []
    else
      var ids := Oldest(status, n - 1, limit);
      if status[n - 1] == Pending && |ids| < limit then ids + [n - 1] else ids
  }

  /** The statuses once the reaper has rescued the stale rows among the first `n`. */
  function Reaped(status: seq<Status>, stale: set<nat>, n: nat): seq<Status>
    requires n <= |status|
  {
    seq(|status|, (e: nat) requires e < |status| => if e < n && Stale(status, stale, e) then Pending else status[e])
  }

  predicate Stale(status: seq<Status>, stale: set<nat>, e: nat)
    requires e < |status|
  {
    status[e] == Publishing && e in stale
  }

  /**
   * What goes wrong in one tick: which messages the broker takes, the message before which the channel dies, whether
   * the confirms are lost, and whether each of the two updates fails.
   */
  datatype Faults = Faults(arrives: seq<bool>, diesAt: nat, confirmsLost: bool, markFails: bool, resetFails: bool)

  datatype TickOutcome = NothingPending | Relayed | BackToPending | LeftToReaper

  /** The database and endpoint's side of one delivery. */
  datatype Weather = Weather(lookupFails: bool, endpointExists: bool, answersOk: bool, deliveredStored: bool, failedStored: bool)

  datatype DeliveryOutcome = Acknowledged | Retried | DeadLetter | Discarded

  /** The steps of a handler whose message is in the dead queue. */
  function Burial(h: nat, failedStored: bool): seq<Label>
  {
    if failedStored then [MarkFailed(h)] + [Ack(h)] else [Discard(h)]
  }

  /** The steps of a handler whose delivery failed in this attempt. */
  function SecondThoughts(h: nat, attempt: nat, failedStored: bool): seq<Label>
  {
    [Republish(h)] + if attempt < MAX_ATTEMPTS then [Ack(h)] else Burial(h, failedStored)
  }

  /** All the steps that the handler `h` takes on a message in its `attempt`-th attempt. */
  function Script(h: nat, w: Weather, attempt: nat): seq<Label>
  {
    if w.lookupFails then [Discard(h)]
    else if !w.endpointExists then [EndpointMissing(h)] + Burial(h, w.failedStored)
    else if !w.answersOk then [Post(h, false)] + SecondThoughts(h, attempt, w.failedStored)
    else if !w.deliveredStored then
      [Post(h, true)] + [MarkDelivered(h, false)] + SecondThoughts(h, attempt, w.failedStored)
    else [Post(h, true)] + [MarkDelivered(h, true)] + [Ack(h)]
  }

  function DeliveryOutcomeOf(w: Weather, attempt: nat): DeliveryOutcome
  {
    if w.lookupFails then Discarded
    else if w.endpointExists && w.answersOk && w.deliveredStored then Acknowledged
    else if w.endpointExists && attempt < MAX_ATTEMPTS then Retried
    else if w.failedStored then DeadLetter
    else Discarded
  }

  class Worker {
    var pipe: Pipe
    /** What the rest of the world does before each of this process's steps. */
    var tape: seq<seq<Label>>
    ghost var trace: seq<Label>

    ghost predicate Reachable()
      reads this
    {
      Valid(Start, trace) && End(Start, trace) == pipe
    }

    constructor (before: Pipe, ghost history: seq<Label>, tape: seq<seq<Label>>)
      requires Valid(Start, history) && End(Start, history) == before
      ensures Reachable() && trace == history && pipe == before
    {
      pipe := before;
      this.tape := tape;
      trace := history;
    }

    method Take(l: Label)
      requires Reachable() && Enabled(pipe, l)
      modifies `pipe, `trace
      ensures Reachable() && pipe == Step(old(pipe), l) && trace == old(trace) + [l]
    {
      hide Enabled, Step;
      assert (trace + [l])[..|trace|] == trace;
      pipe := Step(pipe, l);
      trace := trace + [l];
    }

    /** The rest of the world takes the steps on the tape that it can take. */
    method Interfere(w: Work)
      requires Reachable() && InProgress(pipe, w)
      modifies this
      ensures Reachable() && old(trace) <= trace && InProgress(pipe, w) && SameWork(old(pipe), pipe, w)
      ensures Own(trace, w) == Own(old(trace), w) && Grows(old(pipe), pipe)
    {
      hide Enabled, Step, Valid, End, Touches, Own;
      if tape != [] {
        var labels := tape[0];
        tape := tape[1..];
        for i := 0 to |labels|
          invariant Reachable() && old(trace) <= trace && InProgress(pipe, w) && SameWork(old(pipe), pipe, w)
          invariant Own(trace, w) == Own(old(trace), w) && Grows(old(pipe), pipe)
        {
          if !Touches(labels[i], w) && Enabled(pipe, labels[i]) {
            StepGrows(pipe, labels[i]);
            OwnExtends(trace, labels[i], w);
            OthersLeaveWork(pipe, labels[i], w);
            Take(labels[i]);
          }
        }
      }
    }

    /** A step of the handler of this process's message. */
    method Handling(l: Label, ghost h: nat)
      requires Reachable() && Enabled(pipe, l) && OnHandler(l, h)
      modifies `pipe, `trace
      ensures Reachable() && pipe == Step(old(pipe), l) && old(trace) <= trace
      ensures Own(trace, OwnHandler(h)) == Own(old(trace), OwnHandler(h)) + [l]
    {
      hide Enabled, Step, Own;
      OwnExtends(trace, l, OwnHandler(h));
      Take(l);
    }

    /** reapStalePublishing: exactly the stale publishing rows go back to pending. */
    method Reap(stale: set<nat>)
      requires Reachable()
      modifies this
      ensures Reachable() && old(trace) <= trace
      ensures pipe == old(pipe).(status := pipe.status) && |pipe.status| == |old(pipe).status|
      ensures forall e | 0 <= e < |pipe.status| ::
                pipe.status[e] == if old(pipe).status[e] == Publishing && e in stale then Pending else old(pipe).status[e]
    {
      hide Valid, End;
      assert Reaped(pipe.status, stale, 0) == pipe.status;
      for e := 0 to |pipe.status|
        invariant Reachable() && old(trace) <= trace && |pipe.status| == |old(pipe).status|
        invariant pipe == old(pipe).(status := Reaped(old(pipe).status, stale, e))
      {
        ghost var next := Reaped(old(pipe).status, stale, e + 1);
        if Stale(pipe.status, stale, e) {
          assert next == pipe.status[e := Pending];
          Take(Label.Reap(e));
        } else {
          assert next == pipe.status;
        }
      }
    }

    /** claimForPublishing: the oldest pending events, if any, become publishing and this process's batch. */
    method ClaimForPublishing(limit: nat) returns (ids: seq<nat>, b: nat)
      requires Reachable()
      modifies `pipe, `trace
      ensures Reachable() && b == old(pipe).nextBatch
      ensures ids == Oldest(old(pipe).status, |old(pipe).status|, limit)
      ensures if ids == [] then pipe == old(pipe) && trace == old(trace)
              else trace == old(trace) + [ClaimBatch(ids)] && pipe == Step(old(pipe), ClaimBatch(ids))
    {
      ids := Oldest(pipe.status, |pipe.status|, limit);
      b := pipe.nextBatch;
      if ids != [] {
        Take(ClaimBatch(ids));
      }
    }

    /** A step of this process's relay on its batch. */
    method Relaying(l: Label, ghost b: nat)
      requires Reachable() && Enabled(pipe, l) && OnBatch(l, b)
      modifies `pipe, `trace
      ensures Reachable() && pipe == Step(old(pipe), l) && old(trace) <= trace
      ensures Own(trace, OwnBatch(b)) == Own(old(trace), OwnBatch(b)) + [l]
    {
      hide Enabled, Step, Own;
      OwnExtends(trace, l, OwnBatch(b));
      Take(l);
    }

    /** Publish the batch's messages in turn, up to the one before which the channel dies. */
    method PublishAll(b: nat, ids: seq<nat>, f: Faults) returns (sent: nat, ghost steps: seq<Label>)
      requires Reachable() && InProgress(pipe, OwnBatch(b))
      requires pipe.batches[b] == Batch(ids, 0, true, false) && OfBatch(pipe, ids)
      modifies this
      ensures Reachable() && old(trace) <= trace && InProgress(pipe, OwnBatch(b)) && OfBatch(pipe, ids)
      ensures sent == if |ids| <= f.diesAt then |ids| else f.diesAt
      ensures pipe.batches[b] == Batch(ids, sent, forall k | 0 <= k < sent && k < |f.arrives| :: f.arrives[k], false)
      ensures Own(trace, OwnBatch(b)) == Own(old(trace), OwnBatch(b)) + steps
      ensures |steps| == sent && forall k | 0 <= k < sent :: steps[k] == Publish(b, k < |f.arrives| ==> f.arrives[k])
    {
      hide Valid, End, Safe, Step, Enabled, Touches, Own, Grows;
      sent, steps := 0, [];
      while sent < |ids| && sent < f.diesAt
        invariant Reachable() && old(trace) <= trace && InProgress(pipe, OwnBatch(b)) && OfBatch(pipe, ids)
        invariant sent <= |ids| && sent <= f.diesAt
        invariant pipe.batches[b] == Batch(ids, sent, forall k | 0 <= k < sent && k < |f.arrives| :: f.arrives[k], false)
        invariant Own(trace, OwnBatch(b)) == Own(old(trace), OwnBatch(b)) + steps
        invariant |steps| == sent && forall k | 0 <= k < sent :: steps[k] == Publish(b, k < |f.arrives| ==> f.arrives[k])
      {
        Interfere(OwnBatch(b));
        var arrives := sent < |f.arrives| ==> f.arrives[sent];
        PublishSendsNext(pipe, b, arrives);
        Relaying(Publish(b, arrives), b);
        steps := steps + [Publish(b, arrives)];
        sent := sent + 1;
      }
    }

    /**
     * Phases 2 and 3 of a tick: publish the claimed batch, wait for the confirms, mark it; or put it back. `steps` are
     * the steps that this process takes on the batch: one publish per message up to the one before which the channel
     * dies, then the confirm if all were sent, taken and confirmed, then the mark, or the reset if anything failed.
     */
    method PublishAndMark(b: nat, ids: seq<nat>, f: Faults) returns (outcome: TickOutcome, ghost steps: seq<Label>)
      requires Reachable() && ids != [] && InProgress(pipe, OwnBatch(b))
      requires pipe.batches[b] == Batch(ids, 0, true, false) && OfBatch(pipe, ids)
      modifies this
      ensures Reachable() && old(trace) <= trace
      ensures Own(trace, OwnBatch(b)) == Own(old(trace), OwnBatch(b)) + steps
      ensures outcome != NothingPending
      ensures outcome == Relayed <==>
                && |ids| <= f.diesAt && (forall k | 0 <= k < |ids| && k < |f.arrives| :: f.arrives[k])
                && !f.confirmsLost && !f.markFails
      ensures outcome == LeftToReaper ==> f.resetFails
      ensures outcome == BackToPending ==> !f.resetFails
      ensures var n := if |ids| <= f.diesAt then |ids| else f.diesAt;
              var confirmed := n == |ids| && (forall k | 0 <= k < n && k < |f.arrives| :: f.arrives[k]) && !f.confirmsLost;
              && n < |steps| && (forall k | 0 <= k < n :: steps[k] == Publish(b, k < |f.arrives| ==> f.arrives[k]))
              && steps[n..] == (if confirmed then [Confirm(b)] else []) +
                               match outcome
                               case Relayed => [MarkPublished(b)]
                               case BackToPending => [ResetBatch(b)]
                               case _ => [CrashRelay(b)]
      ensures outcome == Relayed ==> forall k | 0 <= k < |ids| :: StatusIs(pipe, ids[k], Published) && Safe(pipe, ids[k])
      ensures outcome == BackToPending ==> forall k | 0 <= k < |ids| :: StatusIs(pipe, ids[k], Pending)
    {
      hide Valid, End, Safe, Step, Enabled, Touches, StatusIs, Own, Grows;
      var sent;
      sent, steps := PublishAll(b, ids, f);
      Interfere(OwnBatch(b));
      if sent == |ids| && pipe.batches[b].taken && !f.confirmsLost {
        ConfirmConfirms(pipe, b);
        Relaying(Confirm(b), b);
        steps := steps + [Confirm(b)];
        Interfere(OwnBatch(b));
        if !f.markFails {
          MarkingEndsBatch(trace, pipe, b);
          Relaying(MarkPublished(b), b);
          steps := steps + [MarkPublished(b)];
          outcome := Relayed;
          return;
        }
      }
      outcome := PutBack(b, ids, f.resetFails);
      steps := steps + [if f.resetFails then CrashRelay(b) else ResetBatch(b)];
    }

    /** The catch block of a tick: the whole batch becomes pending again, unless that update fails too. */
    method PutBack(b: nat, ids: seq<nat>, fails: bool) returns (outcome: TickOutcome)
      requires Reachable() && InProgress(pipe, OwnBatch(b)) && pipe.batches[b].ids == ids && OfBatch(pipe, ids)
      modifies this
      ensures Reachable() && old(trace) <= trace
      ensures outcome == if fails then LeftToReaper else BackToPending
      ensures Own(trace, OwnBatch(b)) == Own(old(trace), OwnBatch(b)) + [if fails then CrashRelay(b) else ResetBatch(b)]
      ensures !fails ==> forall k | 0 <= k < |ids| :: StatusIs(pipe, ids[k], Pending)
    {
      hide Valid, End, Safe, Step, Enabled, Touches, StatusIs, Own, Grows;
      Interfere(OwnBatch(b));
      ResettingEndsBatch(pipe, b);
      if fails {
        Relaying(CrashRelay(b), b);
        outcome := LeftToReaper;
      } else {
        Relaying(ResetBatch(b), b);
        outcome := BackToPending;
      }
    }

    /**
     * relayTick against any environment. Its batch is the oldest pending events at the moment of the claim. If it ends
     * relayed, every event of the batch is published and safe with the broker or beyond; if the broker did not confirm
     * all of them, every one is pending again, unless that update failed too and the batch is left to the reaper.
     */
    method RelayTick(stale: set<nat>, f: Faults)
      returns (outcome: TickOutcome, ids: seq<nat>, b: nat, ghost before: seq<Label>, ghost steps: seq<Label>)
      requires Reachable()
      modifies this
      ensures Reachable() && old(trace) <= before <= trace && Valid(Start, before)
      ensures var seen := End(Start, before).status; ids == Oldest(seen, |seen|, 20)
      ensures ids != [] ==> before + [ClaimBatch(ids)] <= trace && b == End(Start, before).nextBatch
      ensures Own(trace, OwnBatch(b)) == Own(before, OwnBatch(b)) + steps
      ensures outcome == NothingPending <==> ids == []
      ensures ids != [] ==>
                (outcome == Relayed <==>
                  && |ids| <= f.diesAt && (forall k | 0 <= k < |ids| && k < |f.arrives| :: f.arrives[k])
                  && !f.confirmsLost && !f.markFails)
      ensures outcome == LeftToReaper ==> f.resetFails
      ensures outcome == BackToPending ==> !f.resetFails
      ensures MarkPublished(b) in steps <==> outcome == Relayed
      ensures ResetBatch(b) in steps <==> outcome == BackToPending
      ensures outcome == Relayed ==> forall k | 0 <= k < |ids| :: StatusIs(pipe, ids[k], Published) && Safe(pipe, ids[k])
      ensures outcome == BackToPending ==> forall k | 0 <= k < |ids| :: StatusIs(pipe, ids[k], Pending)
    {
      hide Valid, End, Safe, Step, Enabled, Oldest, Touches, StatusIs, Own;
      Reap(stale);
      Interfere(NoWork);
      before, steps := trace, [];
      ids, b := ClaimForPublishing(RELAY_BATCH);
      if ids == [] {
        outcome := NothingPending;
      } else {
        ClaimStartsBatch(End(Start, before), ids);
        ClaimIsNotOnBatch(before, ids, b);
        outcome, steps := PublishAndMark(b, ids, f);
        LastStepTells(steps, if |ids| <= f.diesAt then |ids| else f.diesAt, b);
      }
    }

    /** The broker hands over the message at position `i`; anything may happen before the handler's first step. */
    method Receive(i: nat) returns (m: Message, h: nat)
      requires Reachable() && i < |pipe.deliver|
      modifies this
      ensures Reachable() && old(trace) <= trace
      ensures m == old(pipe).deliver[i] && 1 <= m.attempt <= 5 && h == |old(pipe).busy|
      ensures h < |pipe.busy| && pipe.busy[h] == Handler(m, Received)
      ensures Own(trace, OwnHandler(h)) == Own(old(trace), OwnHandler(h))
    {
      hide Valid, End, Inv, Marked, Own, Grows, AttemptOk;
      m, h := pipe.deliver[i], |pipe.busy|;
      HandedOver(trace, pipe, i);
      OwnExtends(trace, Deliver(i), OwnHandler(h));
      Take(Deliver(i));
      Interfere(OwnHandler(h));
    }

    /**
     * The consumer's handler of the message at position `i`, against any environment. Endpoint, database and attempt
     * fix the steps it takes, and nobody else takes any on its message: one POST at most, then delivered and
     * acknowledged, or sent to the retry queue, or to the dead queue and marked failed, or discarded. The answer, the
     * dead letter or the discard is still there at the end, a retried event is still safe, and the message is gone.
     */
    method Handle(i: nat, w: Weather)
      returns (outcome: DeliveryOutcome, m: Message, h: nat, ghost steps: seq<Label>)
      requires Reachable() && i < |pipe.deliver|
      modifies this
      ensures Reachable() && old(trace) <= trace
      ensures m == old(pipe).deliver[i] && 1 <= m.attempt <= 5 && h == |old(pipe).busy|
      ensures match outcome
              case Acknowledged => !w.lookupFails && w.endpointExists && w.answersOk && w.deliveredStored
              case Retried => !w.lookupFails && w.endpointExists && !(w.answersOk && w.deliveredStored) && m.attempt < 5
              case DeadLetter =>
                && !w.lookupFails && w.failedStored
                && (w.endpointExists ==> !(w.answersOk && w.deliveredStored) && m.attempt == 5)
              case Discarded =>
                || w.lookupFails
                || (!w.failedStored && (w.endpointExists ==> !(w.answersOk && w.deliveredStored) && m.attempt == 5))
      ensures Own(trace, OwnHandler(h)) == Own(old(trace), OwnHandler(h)) + steps
      ensures var asked := if w.answersOk then [Post(h, true), MarkDelivered(h, w.deliveredStored)] else [Post(h, false)];
              var refused := if w.endpointExists then asked + [Republish(h)] else [EndpointMissing(h)];
              steps == match outcome
                       case Acknowledged => asked + [Ack(h)]
                       case Retried => refused + [Ack(h)]
                       case DeadLetter => refused + [MarkFailed(h), Ack(h)]
                       case Discarded => if w.lookupFails then [Discard(h)] else refused + [Discard(h)]
      ensures OutcomeHolds(pipe, h, outcome, m)
    {
      hide Valid, End, Safe, Queued, Inv, Claimable, Marked, InHand, Own, Burial, SecondThoughts, Grows, AttemptOk, OnBatch;
      m, h := Receive(i);
      if w.lookupFails {
        Handling(Discard(h), h);
        outcome := Discarded;
      } else if !w.endpointExists {
        Handling(EndpointMissing(h), h);
        outcome := Bury(h, w.failedStored);
      } else {
        outcome := PostAndSettle(h, w);
      }
      steps := Script(h, w, m.attempt);
      ScriptMeans(h, w, m.attempt);
    }

    /** The handler once it has the endpoint. */
    method PostAndSettle(h: nat, w: Weather) returns (outcome: DeliveryOutcome)
      requires Reachable() && At(pipe, h, Received) && w.endpointExists && !w.lookupFails
      modifies this
      ensures Reachable() && old(trace) <= trace
      ensures var m := old(pipe).busy[h].message;
              && outcome == DeliveryOutcomeOf(w, m.attempt)
              && Own(trace, OwnHandler(h)) == Own(old(trace), OwnHandler(h)) + Script(h, w, m.attempt)
              && OutcomeHolds(pipe, h, outcome, m)
    {
      hide Valid, End, Safe, Queued, Inv, Claimable, Marked, InHand, Own, Burial, SecondThoughts;
      Handling(Post(h, w.answersOk), h);
      Interfere(OwnHandler(h));
      if w.answersOk {
        Handling(MarkDelivered(h, w.deliveredStored), h);
        Interfere(OwnHandler(h));
        if w.deliveredStored {
          Handling(Ack(h), h);
          outcome := Acknowledged;
          return;
        }
      }
      outcome := RetryOrBury(h, w.failedStored);
    }

    /** The catch block: a delivery that failed goes to the retry queue, or after its last attempt to the dead queue. */
    method RetryOrBury(h: nat, failedStored: bool) returns (outcome: DeliveryOutcome)
      requires Reachable() && At(pipe, h, Refused)
      modifies this
      ensures Reachable() && old(trace) <= trace
      ensures var m := old(pipe).busy[h].message;
              && outcome == (if m.attempt < MAX_ATTEMPTS then Retried else if failedStored then DeadLetter else Discarded)
              && Own(trace, OwnHandler(h)) == Own(old(trace), OwnHandler(h)) + SecondThoughts(h, m.attempt, failedStored)
              && OutcomeHolds(pipe, h, outcome, m)
    {
      hide Valid, End, Safe, Queued, Inv, Claimable, Marked, InHand, Own, Burial;
      var attempt := pipe.busy[h].message.attempt;
      Handling(Republish(h), h);
      if attempt < MAX_ATTEMPTS {
        Interfere(OwnHandler(h));
        AcknowledgedIsSafe(trace, pipe, h);
        Handling(Ack(h), h);
        outcome := Retried;
      } else {
        outcome := Bury(h, failedStored);
      }
    }

    /** The handler once the message is in the dead queue: mark the event failed and acknowledge. */
    method Bury(h: nat, failedStored: bool) returns (outcome: DeliveryOutcome)
      requires Reachable() && At(pipe, h, DeadLettered) && pipe.busy[h].message in pipe.dead
      modifies this
      ensures Reachable() && old(trace) <= trace
      ensures var m := old(pipe).busy[h].message;
              && outcome == (if failedStored then DeadLetter else Discarded)
              && Own(trace, OwnHandler(h)) == Own(old(trace), OwnHandler(h)) + Burial(h, failedStored)
              && OutcomeHolds(pipe, h, outcome, m)
    {
      hide Valid, End, Safe, Queued, Inv, Claimable, Marked, InHand, Own, OnBatch, AttemptOk;
      Interfere(OwnHandler(h));
      if failedStored {
        Handling(MarkFailed(h), h);
        Interfere(OwnHandler(h));
        Handling(Ack(h), h);
        outcome := DeadLetter;
      } else {
        Handling(Discard(h), h);
        outcome := Discarded;
      }
    }
  }

  /** Outcome and steps of a delivery, branch by branch. */
  lemma ScriptMeans(h: nat, w: Weather, attempt: nat)
    requires 1 <= attempt <= 5
    ensures match DeliveryOutcomeOf(w, attempt)
            case Acknowledged => !w.lookupFails && w.endpointExists && w.answersOk && w.deliveredStored
            case Retried => !w.lookupFails && w.endpointExists && !(w.answersOk && w.deliveredStored) && attempt < 5
            case DeadLetter =>
              && !w.lookupFails && w.failedStored
              && (w.endpointExists ==> !(w.answersOk && w.deliveredStored) && attempt == 5)
            case Discarded =>
              || w.lookupFails
              || (!w.failedStored && (w.endpointExists ==> !(w.answersOk && w.deliveredStored) && attempt == 5))
    ensures var asked := if w.answersOk then [Post(h, true), MarkDelivered(h, w.deliveredStored)] else [Post(h, false)];
            var refused := if w.endpointExists then asked + [Republish(h)] else [EndpointMissing(h)];
            Script(h, w, attempt) ==
              match DeliveryOutcomeOf(w, attempt)
              case Acknowledged => asked + [Ack(h)]
              case Retried => refused + [Ack(h)]
              case DeadLetter => refused + [MarkFailed(h), Ack(h)]
              case Discarded => if w.lookupFails then [Discard(h)] else refused + [Discard(h)]
  {
  }

  /** What the end of a delivery leaves behind. */
  ghost predicate OutcomeHolds(r: Pipe, h: nat, outcome: DeliveryOutcome, m: Message)
  {
    && h < |r.busy| && r.busy[h] == Handler(m, Gone)
    && match outcome
       case Acknowledged => m.event in r.posted
       case Retried => Safe(r, m.event)
       case DeadLetter => m in r.dead
       case Discarded => m.event in r.discarded
  }

  lemma HandedOver(trace: seq<Label>, r: Pipe, i: nat)
    requires Valid(Start, trace) && End(Start, trace) == r && i < |r.deliver|
    ensures 1 <= r.deliver[i].attempt <= 5
  {
    hide Valid, End;
    TraceKeepsInv(trace);
  }

  lemma AcknowledgedIsSafe(trace: seq<Label>, r: Pipe, h: nat)
    requires Valid(Start, trace) && End(Start, trace) == r && At(r, h, Settled)
    ensures Safe(Step(r, Ack(h)), r.busy[h].message.event)
  {
    hide Valid, End, Safe;
    TraceKeepsInv(trace);
    assert HandlerOk(r, r.busy[h]);
    SafeStays(r, Ack(h));
  }

  predicate StatusIs(r: Pipe, e: nat, s: Status)
  {
    e < |r.status| && r.status[e] == s
  }

  predicate OfBatch(r: Pipe, ids: seq<nat>)
  {
    forall k | 0 <= k < |ids| :: ids[k] < |r.status|
  }

  lemma ClaimStartsBatch(r: Pipe, ids: seq<nat>)
    requires Claimable(r, ids)
    ensures var r' := Step(r, ClaimBatch(ids)); var b := r.nextBatch;
            b in r'.batches && b < r'.nextBatch && r'.batches[b] == Batch(ids, 0, true, false) && OfBatch(r', ids)
  {
  }

  /** After publishes and perhaps a confirm, only the last step can be a mark or a reset. */
  lemma LastStepTells(steps: seq<Label>, n: nat, b: nat)
    requires n < |steps| && forall k | 0 <= k < n :: steps[k].Publish?
    requires |steps| == n + 1 || (|steps| == n + 2 && steps[n] == Confirm(b))
    ensures forall l: Label | l.MarkPublished? || l.ResetBatch? :: l in steps <==> l == steps[|steps| - 1]
  {
    assert steps == steps[..n] + steps[n..];
  }

  lemma ClaimIsNotOnBatch(trace: seq<Label>, ids: seq<nat>, b: nat)
    ensures Own(trace + [ClaimBatch(ids)], OwnBatch(b)) == Own(trace, OwnBatch(b))
  {
    hide Own;
    OwnExtends(trace, ClaimBatch(ids), OwnBatch(b));
  }

  lemma PublishSendsNext(r: Pipe, b: nat, arrives: bool)
    requires b in r.batches && b < r.nextBatch && r.batches[b].sent < |r.batches[b].ids|
    ensures Enabled(r, Publish(b, arrives))
    ensures var x := r.batches[b]; var r' := Step(r, Publish(b, arrives));
            && b in r'.batches && b < r'.nextBatch && r'.batches[b] == x.(sent := x.sent + 1, taken := x.taken && arrives)
            && r'.status == r.status
  {
  }

  lemma ConfirmConfirms(r: Pipe, b: nat)
    requires b in r.batches && b < r.nextBatch && r.batches[b].sent == |r.batches[b].ids| && r.batches[b].taken
    ensures Enabled(r, Confirm(b))
    ensures var r' := Step(r, Confirm(b));
            b in r'.batches && b < r'.nextBatch && r'.batches[b] == r.batches[b].(confirmed := true) && r'.status == r.status
  {
  }

  lemma MarkingEndsBatch(trace: seq<Label>, r: Pipe, b: nat)
    requires Valid(Start, trace) && End(Start, trace) == r
    requires b in r.batches && r.batches[b].confirmed && OfBatch(r, r.batches[b].ids)
    ensures Enabled(r, MarkPublished(b))
    ensures forall k | 0 <= k < |r.batches[b].ids| ::
              var e := r.batches[b].ids[k]; var r' := Step(r, MarkPublished(b));
              StatusIs(r', e, Published) && Safe(r', e)
  {
    hide Valid, End, Safe;
    TraceKeepsInv(trace);
    SafeStays(r, MarkPublished(b));
    assert BatchOk(r, r.batches[b]);
  }

  lemma ResettingEndsBatch(r: Pipe, b: nat)
    requires b in r.batches && OfBatch(r, r.batches[b].ids)
    ensures Enabled(r, ResetBatch(b)) && Enabled(r, CrashRelay(b))
    ensures forall k | 0 <= k < |r.batches[b].ids| :: StatusIs(Step(r, ResetBatch(b)), r.batches[b].ids[k], Pending)
  {
  }
}
