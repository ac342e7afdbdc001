/**
 * The polling webhook worker as a second client of the lease queue: one delivery against everything other workers,
 * and the other deliveries of its own batch, may do in between.
 */
module WebhookWorker {
  import opened LeaseQueue

  const P := WEBHOOK_POLICY

  /** What the endpoint lookup and the POST come to. */
  datatype Delivery = EndpointGone | Accepted | Rejected

  /** `LeaseLost` is a worker that stopped because its lease ran out, `NotStored` one whose last update failed. */
  datatype Outcome = Delivered | WillRetry | DeadLettered | LeaseLost | NotStored

  predicate Uses(s: Step, h: nat)
  {
    (s.Succeed? || s.Fail? || s.Abandon?) && s.hold == h
  }

  /** Only the writes under this worker's own lease are its own; every other step is for the world to take. */
  lemma OnlyTheseAreOwn(s: Step, h: nat)
    ensures Uses(s, h) <==> s in [Succeed(h), Fail(h), Abandon(h)]
  {
  }

  lemma OthersLeaveHold(q: Queue, s: Step, h: nat)
    requires Inv(P, q) && Enabled(P, q, s) && h in q.holds && !Uses(s, h)
    ensures h in Next(P, q, s).holds && Next(P, q, s).holds[h] == q.holds[h]
  {
  }

  lemma {:induction false} OneMore(q: Queue, steps: seq<Step>, s: Step)
    requires Valid(P, q, steps) && Enabled(P, Final(P, q, steps), s)
    ensures Valid(P, q, steps + [s]) && Final(P, q, steps + [s]) == Next(P, Final(P, q, steps), s)
    decreases |steps|
  {
    if steps == [] {
      assert [] + [s] == [s];
      assert Valid(P, Next(P, q, s), []);
    } else {
      assert (steps + [s])[1..] == steps[1..] + [s];
      OneMore(Next(P, q, steps[0]), steps[1..], s);
    }
  }

  class Poller {
    var queue: Queue
    /** What the rest of the world does before each of this worker's updates. */
    var tape: seq<seq<Step>>
    ghost var steps: seq<Step>

    ghost predicate Reachable()
      reads this
    {
      Valid(P, Empty, steps) && Final(P, Empty, steps) == queue && Inv(P, queue)
    }

    constructor (before: Queue, ghost history: seq<Step>, tape: seq<seq<Step>>)
      requires Valid(P, Empty, history) && Final(P, Empty, history) == before
      ensures Reachable() && steps == history && queue == before
    {
      queue := before;
      this.tape := tape;
      steps := history;
      new;
      RunKeepsInv(P, Empty, history);
    }

    method Take(s: Step)
      requires Reachable() && Enabled(P, queue, s)
      modifies `queue, `steps
      ensures Reachable() && queue == Next(P, old(queue), s) && steps == old(steps) + [s]
    {
      hide Enabled, Next, Inv;
      OneMore(Empty, steps, s);
      StepKeepsInv(P, queue, s);
      queue := Next(P, queue, s);
      steps := steps + [s];
    }

    method Interfere(h: nat)
      requires Reachable() && h in queue.holds
      modifies this
      ensures Reachable() && old(steps) <= steps
      ensures h in queue.holds && queue.holds[h] == old(queue).holds[h]
    {
      hide Enabled, Next, Inv, Valid, Final;
      if tape != [] {
        var world := tape[0];
        tape := tape[1..];
        for i := 0 to |world|
          invariant Reachable() && old(steps) <= steps
          invariant h in queue.holds && queue.holds[h] == old(queue).holds[h]
        {
          if !Uses(world[i], h) && Enabled(P, queue, world[i]) {
            OthersLeaveHold(queue, world[i], h);
            Take(world[i]);
          }
        }
      }
    }

    /**
     * deliverOne on the event claimed as `h`. Whatever it writes, it writes to the row it claimed, still open and with
     * the attempts it read: delivered rows close, a rejected delivery counts one attempt and either waits its backoff
     * or, at the fifth, closes the row; an event whose endpoint is gone closes at once.
     */
    method DeliverOne(h: nat, d: Delivery, deliveredStored: bool, failedStored: bool) returns (outcome: Outcome)
      requires Reachable() && h in queue.holds
      modifies this
      ensures Reachable() && old(steps) <= steps
      ensures outcome == LeaseLost || outcome == NotStored ==> h in queue.holds
      ensures outcome == LeaseLost ==> queue.holds[h].until <= queue.now
      ensures outcome != LeaseLost ==> (outcome == Delivered <==> d == Accepted && deliveredStored)
      ensures outcome != LeaseLost && outcome != Delivered ==> (outcome == NotStored <==> !failedStored)
      ensures outcome != LeaseLost && outcome != NotStored ==>
                && h !in queue.holds && 0 < |steps|
                && steps[|steps| - 1] == (if d == EndpointGone then Abandon(h) else if outcome == Delivered then Succeed(h) else Fail(h))
                && var Hold(row, attempts, _) := old(queue).holds[h];
                   && row < |queue.rows|
                   && var r := queue.rows[row];
                      match outcome
                      case Delivered => d == Accepted && deliveredStored && r.fate.Done? && r.attempts == attempts
                      case WillRetry =>
                        && d != EndpointGone && !(d == Accepted && deliveredStored) && attempts + 1 < 5
                        && r.fate.Open? && r.attempts == attempts + 1 && r.nextAt == queue.now + [5, 10, 20, 40][attempts]
                      case _ =>
                        && (d == EndpointGone || (!(d == Accepted && deliveredStored) && 5 <= attempts + 1))
                        && r.fate.GivenUp? && r.attempts == attempts + 1
    {
      hide Valid, Final, Backoff;
      Interfere(h);
      if queue.holds[h].until <= queue.now {
        return LeaseLost;
      }
      assert LiveHoldOk(P, queue, h);
      if d == Accepted && deliveredStored {
        Take(Succeed(h));
        return Delivered;
      }
      if d == Accepted {
        Interfere(h);
        if queue.holds[h].until <= queue.now {
          return LeaseLost;
        }
        assert LiveHoldOk(P, queue, h);
      }
      if !failedStored {
        return NotStored;
      }
      if d == EndpointGone {
        Take(Abandon(h));
        return DeadLettered;
      }
      var attempt := queue.holds[h].attempts + 1;
      Take(Fail(h));
      Delays();
      outcome := if attempt < P.maxAttempts then WillRetry else DeadLettered;
    }
  }
}
