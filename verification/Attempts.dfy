/**
 * How often a refused event is delivered: the first copy starts at attempt 1, every refusal before the fifth moves it
 * to the retry queue with the next attempt, and the fifth sends it to the dead queue. So its POSTs are accounted for.
 */
module Attempts {
  import opened Sums
  import opened Relay
  import opened Drain

  /** The event of the message that the step works on in a consumer's hands, or publishes. */
  predicate IsAbout(r: Pipe, l: Label, e: nat)
    requires Enabled(r, l)
  {
    match l
    case Publish(b, arrives) => arrives && r.batches[b].ids[r.batches[b].sent] == e
    case EndpointMissing(h) => r.busy[h].message.event == e
    case Post(h, _) => r.busy[h].message.event == e
    case MarkDelivered(h, _) => r.busy[h].message.event == e
    case Republish(h) => r.busy[h].message.event == e
    case Discard(h) => r.busy[h].message.event == e
    case Redeliver(h) => r.busy[h].message.event == e
    case _ => false
  }

  /** Every attempt on the event so far has been refused by an endpoint that exists, and no copy came back or was dropped. */
  predicate RefusedHere(r: Pipe, l: Label, e: nat)
    requires Enabled(r, l)
  {
    IsAbout(r, l, e) ==>
      && !l.EndpointMissing? && !l.Redeliver? && (l.Post? ==> !l.ok)
      && (l.Discard? ==> At(r, l.h, DeadLettered))
  }

  ghost predicate AlwaysRefused(trace: seq<Label>, e: nat)
    requires Valid(Start, trace)
    decreases |trace|
  {
    trace == [] ||
    (AlwaysRefused(trace[..|trace| - 1], e) && RefusedHere(End(Start, trace[..|trace| - 1]), trace[|trace| - 1], e))
  }

  /** The POSTs of the run that carried the event. */
  ghost function PostsOf(trace: seq<Label>, e: nat): nat
    requires Valid(Start, trace)
    decreases |trace|
  {
    if trace == [] then 0
    else
      var l := trace[|trace| - 1];
      PostsOf(trace[..|trace| - 1], e)
      + if l.Post? && IsAbout(End(Start, trace[..|trace| - 1]), l, e) then 1 else 0
  }

  /** The copies of the event that relays have put into the deliver queue. */
  ghost function CopiesOf(trace: seq<Label>, e: nat): nat
    requires Valid(Start, trace)
    decreases |trace|
  {
    if trace == [] then 0
    else
      var l := trace[|trace| - 1];
      CopiesOf(trace[..|trace| - 1], e)
      + if l.Publish? && IsAbout(End(Start, trace[..|trace| - 1]), l, e) then 1 else 0
  }

  /** The POSTs that the event's copies on their way have been through. */
  function Behind(e: nat): Measure
  {
    var behind := (m: Message) => if m.event == e then m.attempt - 1 else 0;
    Measure(behind, behind, (h: Handler) =>
      if h.message.event != e then 0
      else match h.stage
        case Received => h.message.attempt - 1
        case Refused => h.message.attempt
        case _ => 0)
  }

  /** The event's copies on their way. */
  function OnTheWay(e: nat): Measure
  {
    Measure(IsOf(e), IsOf(e), (h: Handler) =>
      if h.message.event == e && (h.stage == Received || h.stage == Refused) then 1 else 0)
  }

  function IsOf(e: nat): Message -> int
  {
    (m: Message) => if m.event == e then 1 else 0
  }

  function DeadCopies(r: Pipe, e: nat): int
  {
    Sum(r.dead, IsOf(e))
  }

  /** Nothing of the event is answered, settled with a 2xx, or dead before its fifth attempt. */
  predicate StagesOk(r: Pipe, e: nat)
  {
    && (forall h | 0 <= h < |r.busy| && r.busy[h].message.event == e :: r.busy[h].stage != Answered)
    && (forall i | 0 <= i < |r.dead| && r.dead[i].event == e :: r.dead[i].attempt == 5)
  }

  ghost predicate Accounted(r: Pipe, e: nat, posts: int, copies: int)
  {
    && posts == Total(r, Behind(e)) + 5 * DeadCopies(r, e)
    && copies == Total(r, OnTheWay(e)) + DeadCopies(r, e)
  }

  lemma PublishAdds(r: Pipe, l: Label, m: Measure)
    requires Enabled(r, l) && l.Publish?
    ensures Total(Step(r, l), m) ==
              Total(r, m) + if l.arrives then m.delivering(Message(r.batches[l.batch].ids[r.batches[l.batch].sent], 1)) else 0
  {
    hide Sum;
    if l.arrives {
      SumOne(r.deliver, Message(r.batches[l.batch].ids[r.batches[l.batch].sent], 1), m.delivering);
    }
  }

  lemma RedeliverAdds(r: Pipe, h: nat, m: Measure)
    requires Enabled(r, Redeliver(h))
    ensures Total(Step(r, Redeliver(h)), m) == Total(r, m) + m.delivering(r.busy[h].message) + MovedCost(r.busy[h], Gone, m)
  {
    hide Sum;
    SumOne(r.deliver, r.busy[h].message, m.delivering);
    SumUpdate(r.busy, h, Handler(r.busy[h].message, Gone), m.handling);
  }

  /** What a step adds to the dead copies. */
  lemma DeadAfter(r: Pipe, l: Label, e: nat)
    requires Enabled(r, l)
    ensures DeadCopies(Step(r, l), e) == DeadCopies(r, e) +
              if (l.EndpointMissing? || (l.Republish? && MAX_ATTEMPTS <= r.busy[l.h].message.attempt)) && IsAbout(r, l, e)
              then 1 else 0
  {
    hide Sum, Marked;
    if l.EndpointMissing? || l.Republish? {
      SumOne(r.dead, r.busy[l.h].message, IsOf(e));
    }
  }

  /** What a step adds to the POSTs behind the event's copies, while all of them are refused. */
  lemma BehindAfter(r: Pipe, l: Label, e: nat)
    requires AttemptsOk(r) && StagesOk(r, e) && Enabled(r, l) && RefusedHere(r, l, e)
    ensures Total(Step(r, l), Behind(e)) + 5 * DeadCopies(Step(r, l), e) ==
              Total(r, Behind(e)) + 5 * DeadCopies(r, e) + if l.Post? && IsAbout(r, l, e) then 1 else 0
  {
    hide Total, DeadCopies, Marked, Step;
    DeadAfter(r, l, e);
    if l.Publish? {
      PublishAdds(r, l, Behind(e));
    } else if l.Redeliver? {
      RedeliverAdds(r, l.h, Behind(e));
    } else {
      StepChanges(r, l, Behind(e));
      assert l.Republish? ==> AttemptOk(r.busy[l.h].message);
    }
  }

  /** And to the copies. */
  lemma CopiesAfter(r: Pipe, l: Label, e: nat)
    requires AttemptsOk(r) && StagesOk(r, e) && Enabled(r, l) && RefusedHere(r, l, e)
    ensures Total(Step(r, l), OnTheWay(e)) + DeadCopies(Step(r, l), e) ==
              Total(r, OnTheWay(e)) + DeadCopies(r, e) + if l.Publish? && IsAbout(r, l, e) then 1 else 0
  {
    hide Total, DeadCopies, Marked, Step;
    DeadAfter(r, l, e);
    if l.Publish? {
      PublishAdds(r, l, OnTheWay(e));
    } else if l.Redeliver? {
      RedeliverAdds(r, l.h, OnTheWay(e));
    } else {
      StepChanges(r, l, OnTheWay(e));
    }
  }

  lemma StepKeepsStages(r: Pipe, l: Label, e: nat)
    requires AttemptsOk(r) && StagesOk(r, e) && Enabled(r, l) && RefusedHere(r, l, e)
    ensures StagesOk(Step(r, l), e)
  {
    hide Marked, Sum;
    assert l.Republish? ==> AttemptOk(r.busy[l.h].message);
  }

  lemma {:induction false} RunIsAccounted(trace: seq<Label>, e: nat)
    requires Valid(Start, trace) && AlwaysRefused(trace, e)
    ensures Accounted(End(Start, trace), e, PostsOf(trace, e), CopiesOf(trace, e)) && StagesOk(End(Start, trace), e)
    decreases |trace|
  {
    hide Enabled, Step, Total, DeadCopies, StagesOk, RefusedHere, IsAbout, Behind, OnTheWay;
    if trace == [] {
      NothingYet(Start, e);
    } else {
      var n := |trace| - 1;
      var r := End(Start, trace[..n]);
      RunIsAccounted(trace[..n], e);
      TraceKeepsInv(trace[..n]);
      BehindAfter(r, trace[n], e);
      CopiesAfter(r, trace[n], e);
      StepKeepsStages(r, trace[n], e);
    }
  }

  lemma NothingYet(r: Pipe, e: nat)
    requires r.deliver == [] && r.retry == [] && r.busy == [] && r.dead == []
    ensures Total(r, Behind(e)) == 0 && Total(r, OnTheWay(e)) == 0 && DeadCopies(r, e) == 0 && StagesOk(r, e)
  {
    hide Sum;
    NothingOnTheWay(r, e);
    SumOfNothing(r.dead, IsOf(e));
  }

  /**
   * Five attempts and no more. In every run in which an event's every POST was refused, its endpoint existed and no copy
   * was redelivered or dropped before the dead queue: the POSTs made are five for each dead copy and, for each one on its
   * way, those before its current attempt, or that one too once refused; and no copy published is lost.
   */
  lemma RefusedEventsGetFiveAttempts(trace: seq<Label>, e: nat)
    requires Valid(Start, trace) && AlwaysRefused(trace, e)
    ensures PostsOf(trace, e) == Total(End(Start, trace), Behind(e)) + 5 * DeadCopies(End(Start, trace), e)
    ensures CopiesOf(trace, e) == Total(End(Start, trace), OnTheWay(e)) + DeadCopies(End(Start, trace), e)
  {
    hide Valid, End, PostsOf, CopiesOf, DeadCopies, Total;
    RunIsAccounted(trace, e);
  }

  /** So each copy that is dead is in its fifth attempt, and once none is on its way all are dead after five POSTs each. */
  lemma DeadAfterFiveRefusals(trace: seq<Label>, e: nat)
    requires Valid(Start, trace) && AlwaysRefused(trace, e)
    ensures var r := End(Start, trace);
            && (forall i | 0 <= i < |r.dead| && r.dead[i].event == e :: r.dead[i].attempt == 5)
            && (!Queued(r.deliver, e) && !Queued(r.retry, e) && !InHand(r.busy, e) ==>
                  PostsOf(trace, e) == 5 * CopiesOf(trace, e) && CopiesOf(trace, e) == DeadCopies(r, e))
  {
    hide Valid, End, PostsOf, CopiesOf, DeadCopies, Total;
    RunIsAccounted(trace, e);
    var r := End(Start, trace);
    if !Queued(r.deliver, e) && !Queued(r.retry, e) && !InHand(r.busy, e) {
      NothingOnTheWay(r, e);
    }
  }

  lemma {:induction false} SumOfNothing<T>(s: seq<T>, f: T -> int)
    requires forall i | 0 <= i < |s| :: f(s[i]) == 0
    ensures Sum(s, f) == 0
  {
    if s != [] {
      SumOfNothing(s[..|s| - 1], f);
    }
  }

  lemma NothingOnTheWay(r: Pipe, e: nat)
    requires !Queued(r.deliver, e) && !Queued(r.retry, e) && !InHand(r.busy, e)
    ensures Total(r, Behind(e)) == 0 && Total(r, OnTheWay(e)) == 0
  {
    hide Sum;
    SumOfNothing(r.deliver, Behind(e).delivering);
    SumOfNothing(r.retry, Behind(e).retrying);
    SumOfNothing(r.busy, Behind(e).handling);
    SumOfNothing(r.deliver, OnTheWay(e).delivering);
    SumOfNothing(r.retry, OnTheWay(e).retrying);
    SumOfNothing(r.busy, OnTheWay(e).handling);
  }

  /**
   * One delivery, in numbers: a new copy is in attempt 1; a refused copy below attempt 5 goes to the retry queue in the
   * next attempt, and one in attempt 5 to the dead queue as it is; each to the end of that queue and to no other.
   */
  lemma CopiesMoveOn(trace: seq<Label>, l: Label)
    requires Valid(Start, trace) && Enabled(End(Start, trace), l) && (l.Publish? || l.Republish? || l.Expire?)
    ensures var r, r' := End(Start, trace), Step(End(Start, trace), l);
            match l
            case Publish(b, arrives) =>
              var x := r.batches[b];
              && r'.deliver == (if arrives then r.deliver + [Message(x.ids[x.sent], 1)] else r.deliver)
              && r'.retry == r.retry && r'.dead == r.dead
            case Expire(i) => r'.deliver == r.deliver + [r.retry[i]] && r'.retry == Without(r.retry, i) && r'.dead == r.dead
            case Republish(h) =>
              var Message(event, attempt) := r.busy[h].message;
              && 1 <= attempt <= 5 && r'.deliver == r.deliver
              && r'.retry == (if attempt < 5 then r.retry + [Message(event, attempt + 1)] else r.retry)
              && r'.dead == (if attempt == 5 then r.dead + [Message(event, 5)] else r.dead)
            case _ => true
  {
    hide Valid, End, Marked, Without;
    TraceKeepsInv(trace);
    assert l.Republish? ==> AttemptOk(End(Start, trace).busy[l.h].message);
  }
}
