/**
 * From the ledger to the endpoints: the outbox rows that committed operations insert are the rows the relays work on.
 * Whatever is committed and whatever the pipeline goes through in between, no emission is silently lost.
 */
module EndToEnd {
  import opened Ledger
  import opened Invariants
  import opened Relay
  import Outbox

  /** The committed tables, and the pipeline that works on the outbox; a row's status is at its event's position. */
  datatype Platform = Platform(st: State, pipe: Pipe)

  datatype Move = Committing(op: Op) | Delivering(l: Label)

  predicate Allowed(x: Platform, m: Move)
  {
    match m
    case Committing(op) => Guard(op, x.st)
    case Delivering(l) => !l.Enqueue? && Enabled(x.pipe, l)
  }

  /** The pipeline with `n` new rows in its outbox. */
  function Enqueued(r: Pipe, n: nat): Pipe
  {
    if n == 0 then r else Step(Enqueued(r, n - 1), Enqueue)
  }

  lemma EventsGrow(op: Op, st: State)
    requires Guard(op, st)
    ensures |st.db.events| <= |Apply(op, st).db.events|
  {
  }

  function Following(x: Platform, m: Move): Platform
    requires Allowed(x, m)
  {
    match m
    case Committing(op) =>
      EventsGrow(op, x.st);
      var st' := Apply(op, x.st);
      Platform(st', Enqueued(x.pipe, |st'.db.events| - |x.st.db.events|))
    case Delivering(l) => x.(pipe := Step(x.pipe, l))
  }

  ghost predicate Happens(moves: seq<Move>)
    decreases |moves|, 0
  {
    moves == [] || (Happens(moves[..|moves| - 1]) && Allowed(Reached(moves[..|moves| - 1]), moves[|moves| - 1]))
  }

  ghost function Reached(moves: seq<Move>): Platform
    requires Happens(moves)
    decreases |moves|, 1
  {
    if moves == [] then Platform(Initial, Start) else Following(Reached(moves[..|moves| - 1]), moves[|moves| - 1])
  }

  /** The operations committed by the moves. */
  function Commits(moves: seq<Move>): seq<Op>
  {
    if moves == [] then []
    else
      var m := moves[|moves| - 1];
      Commits(moves[..|moves| - 1]) + if m.Committing? then [m.op] else []
  }

  lemma {:induction false} EnqueuedRows(r: Pipe, n: nat)
    requires Inv(r)
    ensures Inv(Enqueued(r, n)) && |Enqueued(r, n).status| == |r.status| + n
  {
    hide Inv;
    if 0 < n {
      EnqueuedRows(r, n - 1);
      StepKeepsInv(Enqueued(r, n - 1), Enqueue);
    }
  }

  lemma StatusesKeepNumber(r: Pipe, l: Label)
    requires Enabled(r, l) && !l.Enqueue?
    ensures |Step(r, l).status| == |r.status|
  {
  }

  lemma {:induction false} PipelineFollowsOutbox(moves: seq<Move>)
    requires Happens(moves)
    ensures ValidRun(Initial, Commits(moves)) && After(Initial, Commits(moves)) == Reached(moves).st
    ensures Inv(Reached(moves).pipe) && |Reached(moves).pipe.status| == |Reached(moves).st.db.events|
    decreases |moves|
  {
    hide Guard, Apply, Enabled, Step, Inv, Enqueued;
    if moves == [] {
      NothingIsWrong();
    } else {
      var front, m := moves[..|moves| - 1], moves[|moves| - 1];
      PipelineFollowsOutbox(front);
      var x := Reached(front);
      match m
      case Committing(op) =>
        RunExtends(Initial, Commits(front), op);
        EventsGrow(op, x.st);
        EnqueuedRows(x.pipe, |Apply(op, x.st).db.events| - |x.st.db.events|);
      case Delivering(l) =>
        StepKeepsInv(x.pipe, l);
        StatusesKeepNumber(x.pipe, l);
        assert Commits(moves) == Commits(front);
    }
  }

  lemma NothingIsWrong()
    ensures Inv(Start)
  {
  }

  /** The outbox row is still the relays' to publish, or safe. */
  ghost predicate AccountedFor(x: Platform, e: nat)
  {
    e < |x.pipe.status| && (x.pipe.status[e] == Status.Pending || x.pipe.status[e] == Publishing || Safe(x.pipe, e))
  }

  /**
   * Each event that a committed confirm, payout success or payout failure emitted has exactly one outbox row for its
   * endpoint, and that row is pending or publishing, on its way, answered with a 2xx, dead-lettered or discarded.
   */
  lemma NoEmissionIsLost(moves: seq<Move>, k: nat, event: Event)
    requires Happens(moves) && ValidRun(Initial, Commits(moves)) && k < |Commits(moves)| && EmittedAt(Commits(moves), k, event)
    ensures var x := Reached(moves);
            exists e: nat | e < |x.st.db.events| ::
              && x.st.db.events[e] == event && AccountedFor(x, e)
              && forall i | 0 <= i < |x.st.db.events| && x.st.db.events[i] == event :: i == e
  {
    hide Happens, Reached, ValidRun, After, Safe, EmittedAt;
    PipelineFollowsOutbox(moves);
    OutboxExactlyOnce(Commits(moves), k, event);
    var x := Reached(moves);
    var e: nat :| e < |x.st.db.events| && x.st.db.events[e] == event
              && forall i | 0 <= i < |x.st.db.events| && Outbox.SameChange(x.st.db.events[i].source, event.source)
                           && x.st.db.events[i].endpoint == event.endpoint :: i == e;
    assert EventSafe(x.pipe, e);
    forall i | 0 <= i < |x.st.db.events| && x.st.db.events[i] == event
      ensures i == e
    {
      assert Outbox.SameChange(x.st.db.events[i].source, event.source);
    }
  }

  /** And every row of the outbox, for that matter. */
  lemma NoRowIsLost(moves: seq<Move>, e: nat)
    requires Happens(moves) && e < |Reached(moves).st.db.events|
    ensures AccountedFor(Reached(moves), e)
  {
    hide Happens, Reached, ValidRun, After, Safe;
    PipelineFollowsOutbox(moves);
    assert EventSafe(Reached(moves).pipe, e);
  }
}
