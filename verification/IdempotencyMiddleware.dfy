/** The idempotency middleware and its repository, statement by statement, against every interleaving of other requests. */
module IdempotencyMiddleware {
  import opened Options
  import opened Idempotency

  /** What the handler comes to: a committed transaction, a refusal below 500, or an error. */
  datatype Verdict = Succeeds | Refuses(status: nat) | Breaks

  /** What one request meets: does the insert fail outright, what does its handler do, is its answer persisted. */
  datatype World = World(insertFails: bool, verdict: Verdict, stored: bool)

  predicate Concerns(l: Label, p: nat)
  {
    !l.Arrive? && l.p == p
  }

  predicate CommitsStay(g: Gate, g': Gate)
  {
    forall t | t in g.commits :: t in g'.commits && g'.commits[t] == g.commits[t]
  }

  lemma OthersLeaveRequest(g: Gate, l: Label, p: nat)
    requires Enabled(g, l) && p < |g.requests| && !Concerns(l, p)
    ensures p < |Step(g, l).requests| && Step(g, l).requests[p] == g.requests[p] && CommitsStay(g, Step(g, l))
  {
    hide Saved, Answer;
  }

  /** The handler ran for the request, and its effect is what the answer says. */
  predicate Executed(g: Gate, p: nat, verdict: Verdict, r: Response)
    requires p < |g.requests|
  {
    match verdict
    case Succeeds => r.Created? && r.txn in g.commits && g.commits[r.txn] == Commit(g.requests[p].key, p)
    case Refuses(status) => r == Refused(status)
    case Breaks => r == ServerError
  }

  /** What the key's row is once an answer has been persisted. */
  predicate OnRecord(g: Gate, k: Key, r: Response)
  {
    if r == ServerError then k !in g.keys else k in g.keys ==> g.keys[k].saved == Some(r)
  }

  class Middleware {
    var gate: Gate
    /** What the other requests do before each of this request's statements. */
    var tape: seq<seq<Label>>
    ghost var trace: seq<Label>

    ghost predicate Reachable()
      reads this
    {
      Valid(Start, trace) && End(Start, trace) == gate
    }

    constructor (before: Gate, ghost history: seq<Label>, tape: seq<seq<Label>>)
      requires Valid(Start, history) && End(Start, history) == before
      ensures Reachable() && trace == history && gate == before
    {
      gate := before;
      this.tape := tape;
      trace := history;
    }

    method Take(l: Label)
      requires Reachable() && Enabled(gate, l)
      modifies `gate, `trace
      ensures Reachable() && gate == Step(old(gate), l) && trace == old(trace) + [l]
    {
      hide Enabled, Step;
      OneMore(Start, trace, l);
      gate := Step(gate, l);
      trace := trace + [l];
    }

    /** The other requests take the steps on the tape that they can take. */
    method Interfere(p: nat)
      requires Reachable() && p < |gate.requests|
      modifies this
      ensures Reachable() && old(trace) <= trace
      ensures p < |gate.requests| && gate.requests[p] == old(gate).requests[p] && CommitsStay(old(gate), gate)
    {
      hide Enabled, Step, Valid, End;
      if tape != [] {
        var labels := tape[0];
        tape := tape[1..];
        for i := 0 to |labels|
          invariant Reachable() && old(trace) <= trace
          invariant p < |gate.requests| && gate.requests[p] == old(gate).requests[p] && CommitsStay(old(gate), gate)
        {
          if !Concerns(labels[i], p) && Enabled(gate, labels[i]) {
            OthersLeaveRequest(gate, labels[i], p);
            Take(labels[i]);
          }
        }
      }
    }

    /**
     * claim: insert the row, or read the existing one back in a second statement, which may find that it is gone.
     * In the end the request is answered from the row, or is to run its handler.
     */
    method Claim(p: nat) returns (created: bool, existing: Option<Row>)
      requires Reachable() && p < |gate.requests| && gate.requests[p].phase == Arrived
      modifies this
      ensures Reachable() && old(trace) <= trace && p < |gate.requests|
      ensures gate.requests[p].key == old(gate).requests[p].key && gate.requests[p].body == old(gate).requests[p].body
      ensures var Request(k, body, phase) := gate.requests[p];
              match existing
              case None =>
                && phase == Running(created)
                && if created then k in gate.keys && gate.keys[k] == Row(body, None) else k !in gate.keys
              case Some(row) =>
                && !created && k in gate.keys && gate.keys[k] == row
                && (row.body != body ==> phase == Sent(KeyReuse))
                && (row.body == body && row.saved == None ==> phase == Sent(KeyInProgress))
                && (row.body == body && row.saved.Some? ==> phase == Sent(row.saved.value))
      ensures OwnsNothing(gate, p)
    {
      hide Valid, End, OwnersOk;
      var k := gate.requests[p].key;
      Interfere(p);
      UnansweredOwnNothing(trace, gate, p);
      created := k !in gate.keys;
      existing := None;
      Take(Insert(p));
      if !created {
        Interfere(p);
        UnansweredOwnNothing(trace, gate, p);
        existing := if k in gate.keys then Some(gate.keys[k]) else None;
        Take(ReadBack(p));
      }
    }

    /**
     * The middleware around the handler, against any other requests. Either the request is told what the row says and
     * commits nothing, or its handler runs, the answer is exactly the handler's effect, and it is persisted before it
     * is sent: saved on the row below 500, the row released otherwise.
     */
    method Handle(k: Key, body: Body, w: World) returns (r: Response, ran: bool, p: nat, ghost persisted: seq<Label>)
      requires Reachable()
      modifies this
      ensures Reachable() && old(trace) <= trace
      ensures p == |old(gate).requests| < |gate.requests| && gate.requests[p] == Request(k, body, Sent(r))
      ensures w.insertFails ==> !ran && r == ServerError
      ensures !w.insertFails && !ran ==>
                && k in gate.keys
                && var row := gate.keys[k];
                   && (row.body != body ==> r == KeyReuse)
                   && (row.body == body && row.saved == None ==> r == KeyInProgress)
                   && (row.body == body && row.saved.Some? ==> r == row.saved.value)
      ensures ran ==> Executed(gate, p, w.verdict, r)
      ensures forall t | t in gate.commits :: gate.commits[t].owner == p <==> ran && r == Created(t)
      ensures ran ==> PersistedThenSent(persisted, trace, p, w.stored, k, r)
    {
      hide Valid, End, Answer, OwnersOk, PersistedThenSent;
      p := |gate.requests|;
      Take(Arrive(k, body));
      ran, persisted := false, [];
      if w.insertFails {
        Interfere(p);
        UnansweredOwnNothing(trace, gate, p);
        Take(InsertFails(p));
        r := ServerError;
        return;
      }
      var created, existing := Claim(p);
      if !created && existing.Some? {
        r := gate.requests[p].phase.response;
        return;
      }
      r, persisted := RunHandler(p, w);
      ran := true;
    }

    /** The handler: it commits one transaction, with an id of its own, or nothing. */
    method CallHandler(p: nat, verdict: Verdict) returns (r: Response)
      requires Reachable() && p < |gate.requests| && gate.requests[p].phase.Running?
      modifies this
      ensures Reachable() && old(trace) <= trace && p < |gate.requests|
      ensures gate.requests[p] == old(gate).requests[p].(phase := Responding(r))
      ensures Executed(gate, p, verdict, r)
    {
      hide Valid, End;
      Interfere(p);
      match verdict {
        case Succeeds =>
          ghost var unused := FreshId(gate.commits.Keys);
          assert unused !in gate.commits;
          var txn: nat :| txn !in gate.commits;
          Take(Execute(p, Commits(txn)));
        case Refuses(status) => Take(Execute(p, Rejects(status)));
        case Breaks => Take(Execute(p, Fails));
      }
      r := gate.requests[p].phase.answer;
    }

    /** The handler, and the replaced res.json that persists its answer and then, in a later step, sends it. */
    method RunHandler(p: nat, w: World) returns (r: Response, ghost persisted: seq<Label>)
      requires Reachable() && p < |gate.requests| && gate.requests[p].phase.Running?
      modifies this
      ensures Reachable() && old(trace) <= trace && p < |gate.requests|
      ensures gate.requests[p] == old(gate).requests[p].(phase := Sent(r))
      ensures Executed(gate, p, w.verdict, r)
      ensures forall t | t in gate.commits :: gate.commits[t].owner == p <==> r == Created(t)
      ensures PersistedThenSent(persisted, trace, p, w.stored, gate.requests[p].key, r)
    {
      hide Valid, End, OwnersOk;
      r := CallHandler(p, w.verdict);
      Interfere(p);
      Take(Persist(p, w.stored));
      persisted := trace;
      Interfere(p);
      Take(Send(p));
      OwnCommits(trace, gate, p);
    }
  }

  /** The run up to the step that persisted the answer, and the run that has just sent it. */
  ghost predicate PersistedThenSent(persisted: seq<Label>, trace: seq<Label>, p: nat, stored: bool, k: Key, r: Response)
  {
    && 0 < |persisted| < |trace| && persisted <= trace && Valid(Start, persisted)
    && persisted[|persisted| - 1] == Persist(p, stored) && trace[|trace| - 1] == Send(p)
    && (stored ==> OnRecord(End(Start, persisted), k, r))
  }

  predicate OwnsNothing(g: Gate, p: nat)
  {
    forall t | t in g.commits :: g.commits[t].owner != p
  }

  lemma UnansweredOwnNothing(trace: seq<Label>, g: Gate, p: nat)
    requires Valid(Start, trace) && End(Start, trace) == g && p < |g.requests|
    requires g.requests[p].phase == Arrived || g.requests[p].phase == Clashed
    ensures OwnsNothing(g, p)
  {
    hide Valid, End;
    RequestsCommitOnce(trace);
    forall t | t in g.commits
      ensures g.commits[t].owner != p
    {
      assert CommitOwned(g, t);
    }
  }

  lemma OwnCommits(trace: seq<Label>, g: Gate, p: nat)
    requires Valid(Start, trace) && End(Start, trace) == g && p < |g.requests| && g.requests[p].phase.Sent?
    ensures forall t | t in g.commits && g.commits[t].owner == p :: g.requests[p].phase.response == Created(t)
  {
    hide Valid, End;
    RequestsCommitOnce(trace);
    forall t | t in g.commits && g.commits[t].owner == p
      ensures g.requests[p].phase.response == Created(t)
    {
      assert CommitOwned(g, t);
    }
  }
}
