/**
 * Idempotency keys around a handler that either commits one transaction or has no effect. Any number of requests race
 * on any number of keys; every statement on the key table is its own step, a request may crash between any two, and
 * saving or releasing the outcome may fail. That the transfer call is such a handler is proved in IdempotentTransfers.
 */
module Idempotency {
  import opened Options

  datatype Key = Key(merchant: nat, name: nat)

  /** `Created` is a 201 with its transaction, `Refused` any other answer below 500, `ServerError` one from 500 up. */
  datatype Response = Created(txn: nat) | Refused(status: nat) | ServerError | KeyReuse | KeyInProgress

  /** What a request asks for; its fingerprint is taken to identify it. `printed` is the amount's number as text. */
  datatype Body = Body(from: nat, to: nat, amount: int, printed: int)

  /** The row of a key: the fingerprint of its request, and the saved answer once completed. */
  datatype Row = Row(body: Body, saved: Option<Response>)

  datatype Phase =
    | Arrived
    | Clashed                   // the insert met an existing row; not yet read back
    | Running(claimed: bool)    // the handler runs, with or without a row of its own
    | Responding(answer: Response)
    | Persisted(answer: Response, stored: bool)
    | Sent(response: Response)
    | Crashed

  datatype Request = Request(key: Key, body: Body, phase: Phase)

  /** `owner` is the request whose handler committed the transaction. */
  datatype Commit = Commit(key: Key, owner: nat)

  datatype Gate = Gate(keys: map<Key, Row>, requests: seq<Request>, commits: map<nat, Commit>)

  const Start := Gate(map[], [], map[])

  datatype Effect = Commits(txn: nat) | Rejects(status: nat) | Fails

  datatype Label =
    | Arrive(key: Key, body: Body)
    | Insert(p: nat)
    | InsertFails(p: nat)
    | ReadBack(p: nat)
    | Execute(p: nat, effect: Effect)
    | Persist(p: nat, stored: bool)
    | Send(p: nat)
    | Crash(p: nat)

  predicate Enabled(g: Gate, l: Label)
  {
    l.Arrive? ||
    (l.p < |g.requests| &&
     match l
     case Arrive(_, _) => true
     case Insert(p) => g.requests[p].phase == Arrived
     case InsertFails(p) => g.requests[p].phase == Arrived
     case ReadBack(p) => g.requests[p].phase == Clashed
     case Execute(p, e) => g.requests[p].phase.Running? && (e.Commits? ==> e.txn !in g.commits)
     case Persist(p, _) => g.requests[p].phase.Responding?
     case Send(p) => g.requests[p].phase.Persisted?
     case Crash(p) => !g.requests[p].phase.Sent? && !g.requests[p].phase.Crashed?)
  }

  function At(g: Gate, p: nat, phase: Phase): Gate
    requires p < |g.requests|
  {
    g.(requests := g.requests[p := g.requests[p].(phase := phase)])
  }

  /** What a request that met the row `row` is told. */
  function Answer(row: Row, body: Body): Response
  {
    if row.body != body then KeyReuse
    else match row.saved
      case None => KeyInProgress
      case Some(r) => r
  }

  /** The key table after the handler's answer is persisted: released on a server error, else completed. */
  function Saved(keys: map<Key, Row>, k: Key, answer: Response): map<Key, Row>
  {
    if answer == ServerError then keys - {k}
    else if k in keys then keys[k := keys[k].(saved := Some(answer))]
    else keys
  }

  function Step(g: Gate, l: Label): Gate
    requires Enabled(g, l)
  {
    match l
    case Arrive(k, body) => g.(requests := g.requests + [Request(k, body, Arrived)])
    case Insert(p) =>
      var Request(k, body, _) := g.requests[p];
      if k in g.keys then At(g, p, Clashed)
      else At(g, p, Running(true)).(keys := g.keys[k := Row(body, None)])
    case InsertFails(p) => At(g, p, Sent(ServerError))
    case ReadBack(p) =>
      var Request(k, body, _) := g.requests[p];
      At(g, p, if k in g.keys then Sent(Answer(g.keys[k], body)) else Running(false))
    case Execute(p, effect) =>
      (match effect
       case Commits(t) => At(g, p, Responding(Created(t))).(commits := g.commits[t := Commit(g.requests[p].key, p)])
       case Rejects(status) => At(g, p, Responding(Refused(status)))
       case Fails => At(g, p, Responding(ServerError)))
    case Persist(p, stored) =>
      var answer := g.requests[p].phase.answer;
      At(g, p, Phase.Persisted(answer, stored)).(keys := if stored then Saved(g.keys, g.requests[p].key, answer) else g.keys)
    case Send(p) => At(g, p, Sent(g.requests[p].phase.answer))
    case Crash(p) => At(g, p, Crashed)
  }

  /** The read-back after a clash finds no row: it was released in between. */
  predicate FindsNothing(g: Gate, l: Label)
    requires Enabled(g, l)
  {
    l.ReadBack? && g.requests[l.p].key !in g.keys
  }

  ghost predicate Valid(g: Gate, trace: seq<Label>)
    decreases |trace|, 0
  {
    trace == [] || (Valid(g, trace[..|trace| - 1]) && Enabled(End(g, trace[..|trace| - 1]), trace[|trace| - 1]))
  }

  ghost function End(g: Gate, trace: seq<Label>): Gate
    requires Valid(g, trace)
    decreases |trace|, 1
  {
    if trace == [] then g else Step(End(g, trace[..|trace| - 1]), trace[|trace| - 1])
  }

  /** Every claim's insert and read-back acted as one: no read-back in the run found nothing. */
  ghost predicate ClaimsAtomic(g: Gate, trace: seq<Label>)
    requires Valid(g, trace)
    decreases |trace|
  {
    trace == [] ||
    (ClaimsAtomic(g, trace[..|trace| - 1]) && !FindsNothing(End(g, trace[..|trace| - 1]), trace[|trace| - 1]))
  }

  predicate NoCommit(g: Gate, k: Key)
  {
    forall t | t in g.commits :: g.commits[t].key != k
  }

  predicate OnlyCommit(g: Gate, k: Key, t: nat)
  {
    t in g.commits && g.commits[t].key == k && forall u | u in g.commits && g.commits[u].key == k :: u == t
  }

  predicate AtMostOnce(g: Gate)
  {
    forall t, u | t in g.commits && u in g.commits && t != u :: g.commits[t].key != g.commits[u].key
  }

  // ---- With atomic claims ----

  predicate Open(g: Gate, k: Key)
  {
    k in g.keys && g.keys[k].saved == None
  }

  predicate Active(q: Request)
  {
    q.phase.Running? || q.phase.Responding?
  }

  /** The answer is true of what was committed under the key, by a request with this fingerprint. */
  predicate Truthful(g: Gate, k: Key, body: Body, r: Response)
  {
    match r
    case Created(t) => OnlyCommit(g, k, t) && MadeBy(g, t, body)
    case Refused(_) => NoCommit(g, k)
    case _ => true
  }

  predicate MadeBy(g: Gate, t: nat, body: Body)
    requires t in g.commits
  {
    g.commits[t].owner < |g.requests| && g.requests[g.commits[t].owner].body == body
  }

  /** A request whose handler runs or has run, and has not been persisted, has the only row of its key, still open. */
  predicate RequestOk(g: Gate, q: Request)
  {
    match q.phase
    case Running(claimed) => claimed && Open(g, q.key) && g.keys[q.key].body == q.body && NoCommit(g, q.key)
    case Responding(r) =>
      && Open(g, q.key) && g.keys[q.key].body == q.body && Truthful(g, q.key, q.body, r)
      && (r == ServerError ==> NoCommit(g, q.key)) && !r.KeyReuse? && !r.KeyInProgress?
    case Persisted(r, stored) =>
      && (r.Created? ==> Truthful(g, q.key, q.body, r))
      && (stored && r != ServerError ==> q.key in g.keys && g.keys[q.key] == Row(q.body, Some(r)))
    case Sent(r) => r.Created? ==> Truthful(g, q.key, q.body, r)
    case _ => true
  }

  predicate RowOk(g: Gate, k: Key, row: Row)
  {
    match row.saved
    case None => true
    case Some(r) => (r.Created? || r.Refused?) && Truthful(g, k, row.body, r)
  }

  predicate OwnersDiffer(g: Gate)
  {
    forall p, q | 0 <= p < q < |g.requests| && Active(g.requests[p]) && Active(g.requests[q]) ::
      g.requests[p].key != g.requests[q].key
  }

  predicate Inv(g: Gate)
  {
    && (forall p | 0 <= p < |g.requests| :: RequestOk(g, g.requests[p]))
    && (forall k | k in g.keys :: RowOk(g, k, g.keys[k]))
    && (forall t | t in g.commits :: g.commits[t].key in g.keys)
    && AtMostOnce(g)
    && OwnersDiffer(g)
  }

  /** The step commits a transaction under the key. */
  predicate CommitsUnder(g: Gate, l: Label, k: Key)
    requires Enabled(g, l)
  {
    l.Execute? && l.effect.Commits? && g.requests[l.p].key == k
  }

  /** What was true of a key's commits stays true while none is added. */
  lemma TruthStays(g: Gate, l: Label, k: Key)
    requires Enabled(g, l) && !CommitsUnder(g, l, k)
    ensures NoCommit(g, k) ==> NoCommit(Step(g, l), k)
    ensures forall body, r | Truthful(g, k, body, r) :: Truthful(Step(g, l), k, body, r)
  {
    hide Saved, Answer;
    var g' := Step(g, l);
    assert forall u | u in g'.commits && u !in g.commits :: g'.commits[u].key != k;
    assert forall u | u in g.commits :: u in g'.commits && g'.commits[u] == g.commits[u];
    assert forall q | 0 <= q < |g.requests| :: g'.requests[q].body == g.requests[q].body;
  }

  lemma NothingTrueOfNothing(g: Gate, k: Key, body: Body, t: nat)
    requires NoCommit(g, k)
    ensures !Truthful(g, k, body, Created(t))
  {
  }

  lemma OthersStayOk(g: Gate, l: Label, p: nat)
    requires Inv(g) && Enabled(g, l) && !FindsNothing(g, l) && p < |g.requests| && (l.Arrive? || p != l.p)
    ensures RequestOk(Step(g, l), Step(g, l).requests[p])
  {
    hide Truthful, NoCommit, AtMostOnce, Answer, RowOk;
    var q := g.requests[p];
    assert RequestOk(g, q);
    if !l.Arrive? {
      assert RequestOk(g, g.requests[l.p]);
    }
    if CommitsUnder(g, l, q.key) {
      if q.phase.Sent? && q.phase.response.Created? {
        NothingTrueOfNothing(g, q.key, q.body, q.phase.response.txn);
      } else if q.phase.Persisted? && q.phase.answer.Created? {
        NothingTrueOfNothing(g, q.key, q.body, q.phase.answer.txn);
      }
    } else {
      TruthStays(g, l, q.key);
    }
  }

  lemma MoverStaysOk(g: Gate, l: Label)
    requires Inv(g) && Enabled(g, l) && !FindsNothing(g, l) && !l.Arrive?
    ensures RequestOk(Step(g, l), Step(g, l).requests[l.p])
  {
    hide AtMostOnce, OwnersDiffer;
    var q := g.requests[l.p];
    assert RequestOk(g, q);
    if l.ReadBack? {
      assert RowOk(g, q.key, g.keys[q.key]);
    }
  }

  lemma RowsStayOk(g: Gate, l: Label, k: Key)
    requires Inv(g) && Enabled(g, l) && !FindsNothing(g, l) && k in Step(g, l).keys
    ensures RowOk(Step(g, l), k, Step(g, l).keys[k])
  {
    hide Truthful, NoCommit, AtMostOnce, Answer, OwnersDiffer;
    assert k in g.keys ==> RowOk(g, k, g.keys[k]);
    if !l.Arrive? {
      assert RequestOk(g, g.requests[l.p]);
    }
    if !CommitsUnder(g, l, k) {
      TruthStays(g, l, k);
    }
  }

  lemma CommitsStayKeyed(g: Gate, l: Label)
    requires Inv(g) && Enabled(g, l) && !FindsNothing(g, l)
    ensures forall t | t in Step(g, l).commits :: Step(g, l).commits[t].key in Step(g, l).keys
    ensures AtMostOnce(Step(g, l))
  {
    hide OwnersDiffer, Answer, RowOk;
    if !l.Arrive? {
      assert RequestOk(g, g.requests[l.p]);
    }
  }

  /** Whoever is at work after the step was before, unless it has just inserted its row. */
  lemma AtWorkBefore(g: Gate, l: Label, p: nat)
    requires Inv(g) && Enabled(g, l) && !FindsNothing(g, l) && p < |Step(g, l).requests| && Active(Step(g, l).requests[p])
    ensures p < |g.requests| && Step(g, l).requests[p].key == g.requests[p].key
    ensures Active(g.requests[p]) || (l == Insert(p) && g.requests[p].key !in g.keys)
    ensures Active(g.requests[p]) ==> g.requests[p].key in g.keys
  {
    hide Answer, RowOk, AtMostOnce, Truthful, NoCommit, OwnersDiffer, Saved;
    assert p < |g.requests| ==> RequestOk(g, g.requests[p]);
  }

  lemma OwnersStayDifferent(g: Gate, l: Label)
    requires Inv(g) && Enabled(g, l) && !FindsNothing(g, l)
    ensures OwnersDiffer(Step(g, l))
  {
    hide Answer, RowOk, AtMostOnce, RequestOk, Enabled, Step, FindsNothing;
    var g' := Step(g, l);
    forall p, q | 0 <= p < q < |g'.requests| && Active(g'.requests[p]) && Active(g'.requests[q])
      ensures g'.requests[p].key != g'.requests[q].key
    {
      AtWorkBefore(g, l, p);
      AtWorkBefore(g, l, q);
    }
  }

  lemma StepKeepsInv(g: Gate, l: Label)
    requires Inv(g) && Enabled(g, l) && !FindsNothing(g, l)
    ensures Inv(Step(g, l))
  {
    hide RequestOk, RowOk, AtMostOnce, OwnersDiffer, Answer;
    var g' := Step(g, l);
    forall p | 0 <= p < |g'.requests|
      ensures RequestOk(g', g'.requests[p])
    {
      if p < |g.requests| {
        if !l.Arrive? && l.p == p {
          MoverStaysOk(g, l);
        } else {
          OthersStayOk(g, l, p);
        }
      } else {
        NewcomerIsOk(g', g'.requests[p]);
      }
    }
    forall k | k in g'.keys
      ensures RowOk(g', k, g'.keys[k])
    {
      RowsStayOk(g, l, k);
    }
    CommitsStayKeyed(g, l);
    OwnersStayDifferent(g, l);
  }

  lemma NewcomerIsOk(g: Gate, q: Request)
    requires q.phase == Arrived
    ensures RequestOk(g, q)
  {
  }

  lemma {:induction false} RunKeepsInv(g: Gate, trace: seq<Label>)
    requires Inv(g) && Valid(g, trace) && ClaimsAtomic(g, trace)
    ensures Inv(End(g, trace))
    decreases |trace|
  {
    hide Enabled, Step;
    if trace != [] {
      RunKeepsInv(g, trace[..|trace| - 1]);
      StepKeepsInv(End(g, trace[..|trace| - 1]), trace[|trace| - 1]);
    }
  }

  predicate Got201(g: Gate, p: nat, t: nat)
  {
    p < |g.requests| && g.requests[p].phase == Sent(Created(t))
  }

  /**
   * With atomic claims, for any number of racing requests, crashes and failed saves: at most one transaction commits
   * per key; every 201, first or replayed, carries the id of its key's one transaction; and it is only given for the
   * same request, by fingerprint, as the one that was executed.
   */
  lemma KeysExecuteOnce(trace: seq<Label>)
    requires Valid(Start, trace) && ClaimsAtomic(Start, trace)
    ensures var g := End(Start, trace);
            && AtMostOnce(g)
            && forall p: nat, t: nat | Got201(g, p, t) :: OnlyCommit(g, g.requests[p].key, t) && MadeBy(g, t, g.requests[p].body)
  {
    hide Valid, End;
    RunKeepsInv(Start, trace);
    var g := End(Start, trace);
    forall p: nat, t: nat | Got201(g, p, t)
      ensures OnlyCommit(g, g.requests[p].key, t) && MadeBy(g, t, g.requests[p].body)
    {
      assert RequestOk(g, g.requests[p]);
    }
  }

  /** A key that the step releases has no committed transaction, by this attempt or any other. */
  lemma ReleasedMeansNoEffect(trace: seq<Label>, l: Label, k: Key)
    requires Valid(Start, trace) && ClaimsAtomic(Start, trace) && Enabled(End(Start, trace), l)
    requires !FindsNothing(End(Start, trace), l)
    requires k in End(Start, trace).keys && k !in Step(End(Start, trace), l).keys
    ensures NoCommit(Step(End(Start, trace), l), k)
  {
    hide Valid, End;
    RunKeepsInv(Start, trace);
    var g := End(Start, trace);
    assert RequestOk(g, g.requests[l.p]);
    TruthStays(g, l, k);
  }

  lemma CompletedStays(g: Gate, l: Label, k: Key)
    requires Inv(g) && Enabled(g, l) && !FindsNothing(g, l) && k in g.keys && g.keys[k].saved.Some?
    ensures k in Step(g, l).keys && Step(g, l).keys[k] == g.keys[k]
  {
    if !l.Arrive? {
      assert RequestOk(g, g.requests[l.p]);
    }
  }

  /** A completed record never changes and is never released. */
  lemma {:induction false} CompletedNeverChanges(past: seq<Label>, trace: seq<Label>, k: Key)
    requires Valid(Start, trace) && ClaimsAtomic(Start, trace) && past <= trace
    requires Valid(Start, past) && k in End(Start, past).keys && End(Start, past).keys[k].saved.Some?
    ensures k in End(Start, trace).keys && End(Start, trace).keys[k] == End(Start, past).keys[k]
    decreases |trace|
  {
    hide Enabled, Step;
    if |past| == |trace| {
      assert past == trace;
    } else {
      var n := |trace| - 1;
      CompletedNeverChanges(past, trace[..n], k);
      RunKeepsInv(Start, trace[..n]);
      CompletedStays(End(Start, trace[..n]), trace[n], k);
    }
  }

  /** What a later request of the key may have come to, once `r` is saved for the body `body`. */
  predicate Replays(q: Request, body: Body, r: Response, insertFailed: bool)
  {
    match q.phase
    case Arrived => true
    case Clashed => true
    case Crashed => true
    case Sent(answer) => (insertFailed && answer == ServerError) || answer == if q.body == body then r else KeyReuse
    case _ => false
  }

  lemma ReplayStep(g: Gate, l: Label, q: nat, body: Body, r: Response, insertFailed: bool)
    requires Enabled(g, l) && !FindsNothing(g, l) && q < |g.requests| && Replays(g.requests[q], body, r, insertFailed)
    requires g.requests[q].key in g.keys && g.keys[g.requests[q].key] == Row(body, Some(r))
    ensures Step(g, l).requests[q].key == g.requests[q].key
    ensures Replays(Step(g, l).requests[q], body, r, insertFailed || l == InsertFails(q))
  {
    hide Saved;
  }

  /** Once an answer below 500 has been stored, its key's row holds it with the fingerprint of the request it answers. */
  lemma StoredIsSaved(trace: seq<Label>, p: nat, r: Response)
    requires Valid(Start, trace) && ClaimsAtomic(Start, trace)
    requires p < |End(Start, trace).requests| && End(Start, trace).requests[p].phase == Phase.Persisted(r, true) && r != ServerError
    ensures var g := End(Start, trace); var q := g.requests[p];
            q.key in g.keys && g.keys[q.key] == Row(q.body, Some(r))
  {
    hide Valid, End;
    RunKeepsInv(Start, trace);
    assert RequestOk(End(Start, trace), End(Start, trace).requests[p]);
  }

  /**
   * The replay is verbatim. With atomic claims, once a request's answer below 500 is stored, every request with its key
   * that comes later or has yet to read the row never runs its handler: with the same body it is sent exactly that
   * answer, with another one it is told that the key is reused, and only a failing insert makes it an error instead.
   */
  lemma {:induction false} ReplayIsVerbatim(past: seq<Label>, trace: seq<Label>, p: nat, q: nat, r: Response)
    requires Valid(Start, trace) && ClaimsAtomic(Start, trace) && past <= trace
    requires Valid(Start, past)
    requires p < |End(Start, past).requests| && End(Start, past).requests[p].phase == Phase.Persisted(r, true) && r != ServerError
    requires q < |End(Start, trace).requests| && End(Start, trace).requests[q].key == End(Start, past).requests[p].key
    requires q < |End(Start, past).requests| ==>
               End(Start, past).requests[q].phase == Arrived || End(Start, past).requests[q].phase == Clashed
    ensures var x, body := End(Start, trace).requests[q], End(Start, past).requests[p].body;
            match x.phase
            case Arrived => true
            case Clashed => true
            case Crashed => true
            case Sent(answer) =>
              (answer == ServerError && InsertFails(q) in trace[|past|..]) || answer == if x.body == body then r else KeyReuse
            case _ => false
    decreases |trace|
  {
    hide Enabled, Step, FindsNothing;
    var body := End(Start, past).requests[p].body;
    if |past| == |trace| {
      assert past == trace;
    } else {
      var n := |trace| - 1;
      var g := End(Start, trace[..n]);
      assert trace[..n][..|past|] == past;
      StepKeepsRequests(g, trace[n]);
      if q < |g.requests| {
        ReplayIsVerbatim(past, trace[..n], p, q, r);
        AtomicSoFar(past, trace);
        StoredIsSaved(past, p, r);
        CompletedNeverChanges(past, trace[..n], g.requests[q].key);
        assert trace[..n][|past|..] + [trace[n]] == trace[|past|..];
        ReplayStep(g, trace[n], q, body, r, InsertFails(q) in trace[..n][|past|..]);
      }
    }
  }

  lemma {:induction false} AtomicSoFar(past: seq<Label>, trace: seq<Label>)
    requires Valid(Start, trace) && ClaimsAtomic(Start, trace) && past <= trace && Valid(Start, past)
    ensures ClaimsAtomic(Start, past)
    decreases |trace|
  {
    hide Enabled, Step, FindsNothing;
    if |past| == |trace| {
      assert past == trace;
    } else {
      AtomicSoFar(past, trace[..|trace| - 1]);
    }
  }

  /** Requests are only added, as arrived, and keep their keys. */
  lemma StepKeepsRequests(g: Gate, l: Label)
    requires Enabled(g, l)
    ensures |g.requests| <= |Step(g, l).requests|
    ensures forall q | 0 <= q < |g.requests| ::
              Step(g, l).requests[q].key == g.requests[q].key && Step(g, l).requests[q].body == g.requests[q].body
    ensures forall q | |g.requests| <= q < |Step(g, l).requests| :: Step(g, l).requests[q].phase == Arrived
  {
    hide Saved, Answer;
  }

  // ---- A request that dies holding its key ----

  /** The key's row is open and nobody is at work on it. */
  predicate Orphaned(g: Gate, k: Key, body: Body)
  {
    && k in g.keys && g.keys[k] == Row(body, None)
    && forall p | 0 <= p < |g.requests| && g.requests[p].key == k :: !Active(g.requests[p])
  }

  /** With atomic claims a request that dies at work, or after its commit but before its answer, orphans its key. */
  lemma DyingOrphansKey(trace: seq<Label>, p: nat)
    requires Valid(Start, trace) && ClaimsAtomic(Start, trace)
    requires p < |End(Start, trace).requests|
    requires End(Start, trace).requests[p].phase.Running? || End(Start, trace).requests[p].phase.Responding?
    ensures var g := End(Start, trace);
            && Enabled(g, Crash(p))
            && Orphaned(Step(g, Crash(p)), g.requests[p].key, g.requests[p].body)
            && Step(g, Crash(p)).commits == g.commits
  {
    hide Valid, End, ClaimsAtomic;
    RunKeepsInv(Start, trace);
    var g := End(Start, trace);
    assert RequestOk(g, g.requests[p]);
  }

  lemma OrphanedStays(g: Gate, l: Label, k: Key, body: Body)
    requires Enabled(g, l) && Orphaned(g, k, body)
    ensures !FindsNothing(g, l) || g.requests[l.p].key != k
    ensures Orphaned(Step(g, l), k, body)
  {
  }

  lemma OrphanAnswers(g: Gate, l: Label, k: Key, body: Body, q: nat, insertFailed: bool)
    requires Enabled(g, l) && Orphaned(g, k, body) && q < |g.requests| && g.requests[q].key == k
    requires Replays(g.requests[q], body, KeyInProgress, insertFailed)
    ensures Step(g, l).requests[q].key == k && Replays(Step(g, l).requests[q], body, KeyInProgress, insertFailed || l == InsertFails(q))
  {
    hide Saved;
  }

  /**
   * An orphaned key stays so for good, in every run: nothing ever releases or completes it, and whoever comes later with
   * the key is told that it is in progress, or reused, and never runs, even if the transaction had committed.
   */
  lemma {:induction false} OrphanedKeysStayInProgress(past: seq<Label>, trace: seq<Label>, k: Key, body: Body, q: nat)
    requires Valid(Start, trace) && past <= trace && Valid(Start, past) && Orphaned(End(Start, past), k, body)
    ensures Orphaned(End(Start, trace), k, body)
    ensures |End(Start, past).requests| <= q < |End(Start, trace).requests| && End(Start, trace).requests[q].key == k ==>
              var x := End(Start, trace).requests[q];
              match x.phase
              case Arrived => true
              case Clashed => true
              case Crashed => true
              case Sent(answer) =>
                || (answer == ServerError && InsertFails(q) in trace[|past|..])
                || answer == if x.body == body then KeyInProgress else KeyReuse
              case _ => false
    decreases |trace|
  {
    hide Enabled, Step, FindsNothing, Orphaned;
    if |past| == |trace| {
      assert past == trace;
    } else {
      var n := |trace| - 1;
      var g := End(Start, trace[..n]);
      assert trace[..n][..|past|] == past;
      assert trace[..n][|past|..] + [trace[n]] == trace[|past|..];
      OrphanedKeysStayInProgress(past, trace[..n], k, body, q);
      OrphanedStays(g, trace[n], k, body);
      StepKeepsRequests(g, trace[n]);
      if q < |g.requests| && g.requests[q].key == k && |End(Start, past).requests| <= q {
        OrphanAnswers(g, trace[n], k, body, q, InsertFails(q) in trace[..n][|past|..]);
      }
    }
  }

  // ---- Without ----

  /** A continuation in which no further read-back finds nothing, and two transactions commit under one key. */
  ghost predicate ExecutesTwice(g: Gate, more: seq<Label>)
  {
    Valid(g, more) && ClaimsAtomic(g, more) && !AtMostOnce(End(g, more))
  }

  lemma OneMore(g: Gate, trace: seq<Label>, l: Label)
    requires Valid(g, trace) && Enabled(End(g, trace), l)
    ensures Valid(g, trace + [l]) && End(g, trace + [l]) == Step(End(g, trace), l)
    ensures ClaimsAtomic(g, trace + [l]) <==> ClaimsAtomic(g, trace) && !FindsNothing(End(g, trace), l)
  {
    hide Enabled, Step, FindsNothing;
    assert (trace + [l])[..|trace|] == trace;
  }

  /** After a read-back that finds nothing, a new request with the key executes beside the one that fell through. */
  function SecondExecution(g: Gate, p: nat, t: nat): seq<Label>
    requires p < |g.requests|
  {
    [Arrive(g.requests[p].key, g.requests[p].body)] + [Insert(|g.requests|)]
    + [Execute(p, Commits(t))] + [Execute(|g.requests|, Commits(t + 1))]
  }

  lemma FallThroughExecutesTwice(g: Gate, p: nat, t: nat)
    requires p < |g.requests| && g.requests[p].phase == Running(false) && g.requests[p].key !in g.keys
    requires forall u | u in g.commits :: u < t
    ensures ExecutesTwice(g, SecondExecution(g, p, t))
  {
    hide Valid, ClaimsAtomic, End;
    var Request(k, body, _) := g.requests[p];
    var n := |g.requests|;
    Nothing(g);
    OneMore(g, [], Arrive(k, body));
    assert [] + [Arrive(k, body)] == [Arrive(k, body)];
    OneMore(g, [Arrive(k, body)], Insert(n));
    OneMore(g, [Arrive(k, body)] + [Insert(n)], Execute(p, Commits(t)));
    OneMore(g, [Arrive(k, body)] + [Insert(n)] + [Execute(p, Commits(t))], Execute(n, Commits(t + 1)));
    var commits := End(g, SecondExecution(g, p, t)).commits;
    assert commits[t].key == commits[t + 1].key == k;
  }

  lemma {:induction false} FreshId(ids: set<nat>) returns (t: nat)
    ensures forall u | u in ids :: u < t
    decreases |ids|
  {
    if ids == {} {
      t := 0;
    } else {
      var x :| x in ids;
      var rest := FreshId(ids - {x});
      assert forall u | u in ids :: u == x || u in ids - {x};
      t := if x < rest then rest else x + 1;
    }
  }

  lemma Nothing(g: Gate)
    ensures Valid(g, []) && ClaimsAtomic(g, []) && End(g, []) == g
  {
  }

  /**
   * The condition is exact: after any run with atomic claims, the next step opens the way to two transactions under
   * one key if and only if it is a read-back that finds nothing.
   */
  lemma TwoExecutionsIffReadBackFindsNothing(trace: seq<Label>, l: Label)
    requires Valid(Start, trace) && ClaimsAtomic(Start, trace) && Enabled(End(Start, trace), l)
    ensures FindsNothing(End(Start, trace), l) <==> exists more :: ExecutesTwice(Step(End(Start, trace), l), more)
  {
    hide Valid, End, ClaimsAtomic;
    var g := End(Start, trace);
    RunKeepsInv(Start, trace);
    if FindsNothing(g, l) {
      var t := FreshId(Step(g, l).commits.Keys);
      FallThroughExecutesTwice(Step(g, l), l.p, t);
    } else {
      StepKeepsInv(g, l);
      forall more | Valid(Step(g, l), more) && ClaimsAtomic(Step(g, l), more)
        ensures AtMostOnce(End(Step(g, l), more))
      {
        RunKeepsInv(Step(g, l), more);
      }
    }
  }

  /** And such a read-back happens: the first request fails and releases the key between the second's two statements. */
  lemma ReadBackCanFindNothing(k: Key, body: Body)
    ensures exists trace :: Valid(Start, trace) && ClaimsAtomic(Start, trace)
              && Enabled(End(Start, trace), ReadBack(1)) && FindsNothing(End(Start, trace), ReadBack(1))
  {
    hide Valid, End, ClaimsAtomic;
    var race := [Arrive(k, body), Insert(0), Arrive(k, body), Insert(1), Execute(0, Fails), Persist(0, true)];
    Nothing(Start);
    assert race[..0] == [];
    for i := 0 to |race|
      invariant Valid(Start, race[..i]) && ClaimsAtomic(Start, race[..i])
      invariant End(Start, race[..i]) == RaceState(k, body, i)
    {
      OneMore(Start, race[..i], race[i]);
      assert race[..i] + [race[i]] == race[..i + 1];
    }
    assert race[..6] == race;
  }

  function RaceState(k: Key, body: Body, i: nat): Gate
  {
    var open := map[k := Row(body, None)];
    if i == 0 then Start
    else if i == 1 then Gate(map[], [Request(k, body, Arrived)], map[])
    else if i == 2 then Gate(open, [Request(k, body, Running(true))], map[])
    else if i == 3 then Gate(open, [Request(k, body, Running(true)), Request(k, body, Arrived)], map[])
    else if i == 4 then Gate(open, [Request(k, body, Running(true)), Request(k, body, Clashed)], map[])
    else if i == 5 then Gate(open, [Request(k, body, Responding(ServerError)), Request(k, body, Clashed)], map[])
    else Gate(map[], [Request(k, body, Phase.Persisted(ServerError, true)), Request(k, body, Clashed)], map[])
  }

  // ---- In every run ----

  /** A commit's request was answered with that commit, or died before it could be. */
  predicate CommitOwned(g: Gate, t: nat)
    requires t in g.commits
  {
    g.commits[t].owner < |g.requests| &&
    match g.requests[g.commits[t].owner].phase
    case Responding(r) => r == Created(t)
    case Persisted(r, _) => r == Created(t)
    case Sent(r) => r == Created(t)
    case Crashed => true
    case _ => false
  }

  predicate OwnersOk(g: Gate)
  {
    && (forall t | t in g.commits :: CommitOwned(g, t))
    && (forall t, u | t in g.commits && u in g.commits && t != u :: g.commits[t].owner != g.commits[u].owner)
  }

  lemma StepKeepsCommitOwned(g: Gate, l: Label, t: nat)
    requires OwnersOk(g) && Enabled(g, l) && t in Step(g, l).commits
    ensures CommitOwned(Step(g, l), t)
  {
    hide Saved, Answer;
    assert t in g.commits ==> CommitOwned(g, t);
  }

  lemma StepKeepsOwners(g: Gate, l: Label)
    requires OwnersOk(g) && Enabled(g, l)
    ensures OwnersOk(Step(g, l))
  {
    hide Saved, Answer, CommitOwned;
    var g' := Step(g, l);
    forall t | t in g'.commits
      ensures CommitOwned(g', t)
    {
      StepKeepsCommitOwned(g, l, t);
    }
    forall t, u | t in g'.commits && u in g'.commits && t != u
      ensures g'.commits[t].owner != g'.commits[u].owner
    {
      NotOwnedByRunning(g, l, t);
      NotOwnedByRunning(g, l, u);
    }
  }

  lemma NotOwnedByRunning(g: Gate, l: Label, t: nat)
    requires OwnersOk(g) && Enabled(g, l)
    ensures l.Execute? && t in g.commits ==> g.commits[t].owner != l.p
  {
    assert t in g.commits ==> CommitOwned(g, t);
  }

  lemma {:induction false} RequestsCommitOnce(trace: seq<Label>)
    requires Valid(Start, trace)
    ensures OwnersOk(End(Start, trace))
    decreases |trace|
  {
    hide Enabled, Step;
    if trace != [] {
      RequestsCommitOnce(trace[..|trace| - 1]);
      StepKeepsOwners(End(Start, trace[..|trace| - 1]), trace[|trace| - 1]);
    }
  }
}
