/**
 * The idempotency middleware around the transfer call itself: requests in front, database sessions behind. A request's
 * handler is one call of the transfer service, and its answer is what that call came to. Everything else goes on as it
 * likes: other requests, other transfers, crashes of requests whose call goes on, lost connections, failed saves.
 */
module IdempotentTransfers {
  import opened Options
  import opened Ledger
  import opened Invariants
  import opened Outbox
  import opened Sessions
  import opened Refinement
  import opened Calls
  import I = Idempotency

  /** `calls` says which call of the transfer service a request's handler made. */
  datatype Api = Api(gate: I.Gate, sys: Sys, calls: map<nat, nat>)

  const NewApi := Api(I.Start, Start, map[])

  datatype Move =
    | Front(l: I.Label)       // a step of the middleware
    | Back(s: Label)          // a step of some session
    | Call(p: nat)            // the handler calls the transfer service
    | Answer(p: nat)          // the call has returned or thrown, and so has the handler

  function JobOf(q: I.Request): Job
  {
    TransferJob(q.key.merchant, q.body.from, q.body.to, q.body.amount, q.body.printed)
  }

  /** The statuses of a transfer's domain errors; any other error is an internal one. */
  function StatusOf(e: Error): Option<nat>
  {
    match e
    case SourceNotFound => Some(404)
    case DestinationNotFound => Some(404)
    case Forbidden => Some(403)
    case CurrencyMismatch => Some(400)
    case InsufficientFunds => Some(422)
    case ConcurrencyConflict => Some(409)
    case _ => None
  }

  /** The id of the transaction the call created: the reply to its third statement. */
  function TxnOfCall(p: Proc): Id
  {
    if 2 < |p.rs| then IdIn(p.rs[2]) else 0
  }

  /** What the handler does when the call has come to `p`. */
  function EffectOf(p: Proc): I.Effect
  {
    match p.phase
    case Done(_) => I.Commits(TxnOfCall(p))
    case Thrown(e) => if StatusOf(e).Some? then I.Rejects(StatusOf(e).value) else I.Fails
    case Running => I.Fails
  }

  function ResponseTo(e: I.Effect): I.Response
  {
    match e
    case Commits(t) => I.Created(t)
    case Rejects(status) => I.Refused(status)
    case Fails => I.ServerError
  }

  function ResponseOf(p: Proc): I.Response
  {
    ResponseTo(EffectOf(p))
  }

  predicate Enabled(a: Api, m: Move)
  {
    match m
    case Front(l) => !l.Execute? && I.Enabled(a.gate, l)
    case Back(l) => Sessions.Enabled(a.sys, l)
    case Call(p) =>
      && p < |a.gate.requests| && a.gate.requests[p].phase.Running? && p !in a.calls
      && Sessions.Enabled(a.sys, Spawn(JobOf(a.gate.requests[p])))
    case Answer(p) =>
      && p in a.calls && a.calls[p] < |a.sys.procs| && a.sys.procs[a.calls[p]].phase != Running
      && I.Enabled(a.gate, I.Execute(p, EffectOf(a.sys.procs[a.calls[p]])))
  }

  function Step(a: Api, m: Move): Api
    requires Enabled(a, m)
  {
    match m
    case Front(l) => a.(gate := I.Step(a.gate, l))
    case Back(l) => a.(sys := Sessions.Step(a.sys, l))
    case Call(p) =>
      a.(sys := Sessions.Step(a.sys, Spawn(JobOf(a.gate.requests[p]))), calls := a.calls[p := |a.sys.procs|])
    case Answer(p) => a.(gate := I.Step(a.gate, I.Execute(p, EffectOf(a.sys.procs[a.calls[p]]))))
  }

  predicate FindsNothing(a: Api, m: Move)
    requires Enabled(a, m)
  {
    m.Front? && I.FindsNothing(a.gate, m.l)
  }

  ghost predicate Valid(moves: seq<Move>)
    decreases |moves|, 0
  {
    moves == [] || (Valid(moves[..|moves| - 1]) && Enabled(Reached(moves[..|moves| - 1]), moves[|moves| - 1]))
  }

  ghost function Reached(moves: seq<Move>): Api
    requires Valid(moves)
    decreases |moves|, 1
  {
    if moves == [] then NewApi else Step(Reached(moves[..|moves| - 1]), moves[|moves| - 1])
  }

  /** No read-back of the run found nothing. */
  ghost predicate ClaimsAtomic(moves: seq<Move>)
    requires Valid(moves)
    decreases |moves|
  {
    moves == [] ||
    (ClaimsAtomic(moves[..|moves| - 1]) && !FindsNothing(Reached(moves[..|moves| - 1]), moves[|moves| - 1]))
  }

  // ---- In every run: a request's answer is what its call came to ----

  predicate Threw(a: Api, p: nat)
    requires p in a.calls
  {
    a.calls[p] < |a.sys.procs| && a.sys.procs[a.calls[p]].phase.Thrown?
  }

  /** The request waits for its call, or has the call's outcome for its answer, or is gone. */
  predicate CallOf(a: Api, p: nat)
    requires p in a.calls
  {
    && p < |a.gate.requests| && a.calls[p] < |a.sys.procs|
    && var q, proc := a.gate.requests[p], a.sys.procs[a.calls[p]];
       && proc.job == JobOf(q)
       && match q.phase
          case Running(_) => true
          case Responding(r) => proc.phase != Running && r == ResponseOf(proc)
          case Persisted(r, _) => proc.phase != Running && r == ResponseOf(proc)
          case Sent(r) => proc.phase != Running && r == ResponseOf(proc)
          case Crashed => true
          case _ => false
  }

  ghost predicate Linked(a: Api)
  {
    && (forall p | p in a.calls :: CallOf(a, p))
    && (forall p, q | p in a.calls && q in a.calls && p != q :: a.calls[p] != a.calls[q])
    && (forall p | 0 <= p < |a.gate.requests| && (a.gate.requests[p].phase.Responding? || a.gate.requests[p].phase.Persisted?) ::
          p in a.calls)
    && (forall t | t in a.gate.commits :: CommitIsCall(a, t))
  }

  /** The gate's commit is one a call made. */
  predicate CommitIsCall(a: Api, t: nat)
    requires t in a.gate.commits
  {
    var p := a.gate.commits[t].owner;
    && p in a.calls && p < |a.gate.requests| && a.calls[p] < |a.sys.procs|
    && a.gate.requests[p].key == a.gate.commits[t].key && !a.gate.requests[p].phase.Running?
    && a.sys.procs[a.calls[p]].phase.Done? && TxnOfCall(a.sys.procs[a.calls[p]]) == t
  }

  /** A call that is over stays as it is. */
  lemma EndedCallsStay(sys: Sys, l: Label, pid: nat)
    requires Sessions.Enabled(sys, l) && pid < |sys.procs|
    ensures |sys.procs| <= |Sessions.Step(sys, l).procs|
    ensures Sessions.Step(sys, l).procs[pid].job == sys.procs[pid].job
    ensures sys.procs[pid].phase != Running ==> Sessions.Step(sys, l).procs[pid] == sys.procs[pid]
  {
    hide Next, Guard, Apply, OpOf, ReplyTo, StageAfter, Violates, Locks, JobOk;
  }

  lemma BackKeepsLinks(a: Api, l: Label)
    requires Linked(a) && Sessions.Enabled(a.sys, l)
    ensures Linked(a.(sys := Sessions.Step(a.sys, l)))
  {
    hide Sessions.Step, Sessions.Enabled, JobOf, ResponseOf, TxnOfCall;
    var a' := a.(sys := Sessions.Step(a.sys, l));
    forall p | p in a.calls
      ensures CallOf(a', p)
    {
      assert CallOf(a, p);
      EndedCallsStay(a.sys, l, a.calls[p]);
    }
    forall t | t in a.gate.commits
      ensures CommitIsCall(a', t)
    {
      assert CommitIsCall(a, t);
      EndedCallsStay(a.sys, l, a.calls[a.gate.commits[t].owner]);
    }
  }

  /** What a step of the middleware does to one request. */
  lemma FrontMoves(g: I.Gate, l: I.Label, p: nat)
    requires I.Enabled(g, l) && !l.Execute? && p < |g.requests|
    ensures var q, q' := g.requests[p], I.Step(g, l).requests[p];
            && q'.key == q.key && q'.body == q.body
            && (q.phase.Running? ==> q' == q || q'.phase.Crashed?)
            && (q.phase.Responding? ==> q' == q || q'.phase.Crashed? || (q'.phase.Persisted? && q'.phase.answer == q.phase.answer))
            && (q.phase.Persisted? ==> q' == q || q'.phase.Crashed? || q'.phase == I.Sent(q.phase.answer))
            && (q.phase.Sent? || q.phase.Crashed? ==> q' == q)
            && (q'.phase.Responding? ==> q' == q)
            && (q'.phase.Running? ==> q' == q || q.phase.Arrived? || q.phase.Clashed?)
            && (q'.phase.Persisted? ==> q' == q || q.phase.Responding?)
    ensures I.Step(g, l).commits == g.commits && |g.requests| <= |I.Step(g, l).requests|
    ensures forall n | |g.requests| <= n < |I.Step(g, l).requests| :: I.Step(g, l).requests[n].phase == I.Arrived
  {
    hide I.Saved, I.Answer;
  }

  lemma FrontKeepsLinks(a: Api, l: I.Label)
    requires Linked(a) && I.Enabled(a.gate, l) && !l.Execute?
    ensures Linked(a.(gate := I.Step(a.gate, l)))
  {
    hide I.Step, I.Enabled, JobOf, ResponseOf, TxnOfCall;
    var a' := a.(gate := I.Step(a.gate, l));
    forall p | p in a.calls
      ensures CallOf(a', p)
    {
      assert CallOf(a, p);
      FrontMoves(a.gate, l, p);
      JobStays(a.gate.requests[p], a'.gate.requests[p]);
    }
    forall p | 0 <= p < |a'.gate.requests| && (a'.gate.requests[p].phase.Responding? || a'.gate.requests[p].phase.Persisted?)
      ensures p in a.calls
    {
      if p < |a.gate.requests| {
        FrontMoves(a.gate, l, p);
      } else {
        SomeRequestMoves(a.gate, l);
      }
    }
    forall t | t in a'.gate.commits
      ensures CommitIsCall(a', t)
    {
      SomeRequestMoves(a.gate, l);
      assert CommitIsCall(a, t);
      FrontMoves(a.gate, l, a.gate.commits[t].owner);
    }
  }

  lemma JobStays(q: I.Request, q': I.Request)
    requires q'.key == q.key && q'.body == q.body
    ensures JobOf(q') == JobOf(q)
  {
  }

  lemma SomeRequestMoves(g: I.Gate, l: I.Label)
    requires I.Enabled(g, l) && !l.Execute?
    ensures I.Step(g, l).commits == g.commits && |g.requests| <= |I.Step(g, l).requests|
    ensures forall n | |g.requests| <= n < |I.Step(g, l).requests| :: I.Step(g, l).requests[n].phase == I.Arrived
  {
    hide I.Saved, I.Answer;
  }

  lemma CallKeepsLinks(a: Api, p: nat)
    requires Linked(a) && Enabled(a, Call(p))
    ensures Linked(Step(a, Call(p)))
  {
    hide JobOf, ResponseOf, TxnOfCall, JobOk;
    var a' := Step(a, Call(p));
    forall q | q in a'.calls
      ensures CallOf(a', q)
    {
      assert q in a.calls ==> CallOf(a, q);
    }
    forall q, r | q in a'.calls && r in a'.calls && q != r
      ensures a'.calls[q] != a'.calls[r]
    {
      assert q in a.calls ==> CallOf(a, q);
      assert r in a.calls ==> CallOf(a, r);
    }
    forall t | t in a.gate.commits
      ensures CommitIsCall(a', t)
    {
      assert CommitIsCall(a, t);
    }
  }

  lemma AnswerDoes(g: I.Gate, p: nat, e: I.Effect)
    requires I.Enabled(g, I.Execute(p, e))
    ensures p < |g.requests| && g.requests[p].phase.Running?
    ensures var g' := I.Step(g, I.Execute(p, e));
            && g'.requests == g.requests[p := g.requests[p].(phase := I.Responding(ResponseTo(e)))]
            && g'.keys == g.keys
            && g'.commits == if e.Commits? then g.commits[e.txn := I.Commit(g.requests[p].key, p)] else g.commits
  {
  }

  lemma AnswerKeepsLinks(a: Api, p: nat)
    requires Linked(a) && Enabled(a, Answer(p))
    ensures Linked(Step(a, Answer(p)))
  {
    hide JobOf, TxnOfCall, StatusOf, I.Step, I.Enabled;
    var a' := Step(a, Answer(p));
    assert CallOf(a, p);
    AnswerDoes(a.gate, p, EffectOf(a.sys.procs[a.calls[p]]));
    forall q | q in a'.calls
      ensures CallOf(a', q)
    {
      assert CallOf(a, q);
      JobStays(a.gate.requests[q], a'.gate.requests[q]);
    }
    forall t | t in a'.gate.commits
      ensures CommitIsCall(a', t)
    {
      assert t in a.gate.commits ==> CommitIsCall(a, t);
    }
  }

  ghost predicate Sound(a: Api)
  {
    SysInv(a.sys) && CallsInv(a.sys) && Linked(a)
  }

  lemma StepKeepsSound(a: Api, m: Move)
    requires Sound(a) && Enabled(a, m)
    ensures Sound(Step(a, m))
  {
    hide SysInv, CallsInv, Linked, Sessions.Enabled, Sessions.Step, I.Enabled, I.Step;
    match m
    case Front(l) => FrontKeepsLinks(a, l);
    case Back(l) =>
      BackKeepsLinks(a, l);
      StepKeepsSysInv(a.sys, l);
      StepKeepsCalls(a.sys, l);
    case Call(p) =>
      CallKeepsLinks(a, p);
      StepKeepsSysInv(a.sys, Spawn(JobOf(a.gate.requests[p])));
      StepKeepsCalls(a.sys, Spawn(JobOf(a.gate.requests[p])));
    case Answer(p) => AnswerKeepsLinks(a, p);
  }

  lemma {:induction false} RunIsSound(moves: seq<Move>)
    requires Valid(moves)
    ensures Sound(Reached(moves))
    decreases |moves|
  {
    hide Enabled, Step, Sound;
    if moves == [] {
      NewApiIsSound();
    } else {
      RunIsSound(moves[..|moves| - 1]);
      StepKeepsSound(Reached(moves[..|moves| - 1]), moves[|moves| - 1]);
    }
  }

  lemma NewApiIsSound()
    ensures Sound(NewApi)
  {
    hide SysInv, CallsInv;
    StartIsOk();
    StartCallsOk();
  }

  /** The call is the transfer of its request, and only it is logged under it: when it is done, and with its id. */
  lemma CallIsLogged(a: Api, p: nat)
    requires Sound(a) && p in a.calls
    ensures p < |a.gate.requests| && a.calls[p] < |a.sys.procs|
    ensures var q, proc := a.gate.requests[p], a.sys.procs[a.calls[p]];
            match proc.phase
            case Done(k) =>
              && k < |a.sys.log| && a.sys.log[k].pid == Some(a.calls[p])
              && a.sys.log[k].op == Transfer(q.key.merchant, q.body.from, q.body.to, q.body.amount, q.body.printed, TxnOfCall(proc))
              && forall i | 0 <= i < |a.sys.log| && a.sys.log[i].pid == Some(a.calls[p]) :: i == k
            case _ => forall i | 0 <= i < |a.sys.log| :: a.sys.log[i].pid != Some(a.calls[p])
  {
    hide SysInv, VersionsLogged, RetriesOk, ReadsOk;
    assert CallOf(a, p);
    assert CallOk(a.sys.procs[a.calls[p]], a.calls[p], a.sys.log, a.sys.st.db);
  }

  /** In every run a request that is, or was, to be answered with a server error has a call that committed nothing. */
  lemma ServerErrorsCommittedNothing(moves: seq<Move>, p: nat)
    requires Valid(moves) && p in Reached(moves).calls && p < |Reached(moves).gate.requests|
    requires var phase := Reached(moves).gate.requests[p].phase;
             || phase == I.Responding(I.ServerError) || phase == I.Sent(I.ServerError)
             || (phase.Persisted? && phase.answer == I.ServerError)
    ensures var a := Reached(moves);
            forall i | 0 <= i < |a.sys.log| :: a.sys.log[i].pid != Some(a.calls[p])
  {
    hide Valid, Reached, SysInv, CallsInv;
    RunIsSound(moves);
    assert CallOf(Reached(moves), p);
    CallIsLogged(Reached(moves), p);
  }

  /**
   * In every run the answer tells what became of the call: a 201 carries the id of the transfer it logged, which is the
   * one the request asks for; each refusal of the service has its status; anything else thrown is a server error.
   */
  lemma AnswersTellWhatHappened(moves: seq<Move>, p: nat, r: I.Response)
    requires Valid(moves) && p in Reached(moves).calls && p < |Reached(moves).gate.requests|
    requires var phase := Reached(moves).gate.requests[p].phase;
             phase == I.Responding(r) || phase == I.Sent(r) || (phase.Persisted? && phase.answer == r)
    ensures var a := Reached(moves);
            var q, c, log := a.gate.requests[p], a.calls[p], a.sys.log;
            && c < |a.sys.procs|
            && match a.sys.procs[c].phase
               case Running => false
               case Done(k) =>
                 && r.Created? && k < |log| && log[k].pid == Some(c)
                 && log[k].op == Transfer(q.key.merchant, q.body.from, q.body.to, q.body.amount, q.body.printed, r.txn)
               case Thrown(e) =>
                 && (forall i | 0 <= i < |log| :: log[i].pid != Some(c))
                 && r == match e
                         case SourceNotFound => I.Refused(404)
                         case DestinationNotFound => I.Refused(404)
                         case Forbidden => I.Refused(403)
                         case CurrencyMismatch => I.Refused(400)
                         case InsufficientFunds => I.Refused(422)
                         case ConcurrencyConflict => I.Refused(409)
                         case _ => I.ServerError
  {
    hide Valid, Reached, SysInv, CallsInv;
    RunIsSound(moves);
    assert CallOf(Reached(moves), p);
    CallIsLogged(Reached(moves), p);
  }

  // ---- With atomic claims ----

  /** A call that may have committed, or may yet, has its key to itself. */
  predicate Alone(a: Api, p: nat)
    requires p in a.calls && p < |a.gate.requests|
  {
    !Threw(a, p) ==>
      && a.gate.requests[p].key in a.gate.keys
      && forall q: nat | q < |a.gate.requests| && q != p && a.gate.requests[q].key == a.gate.requests[p].key ::
           !I.Active(a.gate.requests[q]) && (q in a.calls ==> Threw(a, q))
  }

  ghost predicate Exclusive(a: Api)
  {
    forall p | p in a.calls && p < |a.gate.requests| :: Alone(a, p)
  }

  lemma BackKeepsExclusive(a: Api, l: Label)
    requires Linked(a) && Exclusive(a) && Sessions.Enabled(a.sys, l)
    ensures Exclusive(a.(sys := Sessions.Step(a.sys, l)))
  {
    hide Sessions.Step, Sessions.Enabled;
    var a' := a.(sys := Sessions.Step(a.sys, l));
    forall q | q in a.calls
      ensures Threw(a, q) ==> Threw(a', q)
    {
      assert CallOf(a, q);
      EndedCallsStay(a.sys, l, a.calls[q]);
    }
    forall p | p in a'.calls && p < |a'.gate.requests|
      ensures Alone(a', p)
    {
      assert Alone(a, p);
    }
  }

  /** What a step of the middleware does to the key table and to who is at work. */
  lemma FrontKeysMove(g: I.Gate, l: I.Label, k: I.Key)
    requires I.Inv(g) && I.Enabled(g, l) && !l.Execute? && !I.FindsNothing(g, l) && k in g.keys
    ensures forall q: nat | q < |I.Step(g, l).requests| && I.Active(I.Step(g, l).requests[q]) && I.Step(g, l).requests[q].key == k ::
              q < |g.requests| && I.Active(g.requests[q]) && g.requests[q].key == k
    ensures k !in I.Step(g, l).keys ==>
              l.Persist? && l.p < |g.requests| && g.requests[l.p].key == k && g.requests[l.p].phase == I.Responding(I.ServerError)
  {
    hide I.Answer, I.OwnersDiffer, I.AtMostOnce, I.RowOk, I.Truthful;
  }

  lemma FrontKeepsExclusive(a: Api, l: I.Label)
    requires Linked(a) && Exclusive(a) && I.Inv(a.gate) && I.Enabled(a.gate, l) && !l.Execute? && !I.FindsNothing(a.gate, l)
    ensures Exclusive(a.(gate := I.Step(a.gate, l)))
  {
    hide I.Step, I.Enabled, I.Inv, I.FindsNothing, JobOf, TxnOfCall, I.Active;
    var a' := a.(gate := I.Step(a.gate, l));
    forall p | p in a'.calls && p < |a'.gate.requests|
      ensures Alone(a', p)
    {
      assert CallOf(a, p) && Alone(a, p);
      FrontMoves(a.gate, l, p);
      if !Threw(a, p) {
        var k := a.gate.requests[p].key;
        FrontKeysMove(a.gate, l, k);
        if k !in a'.gate.keys {
          AtWork(a.gate.requests[l.p]);
        }
        forall q: nat | q < |a'.gate.requests| && q != p && a'.gate.requests[q].key == k
          ensures !I.Active(a'.gate.requests[q]) && (q in a.calls ==> Threw(a, q))
        {
          if q in a.calls {
            assert CallOf(a, q);
            FrontMoves(a.gate, l, q);
          }
        }
      }
    }
  }

  lemma AtWork(q: I.Request)
    requires q.phase.Responding? || q.phase.Running?
    ensures I.Active(q)
  {
  }

  lemma CallKeepsExclusive(a: Api, p: nat)
    requires Linked(a) && Exclusive(a) && I.Inv(a.gate) && Enabled(a, Call(p))
    ensures Exclusive(Step(a, Call(p)))
  {
    hide JobOf, TxnOfCall, JobOk, I.Truthful, I.RowOk, I.AtMostOnce;
    var a' := Step(a, Call(p));
    assert I.RequestOk(a.gate, a.gate.requests[p]);
    forall q | q in a.calls
      ensures CallOf(a, q) && Threw(a', q) == Threw(a, q)
    {
    }
    forall q | q in a'.calls && q < |a'.gate.requests|
      ensures Alone(a', q)
    {
      if q != p {
        assert Alone(a, q);
      } else {
        forall r: nat | r < |a.gate.requests| && r != p && a.gate.requests[r].key == a.gate.requests[p].key
          ensures !I.Active(a.gate.requests[r]) && (r in a.calls ==> Threw(a, r))
        {
          assert r in a.calls ==> Alone(a, r);
        }
      }
    }
  }

  lemma AnswerKeepsExclusive(a: Api, p: nat)
    requires Linked(a) && Exclusive(a) && Enabled(a, Answer(p))
    ensures Exclusive(Step(a, Answer(p)))
  {
    hide I.Step, I.Enabled, JobOf, TxnOfCall;
    var a' := Step(a, Answer(p));
    AnswerDoes(a.gate, p, EffectOf(a.sys.procs[a.calls[p]]));
    forall q | q in a'.calls && q < |a'.gate.requests|
      ensures Alone(a', q)
    {
      assert CallOf(a, q) && Alone(a, q);
    }
  }

  ghost predicate Orderly(a: Api)
  {
    Sound(a) && I.Inv(a.gate) && Exclusive(a)
  }

  lemma StepKeepsOrderly(a: Api, m: Move)
    requires Orderly(a) && Enabled(a, m) && !FindsNothing(a, m)
    ensures Orderly(Step(a, m))
  {
    hide SysInv, CallsInv, Linked, Sessions.Enabled, Sessions.Step, I.Enabled, I.Step, I.Inv, Exclusive, I.FindsNothing;
    StepKeepsSound(a, m);
    match m
    case Front(l) =>
      FrontKeepsExclusive(a, l);
      I.StepKeepsInv(a.gate, l);
    case Back(l) => BackKeepsExclusive(a, l);
    case Call(p) => CallKeepsExclusive(a, p);
    case Answer(p) =>
      AnswerKeepsExclusive(a, p);
      var l := I.Execute(p, EffectOf(a.sys.procs[a.calls[p]]));
      NeverReadsBack(a.gate, l);
      I.StepKeepsInv(a.gate, l);
  }

  lemma NeverReadsBack(g: I.Gate, l: I.Label)
    requires I.Enabled(g, l) && l.Execute?
    ensures !I.FindsNothing(g, l)
  {
  }

  lemma {:induction false} RunIsOrderly(moves: seq<Move>)
    requires Valid(moves) && ClaimsAtomic(moves)
    ensures Orderly(Reached(moves))
    decreases |moves|
  {
    hide Enabled, Step, Orderly, FindsNothing;
    if moves == [] {
      NewApiIsOrderly();
    } else {
      RunIsOrderly(moves[..|moves| - 1]);
      StepKeepsOrderly(Reached(moves[..|moves| - 1]), moves[|moves| - 1]);
    }
  }

  lemma NewApiIsOrderly()
    ensures Orderly(NewApi)
  {
    hide Sound;
    NewApiIsSound();
  }

  // ---- Main results ----

  /** The logged operation was committed by the call of a request with this key. */
  predicate Under(a: Api, i: nat, k: I.Key)
  {
    i < |a.sys.log| && a.sys.log[i].pid.Some?
    && exists p | p in a.calls :: p < |a.gate.requests| && a.calls[p] == a.sys.log[i].pid.value && a.gate.requests[p].key == k
  }

  /**
   * With atomic claims, whatever races, crashes and fails: under each key at most one transfer is ever committed to the
   * ledger; and every 201, first or replayed, names that transfer's transaction, which is the one its own request asks for.
   */
  lemma OneTransferPerKey(moves: seq<Move>, k: I.Key)
    requires Valid(moves) && ClaimsAtomic(moves)
    ensures var a := Reached(moves);
            && (forall i: nat, j: nat | Under(a, i, k) && Under(a, j, k) :: i == j)
            && forall p: nat, t: nat | I.Got201(a.gate, p, t) && a.gate.requests[p].key == k ::
                 exists i: nat | Under(a, i, k) :: IsTransferOf(a, i, a.gate.requests[p], t)
  {
    hide Valid, Reached, ClaimsAtomic, Sound, I.Inv, Under;
    RunIsOrderly(moves);
    var a := Reached(moves);
    forall i: nat, j: nat | Under(a, i, k) && Under(a, j, k)
      ensures i == j
    {
      OnlyOneUnderKey(a, k, i, j);
    }
    forall p: nat, t: nat | I.Got201(a.gate, p, t) && a.gate.requests[p].key == k
      ensures exists i: nat | Under(a, i, k) :: IsTransferOf(a, i, a.gate.requests[p], t)
    {
      The201IsLogged(a, p, t);
    }
  }

  predicate IsTransferOf(a: Api, i: nat, q: I.Request, t: nat)
  {
    i < |a.sys.log|
    && a.sys.log[i].op == Transfer(q.key.merchant, q.body.from, q.body.to, q.body.amount, q.body.printed, t)
  }

  lemma OnlyOneUnderKey(a: Api, k: I.Key, i: nat, j: nat)
    requires Orderly(a) && Under(a, i, k) && Under(a, j, k)
    ensures i == j
  {
    hide Sound, I.Inv;
    var p :| p in a.calls && p < |a.gate.requests| && a.calls[p] == a.sys.log[i].pid.value && a.gate.requests[p].key == k;
    var q :| q in a.calls && q < |a.gate.requests| && a.calls[q] == a.sys.log[j].pid.value && a.gate.requests[q].key == k;
    CallIsLogged(a, p);
    CallIsLogged(a, q);
    assert Alone(a, p);
  }

  lemma The201IsLogged(a: Api, p: nat, t: nat)
    requires Orderly(a) && I.Got201(a.gate, p, t)
    ensures exists i: nat | Under(a, i, a.gate.requests[p].key) :: IsTransferOf(a, i, a.gate.requests[p], t)
  {
    hide SysInv, CallsInv;
    assert I.RequestOk(a.gate, a.gate.requests[p]) && I.OnlyCommit(a.gate, a.gate.requests[p].key, t);
    assert CommitIsCall(a, t);
    var owner := a.gate.commits[t].owner;
    CallIsLogged(a, owner);
    var i := a.sys.procs[a.calls[owner]].phase.at;
    assert Under(a, i, a.gate.requests[p].key) && IsTransferOf(a, i, a.gate.requests[p], t);
  }

  lemma NothingUnder(a: Api, i: nat, k: I.Key)
    requires forall p | p in a.calls && p < |a.gate.requests| && a.gate.requests[p].key == k ::
               forall n | 0 <= n < |a.sys.log| :: a.sys.log[n].pid != Some(a.calls[p])
    ensures !Under(a, i, k)
  {
  }

  /** When a key is released, no transfer was ever committed under it: not by the released attempt, nor by any other. */
  lemma ReleasedKeyHasNoTransfer(moves: seq<Move>, m: Move, k: I.Key, i: nat)
    requires Valid(moves) && ClaimsAtomic(moves) && Enabled(Reached(moves), m) && !FindsNothing(Reached(moves), m)
    requires k in Reached(moves).gate.keys && k !in Step(Reached(moves), m).gate.keys
    ensures !Under(Step(Reached(moves), m), i, k)
  {
    hide Valid, Reached, ClaimsAtomic, Sound, I.Inv, I.Step, I.Enabled, Sessions.Enabled, Sessions.Step;
    RunIsOrderly(moves);
    var a := Reached(moves);
    StepKeepsOrderly(a, m);
    var a' := Step(a, m);
    forall p | p in a'.calls && p < |a'.gate.requests| && a'.gate.requests[p].key == k
      ensures forall n | 0 <= n < |a'.sys.log| :: a'.sys.log[n].pid != Some(a'.calls[p])
    {
      assert Alone(a', p);
      CallIsLogged(a', p);
    }
    NothingUnder(a', i, k);
  }

  /** Two transfers of a run have different ids. */
  lemma TransferIdsDiffer(ops: seq<Op>, j: nat, k: nat)
    requires ValidRun(Initial, ops) && j < k < |ops| && ops[j].Transfer? && ops[k].Transfer?
    ensures ops[j].txn != ops[k].txn
  {
    hide ValidRun, After, KeepsReports, KeepsWallets;
    ValidAt(ops, j);
    ValidAt(ops, k);
    assert ops[..k][..j + 1] == ops[..j + 1];
    LaterRemembers(ops[..k], j + 1);
    TransferIsPosted(ops[j], After(Initial, ops[..j]));
    TransferIdIsFresh(ops[k], After(Initial, ops[..k]));
  }

  lemma TransferIsPosted(op: Op, st: State)
    requires Guard(op, st) && op.Transfer?
    ensures op.txn in Apply(op, st).db.txns
  {
  }

  lemma TransferIdIsFresh(op: Op, st: State)
    requires Guard(op, st) && op.Transfer?
    ensures op.txn !in st.db.txns
  {
  }

  /** The answer is never held back: a call that is over has an id that no other call has used. */
  lemma AnswersAreNeverBlocked(moves: seq<Move>, p: nat)
    requires Valid(moves) && p in Reached(moves).calls
    requires p < |Reached(moves).gate.requests| && Reached(moves).gate.requests[p].phase.Running?
    requires Reached(moves).calls[p] < |Reached(moves).sys.procs|
    requires Reached(moves).sys.procs[Reached(moves).calls[p]].phase != Running
    ensures Enabled(Reached(moves), Answer(p))
  {
    hide Valid, Reached, CallsInv, TxnOfCall, SysInv;
    RunIsSound(moves);
    var a := Reached(moves);
    assert CallOf(a, p);
    var t := TxnOfCall(a.sys.procs[a.calls[p]]);
    if t in a.gate.commits && a.sys.procs[a.calls[p]].phase.Done? {
      SameIdSameCall(a, p, t);
    }
  }

  lemma SameIdSameCall(a: Api, p: nat, t: nat)
    requires Sound(a) && p in a.calls && p < |a.gate.requests| && a.calls[p] < |a.sys.procs|
    requires a.sys.procs[a.calls[p]].phase.Done? && TxnOfCall(a.sys.procs[a.calls[p]]) == t && t in a.gate.commits
    ensures a.gate.commits[t].owner == p && !a.gate.requests[p].phase.Running?
  {
    hide CallsInv, TxnOfCall, Consistent, ProcsOk, ValidRun, After;
    assert CommitIsCall(a, t);
    var q := a.gate.commits[t].owner;
    CallIsLogged(a, p);
    CallIsLogged(a, q);
    var i, j := a.sys.procs[a.calls[p]].phase.at, a.sys.procs[a.calls[q]].phase.at;
    if i < j {
      TransferIdsDiffer(Ops(a.sys.log), i, j);
    } else if j < i {
      TransferIdsDiffer(Ops(a.sys.log), j, i);
    }
  }

  // ---- The key table's part of a run ----

  /** The step of the key table that the move makes, if any. */
  function GateStep(a: Api, m: Move): seq<I.Label>
    requires Enabled(a, m)
  {
    match m
    case Front(l) => [l]
    case Answer(p) => [I.Execute(p, EffectOf(a.sys.procs[a.calls[p]]))]
    case _ => []
  }

  ghost function GateTrace(moves: seq<Move>): seq<I.Label>
    requires Valid(moves)
    decreases |moves|
  {
    if moves == [] then []
    else GateTrace(moves[..|moves| - 1]) + GateStep(Reached(moves[..|moves| - 1]), moves[|moves| - 1])
  }

  lemma GateFollows(a: Api, m: Move, trace: seq<I.Label>)
    requires Enabled(a, m) && I.Valid(I.Start, trace) && I.End(I.Start, trace) == a.gate && I.ClaimsAtomic(I.Start, trace)
    requires !FindsNothing(a, m)
    ensures var trace' := trace + GateStep(a, m);
            I.Valid(I.Start, trace') && I.End(I.Start, trace') == Step(a, m).gate && I.ClaimsAtomic(I.Start, trace')
  {
    hide I.Valid, I.End, I.ClaimsAtomic, I.Enabled, I.Step, I.FindsNothing, Sessions.Enabled, Sessions.Step, EffectOf;
    match m
    case Front(l) => I.OneMore(I.Start, trace, l);
    case Answer(p) =>
      var l := I.Execute(p, EffectOf(a.sys.procs[a.calls[p]]));
      NeverReadsBack(a.gate, l);
      I.OneMore(I.Start, trace, l);
    case _ => assert trace + [] == trace;
  }

  lemma {:induction false} GateRuns(moves: seq<Move>)
    requires Valid(moves) && ClaimsAtomic(moves)
    ensures var trace := GateTrace(moves);
            && I.Valid(I.Start, trace) && I.End(I.Start, trace) == Reached(moves).gate && I.ClaimsAtomic(I.Start, trace)
    decreases |moves|
  {
    hide Enabled, Step, FindsNothing, GateStep, I.Enabled, I.Step, I.FindsNothing;
    if moves != [] {
      var n := |moves| - 1;
      GateRuns(moves[..n]);
      GateFollows(Reached(moves[..n]), moves[n], GateTrace(moves[..n]));
    }
  }

  lemma {:induction false} GateTraceGrows(past: seq<Move>, moves: seq<Move>)
    requires Valid(moves) && past <= moves && Valid(past)
    ensures GateTrace(past) <= GateTrace(moves)
    decreases |moves|
  {
    hide Enabled, Step, GateStep;
    if |past| == |moves| {
      assert past == moves;
    } else {
      GateTraceGrows(past, moves[..|moves| - 1]);
    }
  }

  lemma {:induction false} GateTraceIsFromMoves(moves: seq<Move>, q: nat)
    requires Valid(moves) && I.InsertFails(q) in GateTrace(moves)
    ensures Front(I.InsertFails(q)) in moves
    decreases |moves|
  {
    hide Enabled, Step;
    if moves != [] {
      var n := |moves| - 1;
      if moves[n] != Front(I.InsertFails(q)) {
        GateTraceIsFromMoves(moves[..n], q);
      }
    }
  }

  /** A request that arrives once an answer below 500 is stored for its key: it is not running, and what it may be told. */
  lemma LateRequestReplays(past: seq<Move>, moves: seq<Move>, p: nat, q: nat, r: I.Response)
    requires Valid(moves) && ClaimsAtomic(moves) && past <= moves && Valid(past) && ClaimsAtomic(past)
    requires p < |Reached(past).gate.requests| && r != I.ServerError
    requires Reached(past).gate.requests[p].phase == I.Phase.Persisted(r, true)
    requires |Reached(past).gate.requests| <= q < |Reached(moves).gate.requests|
    requires Reached(moves).gate.requests[q].key == Reached(past).gate.requests[p].key
    ensures !Reached(moves).gate.requests[q].phase.Running?
    ensures var x, body := Reached(moves).gate.requests[q], Reached(past).gate.requests[p].body;
            x.phase.Sent? ==>
              || x.phase.response == (if x.body == body then r else I.KeyReuse)
              || (x.phase.response == I.ServerError && Front(I.InsertFails(q)) in moves)
  {
    hide Valid, Reached, ClaimsAtomic, I.Valid, I.End, I.ClaimsAtomic, GateTrace;
    GateRuns(past);
    GateRuns(moves);
    GateTraceGrows(past, moves);
    I.ReplayIsVerbatim(GateTrace(past), GateTrace(moves), p, q, r);
    if I.InsertFails(q) in GateTrace(moves) {
      GateTraceIsFromMoves(moves, q);
    }
  }

  lemma OnlyRunningRequestsCall(a: Api, m: Move, q: nat)
    requires Enabled(a, m) && q !in a.calls && q in Step(a, m).calls
    ensures q < |a.gate.requests| && a.gate.requests[q].phase.Running?
  {
  }

  lemma RequestsKeepKeys(a: Api, m: Move)
    requires Enabled(a, m)
    ensures |a.gate.requests| <= |Step(a, m).gate.requests|
    ensures forall q | 0 <= q < |a.gate.requests| :: Step(a, m).gate.requests[q].key == a.gate.requests[q].key
  {
    hide I.Step, I.Enabled, Sessions.Enabled, Sessions.Step, EffectOf;
    match m
    case Front(l) => I.StepKeepsRequests(a.gate, l);
    case Answer(p) => I.StepKeepsRequests(a.gate, I.Execute(p, EffectOf(a.sys.procs[a.calls[p]])));
    case _ =>
  }

  /**
   * With atomic claims a repeated transfer is told exactly what the first one was told: once a request's answer below
   * 500 is stored, a request with its key that arrives later never calls the transfer service; if it asks for the same,
   * it is sent that answer, and otherwise that its key is reused, unless its insert failed.
   */
  lemma {:induction false} RepeatsGetTheFirstAnswer(past: seq<Move>, moves: seq<Move>, p: nat, q: nat, r: I.Response)
    requires Valid(moves) && ClaimsAtomic(moves) && past <= moves && Valid(past) && ClaimsAtomic(past)
    requires p < |Reached(past).gate.requests| && r != I.ServerError
    requires Reached(past).gate.requests[p].phase == I.Phase.Persisted(r, true)
    requires |Reached(past).gate.requests| <= q < |Reached(moves).gate.requests|
    requires Reached(moves).gate.requests[q].key == Reached(past).gate.requests[p].key
    ensures q !in Reached(moves).calls
    ensures var x, body := Reached(moves).gate.requests[q], Reached(past).gate.requests[p].body;
            x.phase.Sent? ==>
              || x.phase.response == (if x.body == body then r else I.KeyReuse)
              || (x.phase.response == I.ServerError && Front(I.InsertFails(q)) in moves)
    decreases |moves|
  {
    hide Enabled, Step, FindsNothing, Linked, SysInv, CallsInv;
    LateRequestReplays(past, moves, p, q, r);
    if |past| == |moves| {
      assert past == moves;
    } else {
      var n := |moves| - 1;
      var a := Reached(moves[..n]);
      RequestsKeepKeys(a, moves[n]);
      if q in Reached(moves).calls {
        if q in a.calls {
          RunIsSound(moves[..n]);
          CallsAreOfRequests(a, q);
          RepeatsGetTheFirstAnswer(past, moves[..n], p, q, r);
        } else {
          OnlyRunningRequestsCall(a, moves[n], q);
          LateRequestReplays(past, moves[..n], p, q, r);
        }
      }
    }
  }

  lemma CallsAreOfRequests(a: Api, q: nat)
    requires Linked(a) && q in a.calls
    ensures q < |a.gate.requests|
  {
    assert CallOf(a, q);
  }
}
