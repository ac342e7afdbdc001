/**
 * The transactional outbox: every event was written with the change it reports, and each change reports itself to
 * each of its endpoints once.
 */
module Outbox {
  import opened Ledger
  import opened PayoutQueue

  ghost predicate HasChargeNamed(db: Db, intent: Id, charge: Id)
  {
    exists k | 0 <= k < |db.charges| :: db.charges[k].id == charge && db.charges[k].intent == intent
  }

  /** The event reports a committed change, with the amount and owner of the record that changed. */
  ghost predicate EventOk(db: Db, e: Event)
  {
    && e.endpoint < |db.endpoints| && db.endpoints[e.endpoint].merchant == e.merchant
    && match e.source
       case PaymentSucceeded(i, charge) =>
         && i < |db.intents| && db.intents[i] == Intent(e.merchant, e.amount, e.currency, Succeeded)
         && HasChargeNamed(db, i, charge)
       case PayoutPaid(p) => p < |db.payouts| && db.payouts[p].status == Paid && Reports(db.payouts[p], e)
       case PayoutFailed(p) => p < |db.payouts| && db.payouts[p].status == Failed && Reports(db.payouts[p], e)
  }

  predicate Reports(p: Payout, e: Event)
  {
    p.merchant == e.merchant && p.amount == e.amount && p.currency == e.currency
  }

  /** Two events are about the same change of the same record. */
  predicate SameChange(a: Source, b: Source)
  {
    match a
    case PaymentSucceeded(i, _) => b.PaymentSucceeded? && b.intent == i
    case _ => a == b
  }

  ghost predicate EventRowsOk(db: Db)
  {
    forall k | 0 <= k < |db.events| :: EventOk(db, db.events[k])
  }

  ghost predicate EventsDistinct(db: Db)
  {
    forall j, k | 0 <= j < k < |db.events| ::
      SameChange(db.events[j].source, db.events[k].source) ==> db.events[j].endpoint != db.events[k].endpoint
  }

  ghost predicate OutboxOk(db: Db)
  {
    EventRowsOk(db) && EventsDistinct(db)
  }

  /** The record an event reports has reached its final status. */
  ghost predicate Final(db: Db, s: Source)
  {
    match s
    case PaymentSucceeded(i, _) => i < |db.intents| && db.intents[i].status == Succeeded
    case PayoutPaid(p) => p < |db.payouts| && db.payouts[p].status == Paid
    case PayoutFailed(p) => p < |db.payouts| && db.payouts[p].status == Failed
  }

  /** A change that reports itself once, to endpoints of its merchant, while no earlier event reported it. */
  lemma FanoutKeepsOutbox(db: Db, db': Db, s: Source, merchant: Id, endpoints: seq<Id>, amount: int, currency: Id)
    requires EventRowsOk(db) && EventsDistinct(db) && !Final(db, s)
    requires EndpointsOf(db, merchant, endpoints)
    requires db'.events == db.events + Fanout(s, merchant, endpoints, amount, currency)
    requires forall k | 0 <= k < |db.events| :: EventOk(db, db.events[k]) ==> EventOk(db', db.events[k])
    requires forall e | 0 <= e < |db.endpoints| && db.endpoints[e].merchant == merchant ::
               EventOk(db', Event(s, merchant, e, amount, currency))
    ensures OutboxOk(db')
  {
    var n := |db.events|;
    forall k | 0 <= k < |db'.events|
      ensures EventOk(db', db'.events[k])
    {
      if n <= k {
        assert db'.events[k] == Event(s, merchant, endpoints[k - n], amount, currency);
      }
    }
    forall j | 0 <= j < n
      ensures !SameChange(db.events[j].source, s)
    {
      assert EventOk(db, db.events[j]);
    }
    forall j, k | 0 <= j < k < |db'.events| && SameChange(db'.events[j].source, db'.events[k].source)
      ensures db'.events[j].endpoint != db'.events[k].endpoint
    {
      if n <= j {
        assert db'.events[j].endpoint == endpoints[j - n] && db'.events[k].endpoint == endpoints[k - n];
      } else {
        assert k < n;
      }
    }
  }

  /** Final statuses, charges, endpoints and terms stay, so what an event reports stays true. */
  ghost predicate KeepsReports(db: Db, db': Db)
  {
    && |db.intents| <= |db'.intents| && |db.payouts| <= |db'.payouts| && |db.endpoints| <= |db'.endpoints|
    && (forall i | 0 <= i < |db.intents| && db.intents[i].status == Succeeded :: db'.intents[i] == db.intents[i])
    && (forall p | 0 <= p < |db.payouts| && db.payouts[p].status != Pending :: db'.payouts[p] == db.payouts[p])
    && (forall e | 0 <= e < |db.endpoints| :: db'.endpoints[e].merchant == db.endpoints[e].merchant)
    && db.charges <= db'.charges
  }

  lemma EventsStayOk(db: Db, db': Db, e: Event)
    requires KeepsReports(db, db') && EventOk(db, e)
    ensures EventOk(db', e)
  {
    if e.source.PaymentSucceeded? {
      var k :| 0 <= k < |db.charges| && db.charges[k].id == e.source.charge && db.charges[k].intent == e.source.intent;
      assert db'.charges[k].id == e.source.charge;
    }
  }

  lemma StepKeepsReports(op: Op, st: State)
    requires (Writes(op) ==> ClaimsOk(st)) && Guard(op, st)
    ensures KeepsReports(st.db, Apply(op, st).db)
  {
    hide ClaimsOk;
    if op.Pay? || op.Retry? || op.Reverse? {
      LiveClaimIsCurrent(st, op.claim);
    }
  }

  lemma StepKeepsOutbox(op: Op, st: State)
    requires (Writes(op) ==> ClaimsOk(st)) && OutboxOk(st.db) && Guard(op, st)
    ensures OutboxOk(Apply(op, st).db)
  {
    hide ClaimsOk, EventOk, EventsDistinct;
    var db, db' := st.db, Apply(op, st).db;
    StepKeepsReports(op, st);
    forall k | 0 <= k < |db.events|
      ensures EventOk(db', db.events[k])
    {
      EventsStayOk(db, db', db.events[k]);
    }
    match op
    case Confirm(m, i, _, _, charge, eps) =>
      ConfirmReports(op, st);
      FanoutKeepsOutbox(db, db', PaymentSucceeded(i, charge), m, eps, db.intents[i].amount, db.intents[i].currency);
    case Pay(c, eps) =>
      var Claim(p, row) := st.claims[c];
      PayoutReports(op, st);
      FanoutKeepsOutbox(db, db', PayoutPaid(p), row.merchant, eps, row.amount, row.currency);
    case Reverse(c, _, _, eps) =>
      var Claim(p, row) := st.claims[c];
      PayoutReports(op, st);
      FanoutKeepsOutbox(db, db', PayoutFailed(p), row.merchant, eps, row.amount, row.currency);
    case _ =>
      assert db'.events == db.events;
      EventsDistinctSame(db, db');
  }

  lemma EventsDistinctSame(db: Db, db': Db)
    requires EventsDistinct(db) && db'.events == db.events
    ensures EventsDistinct(db')
  {
  }

  lemma ConfirmReports(op: Op, st: State)
    requires Guard(op, st) && op.Confirm?
    ensures var i := st.db.intents[op.intent];
            forall e | 0 <= e < |st.db.endpoints| && st.db.endpoints[e].merchant == op.merchant ::
              EventOk(Apply(op, st).db, Event(PaymentSucceeded(op.intent, op.charge), op.merchant, e, i.amount, i.currency))
  {
    var db' := Apply(op, st).db;
    var n := |st.db.charges|;
    assert db'.charges[n].id == op.charge && db'.charges[n].intent == op.intent;
    assert HasChargeNamed(db', op.intent, op.charge);
  }

  lemma PayoutReports(op: Op, st: State)
    requires ClaimsOk(st) && Guard(op, st) && (op.Pay? || op.Reverse?)
    ensures var Claim(p, row) := st.claims[op.claim];
            var source := if op.Pay? then PayoutPaid(p) else PayoutFailed(p);
            && !Final(st.db, source)
            && forall e | 0 <= e < |st.db.endpoints| && st.db.endpoints[e].merchant == row.merchant ::
                 EventOk(Apply(op, st).db, Event(source, row.merchant, e, row.amount, row.currency))
  {
    hide ClaimsOk;
    LiveClaimIsCurrent(st, op.claim);
  }
}
