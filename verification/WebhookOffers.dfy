/** Which envelope a subscriber gets: the one the booking reader offered when the effect was first
    prepared, whatever it offers later. */
module WebhookOffers {
  import opened Lib
  import opened WebhookTables
  import opened WebhookWorkers
  import opened WebhookGuarantees

  /** The worker prepared the first effect it holds, and went on to send. */
  predicate Prepared(s: World, l: Label, s': World, e: nat) {
    && l.PrepareWebhook? && Of(s.workers, l.w).held != [] && Of(s.workers, l.w).held[0] == e
    && Of(s'.workers, l.w).phase.Sending?
  }

  /** The envelope offered at the first preparation of `e` that succeeded. */
  function FirstOffer(limit: nat, trace: seq<Label>, e: nat): Option<string> {
    if trace == [] then None
    else if FirstOffer(limit, Init(trace), e).Some? then FirstOffer(limit, Init(trace), e)
    else
      var s, s' := Exec(limit, Init(trace)), Exec(limit, trace);
      if s.Some? && s'.Some? && Prepared(s.value, Last(trace), s'.value, e) then Last(trace).envelope else None
  }

  /** Exactly the effects with a first offer have an envelope, and that offer is what it and every
      attempt carry. */
  ghost predicate Offered(t: Tables, offer: Option<string>, e: nat) {
    && (e in t.deliveries <==> offer.Some?)
    && (e in t.deliveries ==> t.deliveries[e].body == offer.value)
    && forall i :: 0 <= i < |t.attempts| && t.attempts[i].effectId == e ==> offer == Some(t.attempts[i].body)
  }

  lemma OtherStepsOffer(limit: nat, s: World, l: Label, offer: Option<string>, e: nat)
    requires limit > 0 && Inv(limit, s) && Step(limit, s, l).Some? && !l.PrepareWebhook? && Offered(s.tables, offer, e)
    ensures Offered(Step(limit, s, l).value.tables, offer, e)
  {
    StepEvolves(limit, s, l);
    if l.Sent? { SentKeeps(limit, s, l.w, l.attempt, l.accepted); }
  }

  lemma PreparingOffers(limit: nat, s: World, l: Label, offer: Option<string>, e: nat)
    requires limit > 0 && Inv(limit, s) && Step(limit, s, l).Some? && l.PrepareWebhook? && Offered(s.tables, offer, e)
    ensures var s' := Step(limit, s, l).value;
      Offered(s'.tables, if offer.Some? then offer else if Prepared(s, l, s', e) then l.envelope else None, e)
  {
    var id := s.workers[l.w].held[0];
    var trigger := TriggerFor(s.tables.effects[id].plan.name).value;
    var p := Prepare(s.tables, id, trigger, l.envelope, l.secrets);
    if p.Some? {
      PrepareAppends(s.tables, id, trigger, l.envelope, l.secrets);
      PreparedRows(s.tables, id, trigger, l.envelope, l.secrets, e);
      if HasAttempts(s.tables.attempts, id) {
        var i :| 0 <= i < |s.tables.attempts| && s.tables.attempts[i].effectId == id;
        assert AttemptOk(limit, s.tables, s.tables.attempts[i]);
      }
    }
  }

  lemma PreparedRows(t: Tables, id: nat, trigger: Trigger, envelope: Option<string>, secrets: set<string>, e: nat)
    requires Prepare(t, id, trigger, envelope, secrets).Some?
    ensures var t' := Prepare(t, id, trigger, envelope, secrets).value;
      && t'.deliveries.Keys == t.deliveries.Keys + {id}
      && (e in t.deliveries ==> t'.deliveries[e] == t.deliveries[e])
      && (id !in t.deliveries ==> envelope.Some? && t'.deliveries[id].body == envelope.value)
      && forall i :: |t.attempts| <= i < |t'.attempts| ==> t'.attempts[i].effectId == id && t'.attempts[i].body == t'.deliveries[id].body
  {
  }

  lemma {:induction false} OffersHold(limit: nat, trace: seq<Label>, e: nat)
    requires limit > 0 && Exec(limit, trace).Some?
    ensures Offered(Exec(limit, trace).value.tables, FirstOffer(limit, trace, e), e)
  {
    if trace != [] {
      OffersHold(limit, Init(trace), e);
      InvHolds(limit, Init(trace));
      var s := Exec(limit, Init(trace)).value;
      if Last(trace).PrepareWebhook? {
        PreparingOffers(limit, s, Last(trace), FirstOffer(limit, Init(trace), e), e);
      } else {
        OtherStepsOffer(limit, s, Last(trace), FirstOffer(limit, Init(trace), e), e);
      }
    }
  }

  /** In every run: an effect has an envelope exactly when a preparation of it has succeeded; the
      envelope is for the trigger of the effect's name, its body is what the reader offered at the
      first such preparation, and that string is the body of every attempt ever recorded. */
  lemma EnvelopesAreFirstOffers(limit: nat, trace: seq<Label>, e: nat)
    requires limit > 0 && Exec(limit, trace).Some?
    ensures var t := Exec(limit, trace).value.tables;
      && (e in t.deliveries <==> FirstOffer(limit, trace, e).Some?)
      && (e in t.deliveries ==>
            && t.deliveries[e].body == FirstOffer(limit, trace, e).value
            && e < |t.effects| && TriggerFor(t.effects[e].plan.name) == Some(t.deliveries[e].trigger))
      && forall i :: 0 <= i < |t.attempts| && t.attempts[i].effectId == e ==> FirstOffer(limit, trace, e) == Some(t.attempts[i].body)
  {
    OffersHold(limit, trace, e);
    InvHolds(limit, trace);
  }
}
