/** The outbox queue, the webhook dispatcher and the worker loop as they run against the
    database: one class whose fields are the tables. Every transaction is proved equal to
    its function in `WebhookTables`; Dispatch and RunOnce are proved against what they promise. */
module WebhookDispatcher {
  import opened Lib
  import opened WebhookTables

  /** What happens to one send: the subscriber accepts, refuses, or the outcome of the send
      cannot be recorded because the database fails. */
  datatype SendOutcome = Accepted | Refused | MarkLost

  /** Remaining sends before every attempt of `e` is settled. */
  function Potential(attempts: seq<Attempt>, e: nat, limit: nat): nat {
    if attempts == [] then 0
    else
      var a := attempts[|attempts| - 1];
      Potential(attempts[..|attempts| - 1], e, limit) + (if IsPendingOf(a, e) && a.count < limit then limit - a.count else 0)
  }

  lemma {:induction false} PotentialUpdate(attempts: seq<Attempt>, i: nat, a: Attempt, e: nat, limit: nat)
    requires i < |attempts| && IsPendingOf(attempts[i], e) && attempts[i].count < limit
    requires a.effectId == e && a.count == attempts[i].count + 1 && (a.Pending() ==> a.count < limit)
    ensures Potential(attempts[i := a], e, limit) < Potential(attempts, e, limit)
  {
    var n := |attempts| - 1;
    if i == n {
      assert attempts[i := a][..n] == attempts[..n];
    } else {
      assert attempts[i := a][..n] == attempts[..n][i := a];
      PotentialUpdate(attempts[..n], i, a, e, limit);
    }
  }

  lemma {:induction false} NoPotentialNothingPending(attempts: seq<Attempt>, e: nat, limit: nat)
    requires forall i :: 0 <= i < |attempts| && IsPendingOf(attempts[i], e) ==> attempts[i].count < limit
    ensures Potential(attempts, e, limit) == 0 <==> !HasPending(attempts, e)
  {
    if attempts != [] {
      var n := |attempts| - 1;
      NoPotentialNothingPending(attempts[..n], e, limit);
      if HasPending(attempts[..n], e) {
        var i :| 0 <= i < n && IsPendingOf(attempts[..n][i], e);
        assert IsPendingOf(attempts[i], e);
      }
      if HasPending(attempts, e) && !IsPendingOf(attempts[n], e) {
        var i :| 0 <= i < |attempts| && IsPendingOf(attempts[i], e);
        assert IsPendingOf(attempts[..n][i], e);
      }
    }
  }

  /** An attempt after one send. */
  function Recorded(a: Attempt, outcome: SendOutcome, limit: nat): Attempt {
    match outcome
    case Accepted => a.(count := a.count + 1, delivered := true)
    case Refused => a.(count := a.count + 1, deadLettered := a.count + 1 >= limit)
    case MarkLost => a
  }

  /** The subscription after the send recorded in `a`. */
  function RecordedSub(s: Subscription, a: Attempt): Subscription {
    if a.delivered then s.(failureCount := 0)
    else if a.deadLettered then s.(active := false, failureCount := s.failureCount + 1, disabled := true)
    else s.(failureCount := s.failureCount + 1)
  }

  /** The attempts table after one complete round of sends for effect `e`. */
  function Round(attempts: seq<Attempt>, e: nat, limit: nat, transport: nat -> SendOutcome): (r: seq<Attempt>)
    ensures |r| == |attempts|
    ensures forall i :: 0 <= i < |r| ==>
      r[i] == if IsPendingOf(attempts[i], e) then Recorded(attempts[i], transport(i), limit) else attempts[i]
  {
    seq(|attempts|, i requires 0 <= i < |attempts| =>
      if IsPendingOf(attempts[i], e) then Recorded(attempts[i], transport(i), limit) else attempts[i])
  }

  datatype Sending = Sending(tables: Tables, ok: bool, lost: bool)

  /** Marking one send with its outcome. */
  function MarkSent(t: Tables, a: nat, limit: nat, outcome: SendOutcome): (t': Tables)
    requires CanMark(t, a) && outcome != MarkLost
    ensures t'.effects == t.effects && t'.deliveries == t.deliveries
    ensures t'.attempts == t.attempts[a := Recorded(t.attempts[a], outcome, limit)]
    ensures t'.subs == t.subs[t.attempts[a].subscriberId := RecordedSub(t.subs[t.attempts[a].subscriberId], t'.attempts[a])]
  {
    if outcome == Accepted then MarkDelivered(t, a) else MarkFailed(t, a, limit)
  }

  /** The send loop as a function of the remaining queue and the error so far. */
  function SendAll(t: Tables, queue: seq<nat>, failed: bool, limit: nat, transport: nat -> SendOutcome): Sending
    decreases |queue|
  {
    if queue == [] then Sending(t, !failed, false)
    else if transport(queue[0]) == MarkLost || !CanMark(t, queue[0]) then Sending(t, false, true)
    else
      var t' := MarkSent(t, queue[0], limit, transport(queue[0]));
      SendAll(t', queue[1..], failed || t'.attempts[queue[0]].Pending(), limit, transport)
  }

  ghost predicate Markable(t: Tables, queue: seq<nat>) {
    Increasing(queue) && forall k :: 0 <= k < |queue| ==> CanMark(t, queue[k])
  }

  lemma QueueTail(t: Tables, queue: seq<nat>, t': Tables)
    requires Markable(t, queue) && queue != []
    requires |t'.attempts| == |t.attempts| && |t'.subs| == |t.subs|
    requires forall i :: 0 <= i < |t.attempts| && i != queue[0] ==> t'.attempts[i] == t.attempts[i]
    ensures Markable(t', queue[1..])
    ensures queue[0] !in queue[1..]
    ensures forall i :: i in queue <==> i == queue[0] || i in queue[1..]
  {
    var rest := queue[1..];
    assert forall k :: 0 <= k < |rest| ==> rest[k] == queue[k + 1] && queue[0] < rest[k] && CanMark(t', rest[k]);
  }

  /** What a send loop leaves behind: each attempt of the queue is recorded once or, after a
      lost mark, untouched; nothing else changes. */
  lemma {:induction false} SendAllRecords(t: Tables, queue: seq<nat>, failed: bool, limit: nat, transport: nat -> SendOutcome)
    requires Markable(t, queue)
    ensures var r := SendAll(t, queue, failed, limit, transport);
      && r.tables.effects == t.effects && r.tables.deliveries == t.deliveries
      && |r.tables.attempts| == |t.attempts| && |r.tables.subs| == |t.subs|
      && (forall i :: 0 <= i < |t.attempts| && i !in queue ==> r.tables.attempts[i] == t.attempts[i])
      && (forall i :: 0 <= i < |t.attempts| && i in queue ==>
            || r.tables.attempts[i] == Recorded(t.attempts[i], transport(i), limit)
            || (r.lost && r.tables.attempts[i] == t.attempts[i]))
    decreases |queue|
  {
    if queue != [] && transport(queue[0]) != MarkLost {
      var t' := MarkSent(t, queue[0], limit, transport(queue[0]));
      QueueTail(t, queue, t');
      SendAllRecords(t', queue[1..], failed || t'.attempts[queue[0]].Pending(), limit, transport);
    }
  }

  /** A mark is lost exactly when the database drops one of the queue. Otherwise the loop
      reports success exactly when nothing it sent, and nothing before it, is still pending. */
  lemma {:induction false} SendAllReports(t: Tables, queue: seq<nat>, failed: bool, limit: nat, transport: nat -> SendOutcome)
    requires Markable(t, queue)
    ensures var r := SendAll(t, queue, failed, limit, transport);
      && (r.lost ==> !r.ok)
      && (r.lost <==> exists i: nat :: i in queue && transport(i) == MarkLost)
      && (!r.lost ==> (r.ok <==> !failed && forall i: nat :: i in queue ==> !Recorded(t.attempts[i], transport(i), limit).Pending()))
    decreases |queue|
  {
    if queue != [] && transport(queue[0]) != MarkLost {
      var t' := MarkSent(t, queue[0], limit, transport(queue[0]));
      QueueTail(t, queue, t');
      SendAllReports(t', queue[1..], failed || t'.attempts[queue[0]].Pending(), limit, transport);
    } else if queue != [] {
      assert queue[0] in queue;
    }
  }

  /** Each subscriber of the queue sees exactly its own send, the others see nothing. */
  lemma {:induction false} SendAllSubscribers(t: Tables, queue: seq<nat>, failed: bool, limit: nat, transport: nat -> SendOutcome)
    requires Markable(t, queue)
    requires forall i, j :: 0 <= i < j < |queue| ==> t.attempts[queue[i]].subscriberId != t.attempts[queue[j]].subscriberId
    requires forall i: nat :: i in queue ==> transport(i) != MarkLost
    ensures var subs := SendAll(t, queue, failed, limit, transport).tables.subs;
      && |subs| == |t.subs|
      && (forall k :: 0 <= k < |queue| ==>
            var a := t.attempts[queue[k]];
            subs[a.subscriberId] == RecordedSub(t.subs[a.subscriberId], Recorded(a, transport(queue[k]), limit)))
      && (forall s :: 0 <= s < |subs| && (forall k :: 0 <= k < |queue| ==> t.attempts[queue[k]].subscriberId != s) ==> subs[s] == t.subs[s])
    decreases |queue|
  {
    if queue != [] {
      var rest := queue[1..];
      assert queue[0] in queue;
      var t' := MarkSent(t, queue[0], limit, transport(queue[0]));
      QueueTail(t, queue, t');
      assert forall k :: 0 <= k < |rest| ==> rest[k] == queue[k + 1] && t'.attempts[rest[k]] == t.attempts[queue[k + 1]];
      SendAllSubscribers(t', rest, failed || t'.attempts[queue[0]].Pending(), limit, transport);
      var subs := SendAll(t, queue, failed, limit, transport).tables.subs;
      forall k | 0 <= k < |queue|
        ensures var a := t.attempts[queue[k]];
          subs[a.subscriberId] == RecordedSub(t.subs[a.subscriberId], Recorded(a, transport(queue[k]), limit))
      {
        if k > 0 { assert rest[k - 1] == queue[k]; }
      }
    }
  }

  lemma RoundPending(attempts: seq<Attempt>, e: nat, limit: nat, transport: nat -> SendOutcome)
    ensures HasPending(Round(attempts, e, limit, transport), e) <==>
      exists i: nat :: i in PendingOf(attempts, e) && Recorded(attempts[i], transport(i), limit).Pending()
  {
    var r := Round(attempts, e, limit, transport);
    if HasPending(r, e) {
      var i :| 0 <= i < |r| && IsPendingOf(r[i], e);
      assert i in PendingOf(attempts, e);
    }
    if i: nat :| i in PendingOf(attempts, e) && Recorded(attempts[i], transport(i), limit).Pending() {
      assert IsPendingOf(r[i], e);
    }
  }

  lemma {:induction false} PendingPrefix(attempts: seq<Attempt>, more: seq<Attempt>, e: nat, n: nat)
    requires n <= |attempts|
    ensures PendingUpTo(attempts + more, e, n) == PendingUpTo(attempts, e, n)
  {
    if n > 0 { PendingPrefix(attempts, more, e, n - 1); }
  }

  /** A complete round lowers the potential of its effect by at least one per send. */
  lemma {:induction false} RoundLowersPotential(attempts: seq<Attempt>, e: nat, limit: nat, transport: nat -> SendOutcome)
    requires forall i: nat :: i < |attempts| && IsPendingOf(attempts[i], e) ==> attempts[i].count < limit && transport(i) != MarkLost
    ensures Potential(Round(attempts, e, limit, transport), e, limit) + |PendingOf(attempts, e)| <= Potential(attempts, e, limit)
  {
    if attempts != [] {
      var n := |attempts| - 1;
      RoundLowersPotential(attempts[..n], e, limit, transport);
      assert attempts == attempts[..n] + [attempts[n]];
      PendingPrefix(attempts[..n], [attempts[n]], e, n);
      assert Round(attempts, e, limit, transport)[..n] == Round(attempts[..n], e, limit, transport);
    }
  }

  /** Attempts and subscriptions a Dispatch can rely on. */
  ghost predicate AttemptsOk(t: Tables, limit: nat) {
    forall i :: 0 <= i < |t.attempts| ==>
      && t.attempts[i].subscriberId < |t.subs|
      && (t.attempts[i].Pending() ==> t.attempts[i].count < limit)
  }

  ghost predicate OnlyEffect(t: Tables, t': Tables, e: nat) {
    && t'.effects == t.effects
    && (forall x :: x in t.deliveries ==> x in t'.deliveries && t'.deliveries[x] == t.deliveries[x])
    && |t.attempts| <= |t'.attempts|
    && (forall i :: 0 <= i < |t.attempts| && t.attempts[i].effectId != e ==> t'.attempts[i] == t.attempts[i])
    && (forall i :: 0 <= i < |t.attempts| ==> t'.attempts[i].effectId == t.attempts[i].effectId && t'.attempts[i].body == t.attempts[i].body)
    && (forall i :: |t.attempts| <= i < |t'.attempts| ==> t'.attempts[i].effectId == e)
  }

  /** Dispatch as a function. `transport` decides each send; `otherOk` is the outcome of the
      e-mail or calendar part, which webhook effects do not have. */
  function DispatchOf(t: Tables, e: nat, limit: nat, envelope: Option<string>, secrets: set<string>, transport: nat -> SendOutcome, otherOk: bool): Sending
    requires e < |t.effects|
  {
    var trigger := TriggerFor(t.effects[e].plan.name);
    if !ValidPlan(t.effects[e].plan) then Sending(t, false, false)
    else if trigger.None? then Sending(t, otherOk, false)
    else
      match Prepare(t, e, trigger.value, envelope, secrets)
      case None => Sending(t, false, false)
      case Some(t') => SendAll(t', PendingOf(t'.attempts, e), false, limit, transport)
  }

  lemma PreparedQueue(t: Tables, e: nat, limit: nat, trigger: Trigger, envelope: Option<string>, secrets: set<string>)
    requires limit > 0 && AttemptsOk(t, limit) && Prepare(t, e, trigger, envelope, secrets).Some?
    ensures var t' := Prepare(t, e, trigger, envelope, secrets).value;
      && AttemptsOk(t', limit) && OnlyEffect(t, t', e) && e in t'.deliveries
      && Markable(t', PendingOf(t'.attempts, e))
  {
    var t' := Prepare(t, e, trigger, envelope, secrets).value;
    var queue := PendingOf(t'.attempts, e);
    var n := |t.attempts|;
    forall i | 0 <= i < |t'.attempts|
      ensures t'.attempts[i].subscriberId < |t'.subs| && (t'.attempts[i].Pending() ==> t'.attempts[i].count < limit)
      ensures i < n ==> t'.attempts[i] == t.attempts[i]
      ensures i >= n ==> t'.attempts[i].effectId == e && !HasAttempts(t.attempts, e)
    {
    }
    forall k | 0 <= k < |queue| ensures CanMark(t', queue[k]) {
      assert queue[k] in queue;
    }
  }

  /** The send loop over a prepared effect: success means that every attempt of the effect is
      settled. When no mark is lost, the error says exactly that something is still pending,
      the attempts are one round on, and the potential has fallen by every send. */
  lemma RoundSettles(t: Tables, e: nat, limit: nat, transport: nat -> SendOutcome)
    requires AttemptsOk(t, limit) && Markable(t, PendingOf(t.attempts, e))
    ensures var r := SendAll(t, PendingOf(t.attempts, e), false, limit, transport);
      && AttemptsOk(r.tables, limit) && OnlyEffect(t, r.tables, e)
      && r.tables.deliveries == t.deliveries
      && (r.ok ==> !r.lost)
      && (!r.lost ==>
            && r.tables.attempts == Round(t.attempts, e, limit, transport)
            && (r.ok <==> !HasPending(r.tables.attempts, e))
            && Potential(r.tables.attempts, e, limit) + |PendingOf(t.attempts, e)| <= Potential(t.attempts, e, limit))
  {
    var queue := PendingOf(t.attempts, e);
    SendAllRecords(t, queue, false, limit, transport);
    SendAllReports(t, queue, false, limit, transport);
    var r := SendAll(t, queue, false, limit, transport);
    SentRoundKeeps(t, r.tables, e, limit, transport);
    if !r.lost {
      assert r.tables.attempts == Round(t.attempts, e, limit, transport);
      RoundPending(t.attempts, e, limit, transport);
      RoundLowersPotential(t.attempts, e, limit, transport);
    }
  }

  lemma OnlyEffectTransitive(a: Tables, b: Tables, c: Tables, e: nat)
    requires OnlyEffect(a, b, e) && OnlyEffect(b, c, e)
    ensures OnlyEffect(a, c, e)
  {
  }

  /** What a Dispatch of a webhook effect achieves, its preparation included. */
  lemma DispatchSettles(t: Tables, e: nat, limit: nat, envelope: Option<string>, secrets: set<string>, transport: nat -> SendOutcome, otherOk: bool)
    requires limit > 0 && e < |t.effects| && AttemptsOk(t, limit) && ValidPlan(t.effects[e].plan)
    requires TriggerFor(t.effects[e].plan.name).Some?
    ensures var r := DispatchOf(t, e, limit, envelope, secrets, transport, otherOk);
      var p := Prepare(t, e, TriggerFor(t.effects[e].plan.name).value, envelope, secrets);
      && AttemptsOk(r.tables, limit) && OnlyEffect(t, r.tables, e)
      && (p.None? ==> r == Sending(t, false, false))
      && (r.ok ==> e in r.tables.deliveries && !HasPending(r.tables.attempts, e))
      && (p.Some? && !r.lost ==>
            && r.tables.attempts == Round(p.value.attempts, e, limit, transport)
            && (r.ok <==> !HasPending(r.tables.attempts, e))
            && Potential(r.tables.attempts, e, limit) + |PendingOf(p.value.attempts, e)| <= Potential(p.value.attempts, e, limit))
  {
    var trigger := TriggerFor(t.effects[e].plan.name).value;
    var p := Prepare(t, e, trigger, envelope, secrets);
    if p.Some? {
      PreparedQueue(t, e, limit, trigger, envelope, secrets);
      RoundSettles(p.value, e, limit, transport);
      OnlyEffectTransitive(t, p.value, SendAll(p.value, PendingOf(p.value.attempts, e), false, limit, transport).tables, e);
    }
  }

  /** The attempts of `e` are one for each of these subscribers, each sent once with this body. */
  ghost predicate SentToEach(attempts: seq<Attempt>, e: nat, body: string, subs: seq<Subscription>, trigger: Trigger) {
    && (forall i :: 0 <= i < |attempts| && attempts[i].effectId == e ==>
          attempts[i].body == body && attempts[i].count == 1 && !attempts[i].Pending()
          && attempts[i].subscriberId < |subs| && Subscribed(subs[attempts[i].subscriberId], trigger))
    && (forall s: nat :: s < |subs| && Subscribed(subs[s], trigger) ==>
          exists i :: 0 <= i < |attempts| && attempts[i].effectId == e && attempts[i].subscriberId == s)
    && forall i, j :: 0 <= i < j < |attempts| && attempts[i].effectId == e == attempts[j].effectId ==> attempts[i].subscriberId != attempts[j].subscriberId
  }

  /** Behind the first n rows: one unsent row of `e` with this body for each of these subscribers, in
      their order. */
  ghost predicate RowsAdded(attempts: seq<Attempt>, n: nat, e: nat, body: string, subs: seq<Subscription>, trigger: Trigger) {
    && n <= |attempts|
    && (forall i :: n <= i < |attempts| ==>
          && attempts[i] == Attempt(e, attempts[i].subscriberId, body, 0, false, false)
          && attempts[i].subscriberId < |subs| && Subscribed(subs[attempts[i].subscriberId], trigger))
    && (forall i, j :: n <= i < j < |attempts| ==> attempts[i].subscriberId < attempts[j].subscriberId)
    && forall s: nat :: s < |subs| && Subscribed(subs[s], trigger) ==> exists i :: n <= i < |attempts| && attempts[i].subscriberId == s
  }

  lemma AddedRows(attempts: seq<Attempt>, subs: seq<Subscription>, e: nat, d: Delivery)
    ensures RowsAdded(attempts + AttemptsFor(subs, |subs|, e, d), |attempts|, e, d.body, subs, d.trigger)
  {
    var added, n := AttemptsFor(subs, |subs|, e, d), |attempts|;
    var all := attempts + added;
    assert forall i :: n <= i < |all| ==> all[i] == added[i - n];
    forall s: nat | s < |subs| && Subscribed(subs[s], d.trigger) ensures exists i :: n <= i < |all| && all[i].subscriberId == s {
      EverySubscriberGetsAnAttempt(subs, |subs|, e, d, s);
      var k :| 0 <= k < |added| && added[k] == Attempt(e, s, d.body, 0, false, false);
      assert all[n + k].subscriberId == s;
    }
  }

  /** What a preparation that succeeds leaves: an envelope once frozen stays, a new one is what was
      offered, for this trigger; and attempts are recorded once, from that envelope. */
  ghost predicate PreparedAs(t: Tables, t': Tables, e: nat, trigger: Trigger, envelope: Option<string>) {
    && t'.effects == t.effects && t'.subs == t.subs && e in t'.deliveries
    && (if e in t.deliveries then t'.deliveries == t.deliveries
        else envelope.Some? && t'.deliveries == t.deliveries[e := Delivery(trigger, envelope.value)])
    && t.attempts <= t'.attempts
    && (if HasAttempts(t.attempts, e) then t'.attempts == t.attempts
        else RowsAdded(t'.attempts, |t.attempts|, e, t'.deliveries[e].body, t.subs, t'.deliveries[e].trigger))
  }

  /** When a preparation succeeds. */
  predicate Preparable(t: Tables, e: nat, trigger: Trigger, envelope: Option<string>, secrets: set<string>) {
    var wanted := if e in t.deliveries then t.deliveries[e].trigger else trigger;
    && (e in t.deliveries || envelope.Some?)
    && (HasAttempts(t.attempts, e) || forall s :: 0 <= s < |t.subs| && t.subs[s].active && t.subs[s].trigger == wanted ==> t.subs[s].keyRef in secrets)
  }

  lemma PrepareMeans(t: Tables, e: nat, trigger: Trigger, envelope: Option<string>, secrets: set<string>)
    ensures Prepare(t, e, trigger, envelope, secrets).Some? <==> Preparable(t, e, trigger, envelope, secrets)
    ensures Prepare(t, e, trigger, envelope, secrets).Some? ==> PreparedAs(t, Prepare(t, e, trigger, envelope, secrets).value, e, trigger, envelope)
  {
    if Prepare(t, e, trigger, envelope, secrets).Some? {
      var d := if e in t.deliveries then t.deliveries[e] else Delivery(trigger, envelope.value);
      AddedRows(t.attempts, t.subs, e, d);
    }
  }

  /** If nobody had prepared the effect, the envelope offered now has been sent to each active
      subscription of its trigger. */
  ghost predicate FirstSendIsTheOffer(t: Tables, r: Tables, e: nat, envelope: Option<string>)
    requires e < |t.effects|
  {
    var trigger := TriggerFor(t.effects[e].plan.name);
    trigger.Some? && e !in t.deliveries && !HasAttempts(t.attempts, e) ==>
      && envelope.Some? && e in r.deliveries && r.deliveries[e] == Delivery(trigger.value, envelope.value)
      && SentToEach(r.attempts, e, envelope.value, t.subs, trigger.value)
  }

  /** A successful Dispatch of an effect nobody has prepared has sent exactly the envelope it was
      offered, once to each active subscription of the effect's trigger. */
  lemma FreshDispatchSends(t: Tables, e: nat, limit: nat, trigger: Trigger, envelope: Option<string>, secrets: set<string>,
                           transport: nat -> SendOutcome, otherOk: bool)
    requires limit > 0 && e < |t.effects| && AttemptsOk(t, limit) && ValidPlan(t.effects[e].plan)
    requires TriggerFor(t.effects[e].plan.name) == Some(trigger)
    requires e !in t.deliveries && !HasAttempts(t.attempts, e)
    requires DispatchOf(t, e, limit, envelope, secrets, transport, otherOk).ok
    ensures var r := DispatchOf(t, e, limit, envelope, secrets, transport, otherOk).tables;
      && envelope.Some? && e in r.deliveries && r.deliveries[e] == Delivery(trigger, envelope.value)
      && SentToEach(r.attempts, e, envelope.value, t.subs, trigger)
  {
    DispatchSettles(t, e, limit, envelope, secrets, transport, otherOk);
    var t' := Prepare(t, e, trigger, envelope, secrets).value;
    PrepareMeans(t, e, trigger, envelope, secrets);
    PreparedQueue(t, e, limit, trigger, envelope, secrets);
    RoundSettles(t', e, limit, transport);
    FreshRoundSends(t, t', e, limit, trigger, envelope.value, transport);
  }

  lemma FreshRoundSends(t: Tables, t': Tables, e: nat, limit: nat, trigger: Trigger, body: string, transport: nat -> SendOutcome)
    requires !HasAttempts(t.attempts, e) && t.attempts <= t'.attempts && RowsAdded(t'.attempts, |t.attempts|, e, body, t.subs, trigger)
    requires !HasPending(Round(t'.attempts, e, limit, transport), e)
    ensures SentToEach(Round(t'.attempts, e, limit, transport), e, body, t.subs, trigger)
  {
    var r, n := Round(t'.attempts, e, limit, transport), |t.attempts|;
    forall i | 0 <= i < n ensures r[i].effectId != e { assert t'.attempts[i] == t.attempts[i]; }
    forall i | n <= i < |r|
      ensures r[i].body == body && r[i].count == 1 && !r[i].Pending() && r[i].subscriberId == t'.attempts[i].subscriberId {
      assert !IsPendingOf(r[i], e);
    }
    forall s: nat | s < |t.subs| && Subscribed(t.subs[s], trigger) ensures exists i :: 0 <= i < |r| && r[i].effectId == e && r[i].subscriberId == s {
      var i :| n <= i < |t'.attempts| && t'.attempts[i].subscriberId == s;
      assert r[i].effectId == e && r[i].subscriberId == s;
    }
  }

  lemma SentRoundKeeps(t: Tables, r: Tables, e: nat, limit: nat, transport: nat -> SendOutcome)
    requires AttemptsOk(t, limit)
    requires r.effects == t.effects && r.deliveries == t.deliveries && |r.subs| == |t.subs| && |r.attempts| == |t.attempts|
    requires forall i :: 0 <= i < |r.attempts| ==>
      r.attempts[i] == t.attempts[i] || (IsPendingOf(t.attempts[i], e) && r.attempts[i] == Recorded(t.attempts[i], transport(i), limit))
    ensures AttemptsOk(r, limit) && OnlyEffect(t, r, e)
  {
    forall i | 0 <= i < |r.attempts|
      ensures r.attempts[i].effectId == t.attempts[i].effectId && r.attempts[i].subscriberId == t.attempts[i].subscriberId && r.attempts[i].body == t.attempts[i].body
    {
    }
  }

  lemma SettledStays(t: Tables, t': Tables, e: nat, x: nat)
    requires OnlyEffect(t, t', e) && x != e && !HasPending(t.attempts, x)
    ensures !HasPending(t'.attempts, x)
  {
  }

  /** A claim that has been answered: delivered or failed, and settled if a delivered webhook. */
  ghost predicate Answered(t: Tables, id: nat) {
    && id < |t.effects|
    && (t.effects[id].status == EffectStatus.Delivered || t.effects[id].status == Failed)
    && (t.effects[id].status == EffectStatus.Delivered && TriggerFor(t.effects[id].plan.name).Some? ==>
          id in t.deliveries && !HasPending(t.attempts, id))
  }

  /** A pass over the claims `ids` that has answered the first k of them. */
  ghost predicate PassedOver(before: seq<Effect>, t: Tables, ids: seq<nat>, k: nat) {
    && |t.effects| == |before|
    && (forall i :: 0 <= i < |before| && i !in ids ==> t.effects[i] == before[i])
    && (forall j :: 0 <= j < |ids| ==>
          && ids[j] < |before|
          && t.effects[ids[j]].plan == before[ids[j]].plan && t.effects[ids[j]].attempts == before[ids[j]].attempts + 1)
    && (forall j :: k <= j < |ids| ==> t.effects[ids[j]].status == Processing)
    && (forall j :: 0 <= j < k && j < |ids| ==> Answered(t, ids[j]))
  }

  lemma PassStep(before: seq<Effect>, t: Tables, t': Tables, ids: seq<nat>, k: nat)
    requires Increasing(ids) && k < |ids| && PassedOver(before, t, ids, k)
    requires |t'.effects| == |t.effects| && forall i :: 0 <= i < |t.effects| && i != ids[k] ==> t'.effects[i] == t.effects[i]
    requires t'.effects[ids[k]].plan == t.effects[ids[k]].plan && t'.effects[ids[k]].attempts == t.effects[ids[k]].attempts
    requires Answered(t', ids[k])
    requires forall x :: x in t.deliveries ==> x in t'.deliveries
    requires forall x: nat :: x != ids[k] && !HasPending(t.attempts, x) ==> !HasPending(t'.attempts, x)
    ensures PassedOver(before, t', ids, k + 1)
  {
    forall j | 0 <= j < |ids| && j != k ensures ids[j] != ids[k] { }
    forall j | 0 <= j < k ensures Answered(t', ids[j]) { assert Answered(t, ids[j]); }
  }

  /** Of the first n ids, those with this status. */
  function StatusCount(effects: seq<Effect>, ids: seq<nat>, n: nat, status: EffectStatus): nat
    requires n <= |ids| && forall j :: 0 <= j < |ids| ==> ids[j] < |effects|
  {
    if n == 0 then 0 else StatusCount(effects, ids, n - 1, status) + if effects[ids[n - 1]].status == status then 1 else 0
  }

  lemma {:induction false} StatusCountFrame(effects: seq<Effect>, effects': seq<Effect>, ids: seq<nat>, n: nat, status: EffectStatus)
    requires n <= |ids| && |effects| == |effects'| && forall j :: 0 <= j < |ids| ==> ids[j] < |effects|
    requires forall j :: 0 <= j < n ==> effects[ids[j]].status == effects'[ids[j]].status
    ensures StatusCount(effects, ids, n, status) == StatusCount(effects', ids, n, status)
  {
    if n > 0 { StatusCountFrame(effects, effects', ids, n - 1, status); }
  }

  lemma {:induction false} RestHasOtherStatus(effects: seq<Effect>, ids: seq<nat>, k: nat, n: nat, status: EffectStatus)
    requires k <= n <= |ids| && forall j :: 0 <= j < |ids| ==> ids[j] < |effects|
    requires forall j :: k <= j < n ==> effects[ids[j]].status != status
    ensures StatusCount(effects, ids, n, status) == StatusCount(effects, ids, k, status)
    decreases n
  {
    if k < n { RestHasOtherStatus(effects, ids, k, n - 1, status); }
  }

  datatype RunResult = RunResult(claimed: nat, delivered: nat, failed: nat)

  /** The surroundings of a pass: the retry limit, the clock, what the booking reader and the secret
      resolver offer, how each send ends, and whether each answer can be stored. */
  datatype Env = Env(limit: nat, now: int, envelope: nat -> Option<string>, secrets: set<string>, transport: nat -> SendOutcome,
                     otherOk: nat -> bool, answerStored: nat -> bool)

  function DispatchIn(t: Tables, e: nat, v: Env): Sending
    requires e < |t.effects|
  {
    DispatchOf(t, e, v.limit, v.envelope(e), v.secrets, v.transport, v.otherOk(e))
  }

  function AnswerOf(t: Tables, e: nat, ok: bool, now: int): Option<Tables> {
    match (if ok then AnswerDelivered(t.effects, e) else AnswerFailed(t.effects, e, now))
    case None => None
    case Some(effects) => Some(t.(effects := effects))
  }

  datatype Pass = Pass(tables: Tables, delivered: nat, failed: nat, err: bool)

  /** The loop of RunOnce over the claims left, with the counters so far. */
  function PassOf(t: Tables, ids: seq<nat>, delivered: nat, failed: nat, v: Env): Pass
    decreases |ids|
  {
    if ids == [] then Pass(t, delivered, failed, false)
    else if ids[0] >= |t.effects| then Pass(t, delivered, failed, true)
    else
      var r := DispatchIn(t, ids[0], v);
      match (if v.answerStored(ids[0]) then AnswerOf(r.tables, ids[0], r.ok, v.now) else None)
      case None => Pass(r.tables, delivered, failed, true)
      case Some(t') => PassOf(t', ids[1..], if r.ok then delivered + 1 else delivered, if r.ok then failed else failed + 1, v)
  }

  /** Dispatching one claimed effect and answering the claim. */
  lemma OneAnswer(t: Tables, id: nat, v: Env)
    requires v.limit > 0 && AttemptsOk(t, v.limit) && id < |t.effects| && t.effects[id].status == Processing
    ensures var r := DispatchIn(t, id, v);
      && AttemptsOk(r.tables, v.limit) && OnlyEffect(t, r.tables, id)
      && AnswerOf(r.tables, id, r.ok, v.now).Some?
      && (r.ok && TriggerFor(t.effects[id].plan.name).Some? ==> id in r.tables.deliveries && !HasPending(r.tables.attempts, id))
      && forall x: nat :: x != id && !HasPending(t.attempts, x) ==> !HasPending(r.tables.attempts, x)
  {
    var r := DispatchIn(t, id, v);
    if ValidPlan(t.effects[id].plan) && TriggerFor(t.effects[id].plan.name).Some? {
      DispatchSettles(t, id, v.limit, v.envelope(id), v.secrets, v.transport, v.otherOk(id));
    }
    assert OnlyEffect(t, r.tables, id);
    forall x: nat | x != id && !HasPending(t.attempts, x) ensures !HasPending(r.tables.attempts, x) {
      SettledStays(t, r.tables, id, x);
    }
  }

  lemma BatchRest(effects: seq<Effect>, ids: seq<nat>, k: nat)
    requires k <= |ids| && forall j :: 0 <= j < |ids| ==> ids[j] < |effects|
    requires forall j :: k <= j < |ids| ==> effects[ids[j]].status == Processing
    ensures StatusCount(effects, ids, |ids|, EffectStatus.Delivered) == StatusCount(effects, ids, k, EffectStatus.Delivered)
    ensures StatusCount(effects, ids, |ids|, Failed) == StatusCount(effects, ids, k, Failed)
  {
    RestHasOtherStatus(effects, ids, k, |ids|, EffectStatus.Delivered);
    RestHasOtherStatus(effects, ids, k, |ids|, Failed);
  }

  /** Answering one more claim of the batch moves one counter by one. */
  lemma CountStep(effects: seq<Effect>, effects': seq<Effect>, ids: seq<nat>, k: nat, ok: bool)
    requires Increasing(ids) && k < |ids| && |effects| == |effects'| && forall j :: 0 <= j < |ids| ==> ids[j] < |effects|
    requires forall i :: 0 <= i < |effects| && i != ids[k] ==> effects'[i] == effects[i]
    requires effects'[ids[k]].status == if ok then EffectStatus.Delivered else Failed
    ensures StatusCount(effects', ids, k + 1, EffectStatus.Delivered) == StatusCount(effects, ids, k, EffectStatus.Delivered) + if ok then 1 else 0
    ensures StatusCount(effects', ids, k + 1, Failed) == StatusCount(effects, ids, k, Failed) + if ok then 0 else 1
  {
    StatusCountFrame(effects, effects', ids, k, EffectStatus.Delivered);
    StatusCountFrame(effects, effects', ids, k, Failed);
  }

  /** How a pass over the claims `ids` of the rows `before` ends. */
  ghost predicate PassEnds(before: seq<Effect>, ids: seq<nat>, p: Pass, limit: nat) {
    && AttemptsOk(p.tables, limit) && |p.tables.effects| == |before|
    && (forall i: nat :: i < |before| && i !in ids ==> p.tables.effects[i] == before[i])
    && (forall j :: 0 <= j < |ids| ==> ids[j] < |before| && p.tables.effects[ids[j]].attempts == before[ids[j]].attempts + 1)
    // the counters count the claims that ended delivered and those that ended failed
    && p.delivered == StatusCount(p.tables.effects, ids, |ids|, EffectStatus.Delivered)
    && p.failed == StatusCount(p.tables.effects, ids, |ids|, Failed)
    // without an error every claim is answered, and a delivered webhook effect is settled
    && (!p.err ==> |ids| == p.delivered + p.failed && forall i :: i in ids ==> Answered(p.tables, i))
    // an error leaves a rest of the batch claimed
    && (p.err ==> p.delivered + p.failed < |ids| && exists i :: i in ids && p.tables.effects[i].status == Processing)
  }

  lemma AllPassed(before: seq<Effect>, t: Tables, ids: seq<nat>, delivered: nat, failed: nat, limit: nat)
    requires AttemptsOk(t, limit) && PassedOver(before, t, ids, |ids|) && delivered + failed == |ids|
    requires delivered == StatusCount(t.effects, ids, |ids|, EffectStatus.Delivered) && failed == StatusCount(t.effects, ids, |ids|, Failed)
    ensures PassEnds(before, ids, Pass(t, delivered, failed, false), limit)
  {
    forall i | i in ids ensures Answered(t, i) {
      var j :| 0 <= j < |ids| && ids[j] == i;
    }
  }

  lemma PassBroken(before: seq<Effect>, t: Tables, ids: seq<nat>, k: nat, delivered: nat, failed: nat, limit: nat)
    requires k < |ids| && AttemptsOk(t, limit) && PassedOver(before, t, ids, k) && delivered + failed == k
    requires delivered == StatusCount(t.effects, ids, k, EffectStatus.Delivered) && failed == StatusCount(t.effects, ids, k, Failed)
    ensures PassEnds(before, ids, Pass(t, delivered, failed, true), limit)
  {
    BatchRest(t.effects, ids, k);
    assert ids[k] in ids;
  }

  lemma SameBatch(before: seq<Effect>, t: Tables, t': Tables, ids: seq<nat>, k: nat)
    requires k < |ids| && PassedOver(before, t, ids, k) && OnlyEffect(t, t', ids[k])
    requires Increasing(ids) && forall x: nat :: x != ids[k] && !HasPending(t.attempts, x) ==> !HasPending(t'.attempts, x)
    ensures PassedOver(before, t', ids, k) && t'.effects == t.effects
  {
    forall j | 0 <= j < k ensures Answered(t', ids[j]) { assert Answered(t, ids[j]); }
  }

  /** The loop of RunOnce, one claim on. */
  lemma PassUnrolls(t: Tables, ids: seq<nat>, k: nat, delivered: nat, failed: nat, v: Env)
    requires k < |ids| && ids[k] < |t.effects|
    ensures var r := DispatchIn(t, ids[k], v); var a := AnswerOf(r.tables, ids[k], r.ok, v.now);
      PassOf(t, ids[k..], delivered, failed, v)
      == if v.answerStored(ids[k]) && a.Some?
         then PassOf(a.value, ids[k + 1..], if r.ok then delivered + 1 else delivered, if r.ok then failed else failed + 1, v)
         else Pass(r.tables, delivered, failed, true)
  {
    assert ids[k..][0] == ids[k] && ids[k..][1..] == ids[k + 1..];
  }

  ghost predicate PassedSoFar(before: seq<Effect>, t: Tables, ids: seq<nat>, k: nat, delivered: nat, failed: nat, limit: nat) {
    && k <= |ids| && AttemptsOk(t, limit) && PassedOver(before, t, ids, k) && delivered + failed == k
    && delivered == StatusCount(t.effects, ids, k, EffectStatus.Delivered) && failed == StatusCount(t.effects, ids, k, Failed)
  }

  lemma OneMorePassed(before: seq<Effect>, t: Tables, ids: seq<nat>, k: nat, delivered: nat, failed: nat, v: Env)
    requires v.limit > 0 && Increasing(ids) && k < |ids| && PassedSoFar(before, t, ids, k, delivered, failed, v.limit)
    ensures var r := DispatchIn(t, ids[k], v); var a := AnswerOf(r.tables, ids[k], r.ok, v.now);
      && PassedSoFar(before, r.tables, ids, k, delivered, failed, v.limit)
      && a.Some?
      && PassedSoFar(before, a.value, ids, k + 1, if r.ok then delivered + 1 else delivered, if r.ok then failed else failed + 1, v.limit)
  {
    OneAnswer(t, ids[k], v);
    var r := DispatchIn(t, ids[k], v);
    SameBatch(before, t, r.tables, ids, k);
    AnswerPasses(before, r.tables, ids, k, delivered, failed, r.ok, v);
  }

  lemma AnswerPasses(before: seq<Effect>, t: Tables, ids: seq<nat>, k: nat, delivered: nat, failed: nat, ok: bool, v: Env)
    requires Increasing(ids) && k < |ids| && PassedSoFar(before, t, ids, k, delivered, failed, v.limit)
    requires ok && TriggerFor(t.effects[ids[k]].plan.name).Some? ==> ids[k] in t.deliveries && !HasPending(t.attempts, ids[k])
    ensures var a := AnswerOf(t, ids[k], ok, v.now);
      a.Some? && PassedSoFar(before, a.value, ids, k + 1, if ok then delivered + 1 else delivered, if ok then failed else failed + 1, v.limit)
  {
    var t' := AnswerOf(t, ids[k], ok, v.now).value;
    PassStep(before, t, t', ids, k);
    CountStep(t.effects, t'.effects, ids, k, ok);
  }

  lemma {:induction false} PassFrom(before: seq<Effect>, t: Tables, ids: seq<nat>, k: nat, delivered: nat, failed: nat, v: Env)
    requires v.limit > 0 && Increasing(ids) && PassedSoFar(before, t, ids, k, delivered, failed, v.limit)
    ensures PassEnds(before, ids, PassOf(t, ids[k..], delivered, failed, v), v.limit)
    decreases |ids| - k
  {
    if k == |ids| {
      AllPassed(before, t, ids, delivered, failed, v.limit);
    } else {
      PassUnrolls(t, ids, k, delivered, failed, v);
      OneMorePassed(before, t, ids, k, delivered, failed, v);
      var r := DispatchIn(t, ids[k], v);
      if v.answerStored(ids[k]) {
        var t' := AnswerOf(r.tables, ids[k], r.ok, v.now).value;
        PassFrom(before, t', ids, k + 1, if r.ok then delivered + 1 else delivered, if r.ok then failed else failed + 1, v);
      } else {
        PassBroken(before, r.tables, ids, k, delivered, failed, v.limit);
      }
    }
  }

  /** What one pass achieves. */
  lemma PassSettles(t: Tables, ids: seq<nat>, v: Env)
    requires v.limit > 0 && AttemptsOk(t, v.limit) && Increasing(ids) && forall k :: 0 <= k < |ids| ==> ids[k] < |t.effects|
    ensures PassEnds(t.effects, ids, PassOf(t.(effects := ClaimRows(t.effects, ids)), ids, 0, 0, v), v.limit)
  {
    assert ids[0..] == ids;
    forall j | 0 <= j < |ids| ensures ids[j] in ids {}
    PassFrom(t.effects, t.(effects := ClaimRows(t.effects, ids)), ids, 0, 0, 0, v);
  }

  class Database {
    var effects: seq<Effect>
    var deliveries: map<nat, Delivery>
    var attempts: seq<Attempt>
    var subs: seq<Subscription>

    ghost function Rows(): Tables
      reads this
    {
      Tables(effects, deliveries, attempts, subs)
    }

    constructor ()
      ensures Rows() == EMPTY
    {
      effects, deliveries, attempts, subs := [], map[], [], [];
    }

    // ---------- the outbox ----------

    /** savePlannedSideEffects inside its transaction: an invalid effect rolls everything back. */
    method SavePlannedSideEffects(plans: seq<PlannedEffect>, now: int) returns (ok: bool)
      modifies this`effects
      ensures ok <==> SavePlanned(old(effects), plans, now).Some?
      ensures effects == if ok then SavePlanned(old(effects), plans, now).value else old(effects)
    {
      var before := effects;
      var i := 0;
      while i < |plans|
        invariant 0 <= i <= |plans|
        invariant SavePlanned(effects, plans[i..], now) == SavePlanned(before, plans, now)
      {
        if !ValidPlan(plans[i]) {
          effects := before;
          return false;
        }
        assert plans[i..][1..] == plans[i + 1..];
        if !HasPlanKey(effects, plans[i]) {
          effects := effects + [Effect(plans[i], Planned, 0, now)];
        }
        i := i + 1;
      }
      return true;
    }

    /** The first `limit` eligible effects in order of creation become `processing`. */
    method ClaimPlannedSideEffects(limit: nat, now: int) returns (ids: seq<nat>)
      modifies this`effects
      ensures |ids| <= (if limit == 0 then 25 else limit) && Increasing(ids)
      ensures forall k :: 0 <= k < |ids| ==> ids[k] < |old(effects)| && Eligible(old(effects)[ids[k]], now)
      ensures effects == ClaimRows(old(effects), ids)
      // with room for it, an effect is claimed if and only if it is planned or failed and due
      ensures |ids| < (if limit == 0 then 25 else limit) ==> forall i: nat :: i in ids <==>
        i < |old(effects)| && old(effects)[i].status in {Planned, Failed} && old(effects)[i].nextAttemptAt <= now
      ensures forall i :: 0 <= i < |effects| && i !in ids ==> effects[i] == old(effects)[i]
      ensures forall i :: 0 <= i < |effects| && i in ids ==>
        effects[i] == Effect(old(effects)[i].plan, Processing, old(effects)[i].attempts + 1, old(effects)[i].nextAttemptAt)
      ensures forall i: nat, k :: 0 <= k < |ids| && i < ids[k] && Eligible(old(effects)[i], now) ==> i in ids
    {
      var max := if limit == 0 then 25 else limit;
      ids := [];
      var i := 0;
      var before := effects;
      while i < |effects| && |ids| < max
        invariant 0 <= i <= |before| == |effects| && |ids| <= max
        invariant forall k :: 0 <= k < |ids| ==> ids[k] < i && Eligible(before[ids[k]], now)
        invariant Increasing(ids)
        invariant forall j: nat :: j < i && Eligible(before[j], now) ==> j in ids
        invariant forall j :: 0 <= j < |before| ==> effects[j] == if j in ids then Claimed(before[j]) else before[j]
      {
        if Eligible(effects[i], now) {
          effects := effects[i := Claimed(effects[i])];
          ids := ids + [i];
        }
        i := i + 1;
      }
    }

    method MarkPlannedSideEffectDelivered(id: nat) returns (ok: bool)
      modifies this`effects
      ensures ok <==> AnswerDelivered(old(effects), id).Some?
      ensures effects == if ok then AnswerDelivered(old(effects), id).value else old(effects)
    {
      if id < |effects| && effects[id].status == Processing {
        effects := effects[id := effects[id].(status := EffectStatus.Delivered)];
        return true;
      }
      return false;
    }

    method MarkPlannedSideEffectFailed(id: nat, now: int) returns (ok: bool)
      modifies this`effects
      ensures ok <==> AnswerFailed(old(effects), id, now).Some?
      ensures effects == if ok then AnswerFailed(old(effects), id, now).value else old(effects)
    {
      if id < |effects| && effects[id].status == Processing {
        var wait := Min(60, Max(effects[id].attempts, 1) * 5);
        effects := effects[id := effects[id].(status := Failed, nextAttemptAt := now + wait)];
        return true;
      }
      return false;
    }

    // ---------- subscriptions ----------

    method SaveWebhookSubscription(url: string, trigger: Trigger, keyRef: string, active: bool) returns (ok: bool)
      modifies this`subs
      ensures ok <==> url != "" && keyRef != ""
      // there is now one row with this key; it took the flag unless it is disabled, all else stays
      ensures ok ==> exists i :: 0 <= i < |subs| && SameSubscriptionKey(subs[i], url, trigger, keyRef) && (subs[i].active == active || subs[i].disabled)
      ensures |old(subs)| <= |subs| <= |old(subs)| + 1
      ensures forall i :: 0 <= i < |old(subs)| ==>
        && subs[i].(active := old(subs)[i].active) == old(subs)[i]
        && (subs[i].disabled || !SameSubscriptionKey(subs[i], url, trigger, keyRef) ==> subs[i] == old(subs)[i])
      ensures |subs| > |old(subs)| ==> subs[|subs| - 1] == Subscription(url, trigger, keyRef, active, 0, false)
      ensures subs == if ok then SaveSubscription(old(subs), url, trigger, keyRef, active) else old(subs)
    {
      if url == "" || keyRef == "" { return false; }
      var i := FindSubscription(subs, url, trigger, keyRef);
      if i == |subs| {
        subs := subs + [Subscription(url, trigger, keyRef, active, 0, false)];
        assert SameSubscriptionKey(subs[i], url, trigger, keyRef);
      } else {
        subs := subs[i := subs[i].(active := if !subs[i].disabled then active else subs[i].active)];
        assert SameSubscriptionKey(subs[i], url, trigger, keyRef);
      }
      return true;
    }

    /** Ids of the active subscriptions of a trigger, in id order. */
    method ReadWebhookSubscriptionsByTrigger(trigger: Trigger) returns (ids: seq<nat>)
      ensures Increasing(ids)
      ensures forall s: nat :: s in ids <==> s < |subs| && Subscribed(subs[s], trigger)
    {
      ids := [];
      var i := 0;
      while i < |subs|
        invariant 0 <= i <= |subs|
        invariant Increasing(ids)
        invariant forall k :: 0 <= k < |ids| ==> ids[k] < i
        invariant forall s: nat :: s in ids <==> s < i && Subscribed(subs[s], trigger)
      {
        if subs[i].active && subs[i].trigger == trigger { ids := ids + [i]; }
        i := i + 1;
      }
    }

    // ---------- preparing a dispatch ----------

    /** One insert per template, `on conflict (delivery_id, subscriber_id) do nothing`. */
    method RecordWebhookAttempts(templates: seq<Attempt>)
      modifies this`attempts
      ensures attempts == RecordAll(old(attempts), templates)
    {
      var k := 0;
      assert templates[0..] == templates;
      while k < |templates|
        invariant 0 <= k <= |templates|
        invariant RecordAll(attempts, templates[k..]) == RecordAll(old(attempts), templates)
      {
        var a := templates[k];
        assert templates[k..][1..] == templates[k + 1..];
        if !exists i :: 0 <= i < |attempts| && attempts[i].effectId == a.effectId && attempts[i].subscriberId == a.subscriberId {
          attempts := attempts + [a];
        }
        k := k + 1;
      }
    }

    /** prepareWebhookAttempts in the transaction of Dispatch; an error rolls it back. */
    method PrepareWebhookAttempts(e: nat, trigger: Trigger, envelope: Option<string>, secrets: set<string>) returns (ok: bool, pending: seq<nat>)
      modifies this`deliveries, this`attempts
      ensures ok <==> Prepare(old(Rows()), e, trigger, envelope, secrets).Some?
      ensures Rows() == if ok then Prepare(old(Rows()), e, trigger, envelope, secrets).value else old(Rows())
      ensures ok ==> pending == PendingOf(attempts, e)
      ensures ok <==> Preparable(old(Rows()), e, trigger, envelope, secrets)
      ensures ok ==> PreparedAs(old(Rows()), Rows(), e, trigger, envelope)
    {
      PrepareMeans(Rows(), e, trigger, envelope, secrets);
      if e !in deliveries && envelope.None? { return false, []; }
      var d := if e in deliveries then deliveries[e] else Delivery(trigger, envelope.value);
      var count := CountAttempts(e);
      if count == 0 {
        if exists s :: 0 <= s < |subs| && Subscribed(subs[s], d.trigger) && subs[s].keyRef !in secrets { return false, []; }
        var templates := AttemptsFor(subs, |subs|, e, d);
        deliveries := deliveries[e := d];
        RecordAllAppends(attempts, templates, e);
        RecordWebhookAttempts(templates);
      } else {
        deliveries := deliveries[e := d];
      }
      pending := ReadPendingWebhookAttempts(e);
      ok := true;
    }

    method CountAttempts(e: nat) returns (count: nat)
      ensures count == AttemptCount(attempts, e, |attempts|)
      ensures count == 0 <==> !HasAttempts(attempts, e)
    {
      count := 0;
      for i := 0 to |attempts|
        invariant count == AttemptCount(attempts, e, i)
        invariant count == 0 <==> forall j :: 0 <= j < i ==> attempts[j].effectId != e
      {
        if attempts[i].effectId == e { count := count + 1; }
      }
    }

    method ReadPendingWebhookAttempts(e: nat) returns (pending: seq<nat>)
      ensures pending == PendingOf(attempts, e)
    {
      pending := [];
      for i := 0 to |attempts|
        invariant pending == PendingUpTo(attempts, e, i)
      {
        if IsPendingOf(attempts[i], e) { pending := pending + [i]; }
      }
    }

    // ---------- marking a send ----------

    method MarkWebhookAttemptDelivered(a: nat) returns (ok: bool)
      modifies this`attempts, this`subs
      ensures ok <==> CanMark(old(Rows()), a)
      ensures Rows() == if ok then MarkDelivered(old(Rows()), a) else old(Rows())
    {
      if !(a < |attempts| && !attempts[a].delivered && !attempts[a].deadLettered && attempts[a].subscriberId < |subs|) { return false; }
      var subscriber := attempts[a].subscriberId;
      attempts := attempts[a := attempts[a].(delivered := true, count := attempts[a].count + 1)];
      subs := subs[subscriber := subs[subscriber].(failureCount := 0)];
      return true;
    }

    /** Counts the failure; the attempt that reaches the limit is dead-lettered and disables
        its subscription. */
    method MarkWebhookAttemptFailed(a: nat, limit: nat) returns (ok: bool, deadLettered: bool)
      modifies this`attempts, this`subs
      ensures ok <==> CanMark(old(Rows()), a)
      ensures Rows() == if ok then MarkFailed(old(Rows()), a, limit) else old(Rows())
      ensures ok ==> deadLettered == attempts[a].deadLettered
    {
      if !(a < |attempts| && !attempts[a].delivered && !attempts[a].deadLettered && attempts[a].subscriberId < |subs|) { return false, false; }
      var subscriber := attempts[a].subscriberId;
      var count := attempts[a].count + 1;
      deadLettered := count >= limit;
      attempts := attempts[a := attempts[a].(count := count, deadLettered := deadLettered)];
      if !deadLettered {
        subs := subs[subscriber := subs[subscriber].(failureCount := subs[subscriber].failureCount + 1)];
        return true, deadLettered;
      }
      subs := subs[subscriber := subs[subscriber].(active := false, failureCount := subs[subscriber].failureCount + 1, disabled := true)];
      return true, deadLettered;
    }

    // ---------- one dispatch ----------

    /** The send loop of Dispatch: send and mark every pending attempt in id order. The error it
        remembers is the first refusal that left its attempt pending; a mark that cannot be
        recorded ends the loop. */
    method SendPending(pending: seq<nat>, limit: nat, transport: nat -> SendOutcome) returns (ok: bool, lost: bool)
      modifies this`attempts, this`subs
      ensures Sending(Rows(), ok, lost) == SendAll(old(Rows()), pending, false, limit, transport)
    {
      var failed := false;
      var k := 0;
      assert pending[0..] == pending;
      while k < |pending|
        invariant 0 <= k <= |pending|
        invariant effects == old(effects) && deliveries == old(deliveries)
        invariant SendAll(Rows(), pending[k..], failed, limit, transport) == SendAll(old(Rows()), pending, false, limit, transport)
      {
        var a := pending[k];
        assert pending[k..][1..] == pending[k + 1..];
        var marked;
        if transport(a) == MarkLost { return false, true; }
        if transport(a) == Refused {
          var dead;
          marked, dead := MarkWebhookAttemptFailed(a, limit);
          if !marked { return false, true; }
          if !failed && !dead { failed := true; }
        } else {
          marked := MarkWebhookAttemptDelivered(a);
          if !marked { return false, true; }
        }
        k := k + 1;
      }
      return !failed, false;
    }

    method Dispatch(e: nat, limit: nat, envelope: Option<string>, secrets: set<string>, transport: nat -> SendOutcome, otherOk: bool)
      returns (ok: bool, lost: bool)
      requires e < |effects|
      modifies this`deliveries, this`attempts, this`subs
      ensures Sending(Rows(), ok, lost) == DispatchOf(old(Rows()), e, limit, envelope, secrets, transport, otherOk)
      ensures effects == old(effects)
      ensures ok && limit > 0 && AttemptsOk(old(Rows()), limit) ==> FirstSendIsTheOffer(old(Rows()), Rows(), e, envelope)
    {
      ghost var t := Rows();
      if !ValidPlan(effects[e].plan) { return false, false; }
      var trigger := TriggerFor(effects[e].plan.name);
      if trigger.None? { return otherOk, false; }
      var prepared, pending := PrepareWebhookAttempts(e, trigger.value, envelope, secrets);
      if !prepared { return false, false; }
      ok, lost := SendPending(pending, limit, transport);
      if ok && limit > 0 && AttemptsOk(t, limit) && e !in t.deliveries && !HasAttempts(t.attempts, e) {
        FreshDispatchSends(t, e, limit, trigger.value, envelope, secrets, transport, otherOk);
      }
    }

    // ---------- the worker ----------

    /** Dispatch one claimed effect and answer the claim. */
    method DispatchAndAnswer(id: nat, v: Env) returns (answered: bool, ok: bool)
      requires v.limit > 0 && AttemptsOk(Rows(), v.limit)
      requires id < |effects| && effects[id].status == Processing
      modifies this
      ensures |effects| == old(|effects|) && answered == v.answerStored(id) && ok == DispatchIn(old(Rows()), id, v).ok
      ensures var r := DispatchIn(old(Rows()), id, v).tables;
        if answered then AnswerOf(r, id, ok, v.now) == Some(Rows()) else Rows() == r
      ensures TriggerFor(effects[id].plan.name).Some? && ok ==> id in deliveries && !HasPending(attempts, id)
    {
      OneAnswer(Rows(), id, v);
      var lost;
      ok, lost := Dispatch(id, v.limit, v.envelope(id), v.secrets, v.transport, v.otherOk(id));
      if !v.answerStored(id) { return false, ok; }
      if !ok {
        answered := MarkPlannedSideEffectFailed(id, v.now);
      } else {
        answered := MarkPlannedSideEffectDelivered(id);
      }
    }

    /** The loop of a pass. An answer the database refuses ends it with an error. */
    method AnswerBatch(ids: seq<nat>, v: Env) returns (delivered: nat, failed: nat, err: bool)
      requires v.limit > 0 && AttemptsOk(Rows(), v.limit) && Increasing(ids)
      requires forall j :: 0 <= j < |ids| ==> ids[j] < |effects| && effects[ids[j]].status == Processing
      modifies this
      ensures Pass(Rows(), delivered, failed, err) == PassOf(old(Rows()), ids, 0, 0, v)
    {
      ghost var start := Rows();
      delivered, failed := 0, 0;
      var k := 0;
      assert ids[0..] == ids;
      while k < |ids|
        invariant 0 <= k <= |ids|
        invariant AttemptsOk(Rows(), v.limit)
        invariant forall j :: k <= j < |ids| ==> ids[j] < |effects| && effects[ids[j]].status == Processing
        invariant PassOf(Rows(), ids[k..], delivered, failed, v) == PassOf(start, ids, 0, 0, v)
      {
        OneAnswer(Rows(), ids[k], v);
        PassUnrolls(Rows(), ids, k, delivered, failed, v);
        var answered, ok := DispatchAndAnswer(ids[k], v);
        if !answered { return delivered, failed, true; }
        delivered, failed := if ok then delivered + 1 else delivered, if ok then failed else failed + 1;
        k := k + 1;
      }
      err := false;
    }

    /** One pass of the worker: claim, dispatch each effect, answer each claim. */
    method RunOnce(claimLimit: nat, v: Env) returns (result: RunResult, err: bool, ghost claimed: seq<nat>)
      requires v.limit > 0 && AttemptsOk(Rows(), v.limit)
      modifies this
      ensures result.claimed == |claimed| && Increasing(claimed)
      ensures forall k :: 0 <= k < |claimed| ==> claimed[k] < |old(effects)| && Eligible(old(effects)[claimed[k]], v.now)
      ensures Pass(Rows(), result.delivered, result.failed, err)
        == PassOf(old(Rows()).(effects := ClaimRows(old(effects), claimed)), claimed, 0, 0, v)
      ensures PassEnds(old(effects), claimed, Pass(Rows(), result.delivered, result.failed, err), v.limit)
    {
      ghost var before := Rows();
      var ids := ClaimPlannedSideEffects(claimLimit, v.now);
      claimed := ids;
      PassSettles(before, ids, v);
      assert forall j :: 0 <= j < |ids| ==> ids[j] in ids;
      var delivered, failed;
      delivered, failed, err := AnswerBatch(ids, v);
      result := RunResult(|ids|, delivered, failed);
    }
  }
}
