/** The tables behind the side-effect outbox and the webhook dispatcher, and each
    transaction on them as one function from tables to tables.

    `id` columns are serial numbers and rows are never deleted, so a table with a serial
    key is the sequence of its rows and a row's id is its position. A delivery row is
    unique per side effect and is keyed by it. */
module WebhookTables {
  import opened Lib

  datatype Trigger = BookingCancelled | BookingRescheduled | BookingConfirmed | BookingRejected

  datatype EffectName =
    | CalendarCancelled | EmailCancelled | WebhookCancelled
    | CalendarRescheduled | EmailRescheduled | WebhookRescheduled
    | EmailConfirmed | WebhookConfirmed
    | EmailDeclined | WebhookDeclined

  /** The webhook trigger of a side effect; none for e-mail and calendar effects. */
  function TriggerFor(name: EffectName): Option<Trigger> {
    match name
    case WebhookCancelled => Some(BookingCancelled)
    case WebhookRescheduled => Some(BookingRescheduled)
    case WebhookConfirmed => Some(BookingConfirmed)
    case WebhookDeclined => Some(BookingRejected)
    case _ => None
  }

  datatype EffectStatus = Planned | Processing | Delivered | Failed

  datatype PlannedEffect = PlannedEffect(name: EffectName, bookingUid: string, requestId: string, payload: string)

  datatype Effect = Effect(plan: PlannedEffect, status: EffectStatus, attempts: nat, nextAttemptAt: int)

  /** The frozen envelope of a side effect; the body is the JSON value, not its spelling. */
  datatype Delivery = Delivery(trigger: Trigger, body: string)

  datatype Attempt = Attempt(effectId: nat, subscriberId: nat, body: string, count: nat, delivered: bool, deadLettered: bool)
  {
    predicate Pending() { !delivered && !deadLettered }
  }

  datatype Subscription = Subscription(url: string, trigger: Trigger, keyRef: string, active: bool, failureCount: nat, disabled: bool)

  datatype Tables = Tables(
    effects: seq<Effect>,
    deliveries: map<nat, Delivery>,
    attempts: seq<Attempt>,
    subs: seq<Subscription>)

  const EMPTY := Tables([], map[], [], [])

  // ---------- booking_planned_side_effects ----------

  predicate SamePlanKey(a: PlannedEffect, b: PlannedEffect) {
    a.bookingUid == b.bookingUid && a.name == b.name && a.requestId == b.requestId
  }

  predicate HasPlanKey(effects: seq<Effect>, p: PlannedEffect) {
    exists i :: 0 <= i < |effects| && SamePlanKey(effects[i].plan, p)
  }

  predicate ValidPlan(p: PlannedEffect) { p.bookingUid != "" && p.requestId != "" }

  /** Inserts one planned effect unless its key is already there. */
  function SaveOnePlanned(effects: seq<Effect>, p: PlannedEffect, now: int): seq<Effect> {
    if HasPlanKey(effects, p) then effects else effects + [Effect(p, Planned, 0, now)]
  }

  /** Inserts a batch; an invalid effect makes the whole transaction fail. */
  function SavePlanned(effects: seq<Effect>, plans: seq<PlannedEffect>, now: int): Option<seq<Effect>>
    decreases |plans|
  {
    if plans == [] then Some(effects)
    else if !ValidPlan(plans[0]) then None
    else SavePlanned(SaveOnePlanned(effects, plans[0], now), plans[1..], now)
  }

  predicate Eligible(e: Effect, now: int) {
    (e.status == Planned || e.status == Failed) && e.nextAttemptAt <= now
  }

  function Claimed(e: Effect): Effect { e.(status := Processing, attempts := e.attempts + 1) }

  /** The rows `ids` become `processing` and their attempt counters grow by one. */
  function ClaimRows(effects: seq<Effect>, ids: seq<nat>): (r: seq<Effect>)
    ensures |r| == |effects|
    ensures forall i :: 0 <= i < |r| ==> r[i] == if i in ids then Claimed(effects[i]) else effects[i]
  {
    seq(|effects|, i requires 0 <= i < |effects| => if i in ids then Claimed(effects[i]) else effects[i])
  }

  /** Seconds a failed effect waits before it may be claimed again. */
  function Backoff(attempts: nat): nat {
    Min(60, Max(attempts, 1) * 5)
  }

  function AnswerDelivered(effects: seq<Effect>, id: nat): Option<seq<Effect>> {
    if id < |effects| && effects[id].status == Processing
    then Some(effects[id := effects[id].(status := Delivered)])
    else None
  }

  function AnswerFailed(effects: seq<Effect>, id: nat, now: int): Option<seq<Effect>> {
    if id < |effects| && effects[id].status == Processing
    then Some(effects[id := effects[id].(status := Failed, nextAttemptAt := now + Backoff(effects[id].attempts))])
    else None
  }

  // ---------- booking_webhook_delivery_attempts ----------

  predicate IsPendingOf(a: Attempt, e: nat) { a.effectId == e && a.Pending() }

  predicate HasAttempts(attempts: seq<Attempt>, e: nat) {
    exists i :: 0 <= i < |attempts| && attempts[i].effectId == e
  }

  predicate HasPending(attempts: seq<Attempt>, e: nat) {
    exists i :: 0 <= i < |attempts| && IsPendingOf(attempts[i], e)
  }

  /** Ids below `n` of the pending attempts of effect `e`, in id order. */
  function PendingUpTo(attempts: seq<Attempt>, e: nat, n: nat): (r: seq<nat>)
    requires n <= |attempts|
    ensures forall k: nat :: k in r <==> k < n && IsPendingOf(attempts[k], e)
    ensures forall i :: 0 <= i < |r| ==> r[i] < n
    ensures Increasing(r)
  {
    if n == 0 then []
    else if IsPendingOf(attempts[n - 1], e) then PendingUpTo(attempts, e, n - 1) + [n - 1]
    else PendingUpTo(attempts, e, n - 1)
  }

  function PendingOf(attempts: seq<Attempt>, e: nat): seq<nat> {
    PendingUpTo(attempts, e, |attempts|)
  }

  predicate Subscribed(s: Subscription, trigger: Trigger) { s.active && s.trigger == trigger }

  /** Fresh attempts of effect `e` for the active subscribers below `n`, in id order. */
  function AttemptsFor(subs: seq<Subscription>, n: nat, e: nat, d: Delivery): (r: seq<Attempt>)
    requires n <= |subs|
    ensures forall k :: 0 <= k < |r| ==>
      && r[k].subscriberId < n && Subscribed(subs[r[k].subscriberId], d.trigger)
      && r[k] == Attempt(e, r[k].subscriberId, d.body, 0, false, false)
    ensures forall i, j :: 0 <= i < j < |r| ==> r[i].subscriberId < r[j].subscriberId
  {
    if n == 0 then []
    else if Subscribed(subs[n - 1], d.trigger) then AttemptsFor(subs, n - 1, e, d) + [Attempt(e, n - 1, d.body, 0, false, false)]
    else AttemptsFor(subs, n - 1, e, d)
  }

  /** No active subscriber of the trigger is left out. */
  lemma {:induction false} EverySubscriberGetsAnAttempt(subs: seq<Subscription>, n: nat, e: nat, d: Delivery, s: nat)
    requires s < n <= |subs| && Subscribed(subs[s], d.trigger)
    ensures Attempt(e, s, d.body, 0, false, false) in AttemptsFor(subs, n, e, d)
  {
    if s < n - 1 { EverySubscriberGetsAnAttempt(subs, n - 1, e, d, s); }
  }

  /** A row for this effect and subscriber: the key on which an insert does nothing. */
  predicate HasAttemptOf(attempts: seq<Attempt>, e: nat, subscriber: nat) {
    exists i :: 0 <= i < |attempts| && attempts[i].effectId == e && attempts[i].subscriberId == subscriber
  }

  /** Inserts each template unless its key is already there. */
  function RecordAll(attempts: seq<Attempt>, templates: seq<Attempt>): seq<Attempt>
    decreases |templates|
  {
    if templates == [] then attempts
    else
      var a := templates[0];
      RecordAll(if HasAttemptOf(attempts, a.effectId, a.subscriberId) then attempts else attempts + [a], templates[1..])
  }

  /** For an effect without attempts no template is ever skipped. */
  lemma {:induction false} RecordAllAppends(attempts: seq<Attempt>, templates: seq<Attempt>, e: nat)
    requires forall k :: 0 <= k < |templates| ==> templates[k].effectId == e
    requires forall i, j :: 0 <= i < j < |templates| ==> templates[i].subscriberId < templates[j].subscriberId
    requires forall i, k :: 0 <= i < |attempts| && 0 <= k < |templates| && attempts[i].effectId == e ==> attempts[i].subscriberId < templates[k].subscriberId
    ensures RecordAll(attempts, templates) == attempts + templates
    decreases |templates|
  {
    if templates != [] {
      RecordAllAppends(attempts + [templates[0]], templates[1..], e);
      assert attempts + [templates[0]] + templates[1..] == attempts + templates;
    }
  }

  /** Rows of effect `e` below `n`. */
  function AttemptCount(attempts: seq<Attempt>, e: nat, n: nat): nat
    requires n <= |attempts|
  {
    if n == 0 then 0 else AttemptCount(attempts, e, n - 1) + if attempts[n - 1].effectId == e then 1 else 0
  }

  /** Every active subscriber of the trigger has a signing secret. */
  predicate SecretsKnown(subs: seq<Subscription>, trigger: Trigger, secrets: set<string>) {
    forall s :: 0 <= s < |subs| && Subscribed(subs[s], trigger) ==> subs[s].keyRef in secrets
  }

  /** The preparation transaction of Dispatch for a webhook effect: freeze the envelope if
      the effect has none, record attempts if it has none. `envelope` is what the booking
      reader offers now; none when the booking cannot be read. */
  function Prepare(t: Tables, e: nat, trigger: Trigger, envelope: Option<string>, secrets: set<string>): Option<Tables> {
    if e !in t.deliveries && envelope.None? then None
    else
      var d := if e in t.deliveries then t.deliveries[e] else Delivery(trigger, envelope.value);
      if HasAttempts(t.attempts, e) then Some(t.(deliveries := t.deliveries[e := d]))
      else if !SecretsKnown(t.subs, d.trigger, secrets) then None
      else Some(t.(deliveries := t.deliveries[e := d], attempts := t.attempts + AttemptsFor(t.subs, |t.subs|, e, d)))
  }

  /** Once an effect has attempts a further preparation changes nothing, whatever the booking now
      offers and whoever has subscribed since. */
  lemma PreparingAgain(t: Tables, e: nat, trigger: Trigger, envelope: Option<string>, secrets: set<string>,
                       trigger': Trigger, envelope': Option<string>, secrets': set<string>, subs: seq<Subscription>)
    requires Prepare(t, e, trigger, envelope, secrets).Some? && HasAttempts(Prepare(t, e, trigger, envelope, secrets).value.attempts, e)
    ensures var t' := Prepare(t, e, trigger, envelope, secrets).value.(subs := subs); Prepare(t', e, trigger', envelope', secrets') == Some(t')
  {
    var t' := Prepare(t, e, trigger, envelope, secrets).value.(subs := subs);
    assert t'.deliveries[e := t'.deliveries[e]] == t'.deliveries;
  }

  predicate CanMark(t: Tables, a: nat) {
    a < |t.attempts| && t.attempts[a].Pending() && t.attempts[a].subscriberId < |t.subs|
  }

  function MarkDelivered(t: Tables, a: nat): Tables
    requires CanMark(t, a)
  {
    var row := t.attempts[a];
    var s := t.subs[row.subscriberId];
    t.(attempts := t.attempts[a := row.(count := row.count + 1, delivered := true)],
       subs := t.subs[row.subscriberId := s.(failureCount := 0)])
  }

  function MarkFailed(t: Tables, a: nat, limit: nat): Tables
    requires CanMark(t, a)
  {
    var row := t.attempts[a];
    var s := t.subs[row.subscriberId];
    var dead := row.count + 1 >= limit;
    t.(attempts := t.attempts[a := row.(count := row.count + 1, deadLettered := dead)],
       subs := t.subs[row.subscriberId :=
         if dead then s.(active := false, failureCount := s.failureCount + 1, disabled := true)
         else s.(failureCount := s.failureCount + 1)])
  }

  // ---------- booking_webhook_subscriptions ----------

  predicate SameSubscriptionKey(s: Subscription, url: string, trigger: Trigger, keyRef: string) {
    s.url == url && s.trigger == trigger && s.keyRef == keyRef
  }

  /** Position of the row with this key, or the length of the table. */
  function FindSubscription(subs: seq<Subscription>, url: string, trigger: Trigger, keyRef: string): (r: nat)
    ensures r <= |subs|
    ensures r < |subs| ==> SameSubscriptionKey(subs[r], url, trigger, keyRef)
    ensures forall i :: 0 <= i < r ==> !SameSubscriptionKey(subs[i], url, trigger, keyRef)
  {
    if subs == [] then 0
    else if SameSubscriptionKey(subs[0], url, trigger, keyRef) then 0
    else
      var r := FindSubscription(subs[1..], url, trigger, keyRef);
      assert forall i :: 1 <= i < r + 1 ==> subs[i] == subs[1..][i - 1];
      1 + r
  }

  /** Upsert by key; a disabled subscription keeps its `active` flag. */
  function SaveSubscription(subs: seq<Subscription>, url: string, trigger: Trigger, keyRef: string, active: bool): seq<Subscription> {
    var i := FindSubscription(subs, url, trigger, keyRef);
    if i == |subs| then subs + [Subscription(url, trigger, keyRef, active, 0, false)]
    else if subs[i].disabled then subs
    else subs[i := subs[i].(active := active)]
  }
}
