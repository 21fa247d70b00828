/** Any number of workers over the outbox tables, one transaction at a time.

    A worker runs RunOnce: it claims effects, and for each of them prepares the webhook
    attempts, sends and marks them one by one, and answers the claim. Every label of `Step`
    is one transaction (or one local step) of one worker, or a transaction of the rest of
    the backend; an execution interleaves them in any order. A worker may stop anywhere
    and is then never heard of again. */
module WebhookWorkers {
  import opened Lib
  import opened WebhookTables

  datatype Phase = Ready | Sending(queue: seq<nat>, failed: bool) | Answering(ok: bool) | Stopped

  /** `held` are the claimed effects not yet answered; the first is the current one. */
  datatype Worker = Worker(held: seq<nat>, phase: Phase)

  datatype World = World(now: int, tables: Tables, workers: map<nat, Worker>)

  datatype Label =
    | Tick(seconds: nat)
    | PlanEffects(plans: seq<PlannedEffect>)
    | Subscribe(url: string, trigger: Trigger, keyRef: string, active: bool)
    | Claim(w: nat, ids: seq<nat>, at: int)
    | PrepareWebhook(w: nat, envelope: Option<string>, secrets: set<string>)
    | DispatchOther(w: nat, ok: bool)
    | DispatchError(w: nat)
    | Sent(w: nat, attempt: nat, accepted: bool)
    | Finish(w: nat, e: nat, failed: bool)
    | Answer(w: nat, e: nat, ok: bool, at: int)
    | Stop(w: nat)

  function Of(workers: map<nat, Worker>, w: nat): Worker {
    if w in workers then workers[w] else Worker([], Ready)
  }

  const START := World(0, EMPTY, map[])

  function WithWorker(s: World, w: nat, wk: Worker): World {
    s.(workers := s.workers[w := wk])
  }

  /** `for update skip locked` lets a claim take any eligible rows that nobody else takes. */
  predicate Claimable(s: World, ids: seq<nat>) {
    && (forall i :: 0 <= i < |ids| ==> ids[i] < |s.tables.effects| && Eligible(s.tables.effects[ids[i]], s.now))
    && (forall i, j :: 0 <= i < j < |ids| ==> ids[i] != ids[j])
  }

  /** One step of one worker; none when the label does not fit the state. */
  function WorkerStep(limit: nat, s: World, l: Label, w: nat): Option<World> {
    var wk := Of(s.workers, w);
    var t := s.tables;
    match l
    case Claim(_, ids, at) =>
      if wk == Worker([], Ready) && at == s.now && Claimable(s, ids)
      then Some(WithWorker(s.(tables := t.(effects := ClaimRows(t.effects, ids))), w, wk.(held := ids)))
      else None
    case PrepareWebhook(_, envelope, secrets) =>
      if wk.phase == Ready && wk.held != [] && wk.held[0] < |t.effects| && TriggerFor(t.effects[wk.held[0]].plan.name).Some?
      then
        match Prepare(t, wk.held[0], TriggerFor(t.effects[wk.held[0]].plan.name).value, envelope, secrets)
        case None => Some(WithWorker(s, w, wk.(phase := Answering(false))))
        case Some(t') => Some(WithWorker(s.(tables := t'), w, wk.(phase := Sending(PendingOf(t'.attempts, wk.held[0]), false))))
      else None
    case DispatchOther(_, ok) =>
      if wk.phase == Ready && wk.held != [] && wk.held[0] < |t.effects| && TriggerFor(t.effects[wk.held[0]].plan.name).None?
      then Some(WithWorker(s, w, wk.(phase := Answering(ok))))
      else None
    case DispatchError(_) =>
      if wk.held != [] && (wk.phase == Ready || wk.phase.Sending?)
      then Some(WithWorker(s, w, wk.(phase := Answering(false))))
      else None
    case Sent(_, a, accepted) =>
      if wk.phase.Sending? && wk.phase.queue != [] && wk.phase.queue[0] == a then
        if !CanMark(t, a) then Some(WithWorker(s, w, wk.(phase := Answering(false))))
        else if accepted then
          Some(WithWorker(s.(tables := MarkDelivered(t, a)), w, wk.(phase := Sending(wk.phase.queue[1..], wk.phase.failed))))
        else
          var t' := MarkFailed(t, a, limit);
          Some(WithWorker(s.(tables := t'), w,
            wk.(phase := Sending(wk.phase.queue[1..], wk.phase.failed || !t'.attempts[a].deadLettered))))
      else None
    case Finish(_, e, failed) =>
      if wk.phase == Sending([], failed) && wk.held != [] && wk.held[0] == e
      then Some(WithWorker(s, w, wk.(phase := Answering(!failed))))
      else None
    case Answer(_, e, ok, at) =>
      if wk.phase == Answering(ok) && wk.held != [] && wk.held[0] == e && at == s.now then
        match (if ok then AnswerDelivered(t.effects, e) else AnswerFailed(t.effects, e, s.now))
        case None => Some(WithWorker(s, w, wk.(phase := Stopped)))
        case Some(effects) => Some(WithWorker(s.(tables := t.(effects := effects)), w, Worker(wk.held[1..], Ready)))
      else None
    case Stop(_) => Some(WithWorker(s, w, wk.(phase := Stopped)))
    case _ => None
  }

  function Step(limit: nat, s: World, l: Label): Option<World> {
    match l
    case Tick(d) => Some(s.(now := s.now + d))
    case PlanEffects(plans) =>
      (match SavePlanned(s.tables.effects, plans, s.now)
       case None => Some(s)
       case Some(effects) => Some(s.(tables := s.tables.(effects := effects))))
    case Subscribe(url, trigger, keyRef, active) =>
      Some(s.(tables := s.tables.(subs := SaveSubscription(s.tables.subs, url, trigger, keyRef, active))))
    case _ => WorkerStep(limit, s, l, l.w)
  }

  /** The world after a trace, if the trace can happen. */
  function Exec(limit: nat, trace: seq<Label>): Option<World> {
    if trace == [] then Some(START)
    else
      match Exec(limit, trace[..|trace| - 1])
      case None => None
      case Some(s) => Step(limit, s, trace[|trace| - 1])
  }

  // ---------- what every step keeps ----------

  ghost predicate AttemptOk(limit: nat, t: Tables, a: Attempt) {
    && a.effectId < |t.effects|
    && a.effectId in t.deliveries
    && a.body == t.deliveries[a.effectId].body
    && a.subscriberId < |t.subs|
    && t.subs[a.subscriberId].trigger == t.deliveries[a.effectId].trigger
    && a.count <= limit
    && (a.Pending() ==> a.count < limit)
    && !(a.delivered && a.deadLettered)
    && (a.delivered ==> a.count > 0)
    && (a.deadLettered ==> a.count == limit && t.subs[a.subscriberId].disabled)
  }

  ghost predicate TablesOk(limit: nat, t: Tables) {
    && (forall i :: 0 <= i < |t.attempts| ==> AttemptOk(limit, t, t.attempts[i]))
    && (forall i, j :: 0 <= i < j < |t.attempts| && t.attempts[i].effectId == t.attempts[j].effectId ==>
          t.attempts[i].subscriberId != t.attempts[j].subscriberId)
    && (forall s :: 0 <= s < |t.subs| && t.subs[s].disabled ==> !t.subs[s].active)
    && (forall e :: e in t.deliveries ==> e < |t.effects| && TriggerFor(t.effects[e].plan.name) == Some(t.deliveries[e].trigger))
    && (forall e :: 0 <= e < |t.effects| && t.effects[e].status == EffectStatus.Delivered ==> !HasPending(t.attempts, e))
  }

  predicate Holds(workers: map<nat, Worker>, w: nat, i: nat) { w in workers && i < |workers[w].held| }

  function Held(workers: map<nat, Worker>, w: nat, i: nat): nat
    requires Holds(workers, w, i)
  {
    workers[w].held[i]
  }

  /** Claims are disjoint, and an effect is `processing` exactly while one claim on it is unanswered. */
  ghost predicate ClaimsOk(effects: seq<Effect>, workers: map<nat, Worker>) {
    && (forall w: nat, i: nat :: Holds(workers, w, i) ==>
          Held(workers, w, i) < |effects| && effects[Held(workers, w, i)].status == Processing)
    && (forall w: nat, i: nat, v: nat, j: nat ::
          Holds(workers, w, i) && Holds(workers, v, j) && Held(workers, w, i) == Held(workers, v, j) ==> w == v && i == j)
    && (forall e :: 0 <= e < |effects| && effects[e].status == Processing ==>
          exists w: nat, i: nat :: Holds(workers, w, i) && Held(workers, w, i) == e)
  }

  /** What a worker in the middle of a Dispatch knows about the attempts of its effect. */
  ghost predicate PhaseOk(t: Tables, wk: Worker) {
    match wk.phase
    case Ready => true
    case Stopped => true
    case Answering(ok) => wk.held != [] && (ok ==> !HasPending(t.attempts, wk.held[0]))
    case Sending(queue, failed) =>
      && wk.held != []
      && Increasing(queue)
      && (forall k :: 0 <= k < |queue| ==> queue[k] < |t.attempts| && IsPendingOf(t.attempts[queue[k]], wk.held[0]))
      && (failed <==> exists a: nat :: a < |t.attempts| && IsPendingOf(t.attempts[a], wk.held[0]) && a !in queue)
  }

  ghost predicate Inv(limit: nat, s: World) {
    && TablesOk(limit, s.tables)
    && ClaimsOk(s.tables.effects, s.workers)
    && (forall w :: w in s.workers ==> PhaseOk(s.tables, s.workers[w]))
  }

  // ---------- one transaction at a time ----------

  lemma MarkKeepsTables(limit: nat, t: Tables, a: nat, accepted: bool)
    requires TablesOk(limit, t) && CanMark(t, a)
    ensures TablesOk(limit, if accepted then MarkDelivered(t, a) else MarkFailed(t, a, limit))
  {
    var t' := if accepted then MarkDelivered(t, a) else MarkFailed(t, a, limit);
    assert AttemptOk(limit, t, t.attempts[a]);
    forall i | 0 <= i < |t'.attempts| ensures AttemptOk(limit, t', t'.attempts[i]) {
      assert AttemptOk(limit, t, t.attempts[i]);
    }
    forall e | HasPending(t'.attempts, e) ensures HasPending(t.attempts, e) {
      var i :| 0 <= i < |t'.attempts| && IsPendingOf(t'.attempts[i], e);
      assert IsPendingOf(t.attempts[i], e);
    }
  }

  /** Freezing an envelope where there is none disturbs nothing. */
  lemma FreezeKeepsTables(limit: nat, t: Tables, e: nat, d: Delivery)
    requires TablesOk(limit, t) && e < |t.effects|
    requires TriggerFor(t.effects[e].plan.name) == Some(d.trigger)
    requires e in t.deliveries ==> d == t.deliveries[e]
    ensures TablesOk(limit, t.(deliveries := t.deliveries[e := d]))
  {
    var t' := t.(deliveries := t.deliveries[e := d]);
    forall i | 0 <= i < |t'.attempts| ensures AttemptOk(limit, t', t'.attempts[i]) {
      assert AttemptOk(limit, t, t.attempts[i]);
    }
  }

  /** The attempts recorded for an envelope: one per subscriber, unsent, with its body. */
  ghost predicate Recordable(t: Tables, e: nat, added: seq<Attempt>) {
    && e < |t.effects| && t.effects[e].status == Processing && e in t.deliveries && !HasAttempts(t.attempts, e)
    && (forall k :: 0 <= k < |added| ==>
      && added[k].subscriberId < |t.subs| && t.subs[added[k].subscriberId].trigger == t.deliveries[e].trigger
      && added[k] == Attempt(e, added[k].subscriberId, t.deliveries[e].body, 0, false, false))
    && forall i, j :: 0 <= i < j < |added| ==> added[i].subscriberId < added[j].subscriberId
  }

  lemma RecordedAttemptsOk(limit: nat, t: Tables, e: nat, added: seq<Attempt>)
    requires limit > 0 && TablesOk(limit, t) && Recordable(t, e, added)
    ensures var t' := t.(attempts := t.attempts + added); forall i :: 0 <= i < |t'.attempts| ==> AttemptOk(limit, t', t'.attempts[i])
  {
    var t' := t.(attempts := t.attempts + added);
    var n := |t.attempts|;
    forall i | 0 <= i < |t'.attempts| ensures AttemptOk(limit, t', t'.attempts[i]) {
      if i < n { assert AttemptOk(limit, t, t.attempts[i]); } else { assert t'.attempts[i] == added[i - n]; }
    }
  }

  lemma RecordedSubscribersDiffer(limit: nat, t: Tables, e: nat, added: seq<Attempt>)
    requires TablesOk(limit, t) && Recordable(t, e, added)
    ensures var all := t.attempts + added;
      forall i, j :: 0 <= i < j < |all| && all[i].effectId == all[j].effectId ==> all[i].subscriberId != all[j].subscriberId
  {
    var all, n := t.attempts + added, |t.attempts|;
    forall i, j | 0 <= i < j < |all| && all[i].effectId == all[j].effectId ensures all[i].subscriberId != all[j].subscriberId {
      if j >= n {
        assert all[j] == added[j - n];
        if i >= n { assert all[i] == added[i - n]; }
      }
    }
  }

  lemma RecordKeepsTables(limit: nat, t: Tables, e: nat, added: seq<Attempt>)
    requires limit > 0 && TablesOk(limit, t) && Recordable(t, e, added)
    ensures TablesOk(limit, t.(attempts := t.attempts + added))
  {
    RecordedAttemptsOk(limit, t, e, added);
    RecordedSubscribersDiffer(limit, t, e, added);
    var all := t.attempts + added;
    forall x | HasPending(all, x) && x != e ensures HasPending(t.attempts, x) {
      var i :| 0 <= i < |all| && IsPendingOf(all[i], x);
      assert IsPendingOf(t.attempts[i], x);
    }
  }

  lemma PrepareKeepsTables(limit: nat, t: Tables, e: nat, trigger: Trigger, envelope: Option<string>, secrets: set<string>)
    requires limit > 0 && TablesOk(limit, t)
    requires e < |t.effects| && t.effects[e].status == Processing && TriggerFor(t.effects[e].plan.name) == Some(trigger)
    requires Prepare(t, e, trigger, envelope, secrets).Some?
    ensures TablesOk(limit, Prepare(t, e, trigger, envelope, secrets).value)
  {
    var d := if e in t.deliveries then t.deliveries[e] else Delivery(trigger, envelope.value);
    FreezeKeepsTables(limit, t, e, d);
    var frozen := t.(deliveries := t.deliveries[e := d]);
    if !HasAttempts(t.attempts, e) {
      RecordKeepsTables(limit, frozen, e, AttemptsFor(t.subs, |t.subs|, e, d));
    }
  }

  /** Nothing changed about which attempts of `e` are pending. */
  ghost predicate SamePending(t: Tables, t': Tables, e: nat) {
    && |t.attempts| <= |t'.attempts|
    && (forall i :: 0 <= i < |t.attempts| ==> (IsPendingOf(t.attempts[i], e) <==> IsPendingOf(t'.attempts[i], e)))
    && (forall i :: |t.attempts| <= i < |t'.attempts| ==> !IsPendingOf(t'.attempts[i], e))
  }

  lemma PhaseFrame(t: Tables, t': Tables, wk: Worker)
    requires PhaseOk(t, wk)
    requires wk.held != [] ==> SamePending(t, t', wk.held[0])
    ensures PhaseOk(t', wk)
  {
    if wk.phase.Sending? {
      var queue := wk.phase.queue;
      if a: nat :| a < |t.attempts| && IsPendingOf(t.attempts[a], wk.held[0]) && a !in queue {
        assert IsPendingOf(t'.attempts[a], wk.held[0]);
      }
      if a: nat :| a < |t'.attempts| && IsPendingOf(t'.attempts[a], wk.held[0]) && a !in queue {
        assert a < |t.attempts| && IsPendingOf(t.attempts[a], wk.held[0]);
      }
    } else if wk.phase.Answering? && HasPending(t'.attempts, wk.held[0]) {
      var i :| 0 <= i < |t'.attempts| && IsPendingOf(t'.attempts[i], wk.held[0]);
      assert IsPendingOf(t.attempts[i], wk.held[0]);
    }
  }

  /** A claim of eligible rows stays disjoint from every other claim. */
  lemma ClaimKeepsClaims(s: World, w: nat, ids: seq<nat>)
    requires ClaimsOk(s.tables.effects, s.workers)
    requires Of(s.workers, w) == Worker([], Ready) && Claimable(s, ids)
    ensures ClaimsOk(ClaimRows(s.tables.effects, ids), s.workers[w := Worker(ids, Ready)])
  {
    var old_ := s.workers;
    var new_ := s.workers[w := Worker(ids, Ready)];
    var rows := ClaimRows(s.tables.effects, ids);
    forall v: nat, i: nat | Holds(new_, v, i)
      ensures Held(new_, v, i) < |rows| && rows[Held(new_, v, i)].status == Processing
      ensures v != w ==> Holds(old_, v, i) && Held(old_, v, i) == Held(new_, v, i) && Held(new_, v, i) !in ids
    {
      if v != w { assert Holds(old_, v, i); }
    }
    forall e | 0 <= e < |rows| && rows[e].status == Processing
      ensures exists v: nat, i: nat :: Holds(new_, v, i) && Held(new_, v, i) == e
    {
      if e in ids {
        var i :| 0 <= i < |ids| && ids[i] == e;
        assert Holds(new_, w, i) && Held(new_, w, i) == e;
      } else {
        var v: nat, i: nat :| Holds(old_, v, i) && Held(old_, v, i) == e;
        assert v != w;
        assert Holds(new_, v, i) && Held(new_, v, i) == e;
      }
    }
  }

  /** Answering the current effect releases exactly that claim. */
  lemma AnswerKeepsClaims(effects: seq<Effect>, effects': seq<Effect>, workers: map<nat, Worker>, w: nat)
    requires ClaimsOk(effects, workers)
    requires w in workers && workers[w].held != []
    requires |effects'| == |effects|
    requires forall e :: 0 <= e < |effects| && e != workers[w].held[0] ==> effects'[e] == effects[e]
    requires workers[w].held[0] < |effects'| && effects'[workers[w].held[0]].status != Processing
    ensures ClaimsOk(effects', workers[w := Worker(workers[w].held[1..], Ready)])
  {
    var new_ := workers[w := Worker(workers[w].held[1..], Ready)];
    assert Holds(workers, w, 0);
    forall v: nat, i: nat | Holds(new_, v, i)
      ensures Holds(workers, v, if v == w then i + 1 else i)
      ensures Held(new_, v, i) == Held(workers, v, if v == w then i + 1 else i) != workers[w].held[0]
    {
      assert Holds(workers, v, if v == w then i + 1 else i);
      assert Held(workers, w, 0) == workers[w].held[0];
    }
    forall e | 0 <= e < |effects'| && effects'[e].status == Processing
      ensures exists v: nat, i: nat :: Holds(new_, v, i) && Held(new_, v, i) == e
    {
      var v: nat, i: nat :| Holds(workers, v, i) && Held(workers, v, i) == e;
      if v == w {
        assert i > 0;
        assert Holds(new_, w, i - 1) && Held(new_, w, i - 1) == e;
      } else {
        assert Holds(new_, v, i) && Held(new_, v, i) == e;
      }
    }
  }

  /** Renaming a worker's phase leaves the claims alone. */
  lemma PhaseKeepsClaims(effects: seq<Effect>, workers: map<nat, Worker>, w: nat, phase: Phase)
    requires ClaimsOk(effects, workers)
    ensures ClaimsOk(effects, workers[w := Of(workers, w).(phase := phase)])
  {
    var new_ := workers[w := Of(workers, w).(phase := phase)];
    forall v: nat, i: nat | Holds(new_, v, i)
      ensures Holds(workers, v, i) && Held(workers, v, i) == Held(new_, v, i)
    {
    }
    forall e | 0 <= e < |effects| && effects[e].status == Processing
      ensures exists v: nat, i: nat :: Holds(new_, v, i) && Held(new_, v, i) == e
    {
      var v: nat, i: nat :| Holds(workers, v, i) && Held(workers, v, i) == e;
      assert Holds(new_, v, i) && Held(new_, v, i) == e;
    }
  }

  lemma {:induction false} SavePlannedAppends(effects: seq<Effect>, plans: seq<PlannedEffect>, now: int)
    requires SavePlanned(effects, plans, now).Some?
    ensures var r := SavePlanned(effects, plans, now).value;
      && effects <= r
      && forall i :: |effects| <= i < |r| ==> r[i] == Effect(r[i].plan, Planned, 0, now) && ValidPlan(r[i].plan) && r[i].plan in plans
    decreases |plans|
  {
    if plans != [] {
      SavePlannedAppends(SaveOnePlanned(effects, plans[0], now), plans[1..], now);
      assert plans == [plans[0]] + plans[1..];
    }
  }

  lemma PlanKeeps(limit: nat, s: World, plans: seq<PlannedEffect>)
    requires Inv(limit, s)
    ensures Inv(limit, Step(limit, s, PlanEffects(plans)).value)
  {
    if SavePlanned(s.tables.effects, plans, s.now).Some? {
      SavePlannedAppends(s.tables.effects, plans, s.now);
      var t := s.tables;
      var t' := t.(effects := SavePlanned(t.effects, plans, s.now).value);
      forall i | 0 <= i < |t'.attempts| ensures AttemptOk(limit, t', t'.attempts[i]) {
        assert AttemptOk(limit, t, t.attempts[i]);
      }
      forall w | w in s.workers ensures PhaseOk(t', s.workers[w]) {
        PhaseFrame(t, t', s.workers[w]);
      }
    }
  }

  lemma SubscribeKeeps(limit: nat, s: World, url: string, trigger: Trigger, keyRef: string, active: bool)
    requires Inv(limit, s)
    ensures Inv(limit, Step(limit, s, Subscribe(url, trigger, keyRef, active)).value)
  {
    var t := s.tables;
    var t' := t.(subs := SaveSubscription(t.subs, url, trigger, keyRef, active));
    forall i | 0 <= i < |t'.attempts| ensures AttemptOk(limit, t', t'.attempts[i]) {
      assert AttemptOk(limit, t, t.attempts[i]);
    }
    forall w | w in s.workers ensures PhaseOk(t', s.workers[w]) {
      PhaseFrame(t, t', s.workers[w]);
    }
  }

  lemma ClaimKeeps(limit: nat, s: World, w: nat, ids: seq<nat>)
    requires Inv(limit, s) && Of(s.workers, w) == Worker([], Ready) && Claimable(s, ids)
    ensures Inv(limit, WorkerStep(limit, s, Claim(w, ids, s.now), w).value)
  {
    ClaimKeepsClaims(s, w, ids);
    var t := s.tables;
    var t' := t.(effects := ClaimRows(t.effects, ids));
    forall i | 0 <= i < |t'.attempts| ensures AttemptOk(limit, t', t'.attempts[i]) {
      assert AttemptOk(limit, t, t.attempts[i]);
    }
    forall v | v in s.workers ensures PhaseOk(t', s.workers[v]) {
      PhaseFrame(t, t', s.workers[v]);
    }
  }

  /** Two workers never work on the same effect. */
  lemma HeadsDiffer(effects: seq<Effect>, workers: map<nat, Worker>, v: nat, w: nat)
    requires ClaimsOk(effects, workers) && v in workers && w in workers && v != w
    requires workers[v].held != [] && workers[w].held != []
    ensures workers[v].held[0] != workers[w].held[0]
  {
    assert Holds(workers, v, 0) && Held(workers, v, 0) == workers[v].held[0];
    assert Holds(workers, w, 0) && Held(workers, w, 0) == workers[w].held[0];
  }

  /** A transaction on behalf of one worker's current effect keeps what the others know. */
  lemma OthersKeepPhases(limit: nat, s: World, t': Tables, w: nat)
    requires Inv(limit, s) && w in s.workers && s.workers[w].held != []
    requires forall e :: e != s.workers[w].held[0] ==> SamePending(s.tables, t', e)
    ensures forall v :: v in s.workers && v != w ==> PhaseOk(t', s.workers[v])
  {
    forall v | v in s.workers && v != w ensures PhaseOk(t', s.workers[v]) {
      var wk := s.workers[v];
      if wk.held != [] { HeadsDiffer(s.tables.effects, s.workers, v, w); }
      PhaseFrame(s.tables, t', wk);
    }
  }

  /** Preparation only touches the attempts of its own effect. */
  lemma PrepareFrame(t: Tables, e: nat, trigger: Trigger, envelope: Option<string>, secrets: set<string>)
    requires Prepare(t, e, trigger, envelope, secrets).Some?
    ensures var t' := Prepare(t, e, trigger, envelope, secrets).value;
      && t'.effects == t.effects && t'.subs == t.subs
      && (forall x :: x != e ==> SamePending(t, t', x))
  {
    var t' := Prepare(t, e, trigger, envelope, secrets).value;
    assert forall i :: 0 <= i < |t.attempts| ==> t'.attempts[i] == t.attempts[i];
    assert forall i :: |t.attempts| <= i < |t'.attempts| ==> t'.attempts[i].effectId == e;
  }

  /** The queue a Dispatch starts with is every pending attempt of its effect. */
  lemma FreshQueueOk(t: Tables, wk: Worker)
    requires wk.held != [] && wk.phase == Sending(PendingOf(t.attempts, wk.held[0]), false)
    ensures PhaseOk(t, wk)
  {
    var queue := wk.phase.queue;
    assert forall k :: 0 <= k < |queue| ==> queue[k] in queue;
  }

  lemma PrepareKeeps(limit: nat, s: World, w: nat, envelope: Option<string>, secrets: set<string>)
    requires limit > 0 && Inv(limit, s)
    requires WorkerStep(limit, s, PrepareWebhook(w, envelope, secrets), w).Some?
    ensures Inv(limit, WorkerStep(limit, s, PrepareWebhook(w, envelope, secrets), w).value)
  {
    var wk := Of(s.workers, w);
    var t := s.tables;
    var e := wk.held[0];
    var trigger := TriggerFor(t.effects[e].plan.name).value;
    assert Holds(s.workers, w, 0) && Held(s.workers, w, 0) == e;
    var p := Prepare(t, e, trigger, envelope, secrets);
    if p.None? {
      PhaseKeepsClaims(t.effects, s.workers, w, Answering(false));
    } else {
      PrepareKeepsTables(limit, t, e, trigger, envelope, secrets);
      PrepareFrame(t, e, trigger, envelope, secrets);
      PrepareKeepsWorld(limit, s, w, p.value);
    }
  }

  lemma PrepareKeepsWorld(limit: nat, s: World, w: nat, t': Tables)
    requires Inv(limit, s) && w in s.workers && s.workers[w].held != []
    requires TablesOk(limit, t') && t'.effects == s.tables.effects
    requires forall x :: x != s.workers[w].held[0] ==> SamePending(s.tables, t', x)
    ensures Inv(limit, WithWorker(s.(tables := t'), w,
      s.workers[w].(phase := Sending(PendingOf(t'.attempts, s.workers[w].held[0]), false))))
  {
    var phase := Sending(PendingOf(t'.attempts, s.workers[w].held[0]), false);
    PhaseKeepsClaims(t'.effects, s.workers, w, phase);
    OthersKeepPhases(limit, s, t', w);
    FreshQueueOk(t', s.workers[w].(phase := phase));
  }

  lemma SentKeeps(limit: nat, s: World, w: nat, a: nat, accepted: bool)
    requires limit > 0 && Inv(limit, s)
    requires WorkerStep(limit, s, Sent(w, a, accepted), w).Some?
    ensures CanMark(s.tables, a)
    ensures Inv(limit, WorkerStep(limit, s, Sent(w, a, accepted), w).value)
  {
    var wk := Of(s.workers, w);
    var t := s.tables;
    var e := wk.held[0];
    var queue := wk.phase.queue;
    assert PhaseOk(t, wk);
    assert queue[0] == a && IsPendingOf(t.attempts[a], e);
    assert AttemptOk(limit, t, t.attempts[a]);
    var t' := if accepted then MarkDelivered(t, a) else MarkFailed(t, a, limit);
    MarkKeepsTables(limit, t, a, accepted);
    var s' := WorkerStep(limit, s, Sent(w, a, accepted), w).value;
    PhaseKeepsClaims(t.effects, s.workers, w, s'.workers[w].phase);
    OthersKeepPhases(limit, s, t', w);
    SentKeepsPhase(t, t', wk, s'.workers[w], a);
  }

  lemma SentKeepsPhase(t: Tables, t': Tables, wk: Worker, wk': Worker, a: nat)
    requires PhaseOk(t, wk) && wk.phase.Sending? && wk.phase.queue != [] && wk.phase.queue[0] == a
    requires a < |t.attempts| && |t'.attempts| == |t.attempts|
    requires forall i :: 0 <= i < |t.attempts| && i != a ==> t'.attempts[i] == t.attempts[i]
    requires t'.attempts[a].effectId == wk.held[0]
    requires wk' == wk.(phase := Sending(wk.phase.queue[1..], wk.phase.failed || t'.attempts[a].Pending()))
    ensures PhaseOk(t', wk')
  {
    var queue, rest := wk.phase.queue, wk'.phase.queue;
    assert forall k :: 0 <= k < |rest| ==> rest[k] == queue[k + 1] && rest[k] > a;
    assert forall x :: x in queue <==> x == a || x in rest;
    if wk'.phase.failed {
      if t'.attempts[a].Pending() {
        assert IsPendingOf(t'.attempts[a], wk.held[0]) && a !in rest;
      } else {
        var x: nat :| x < |t.attempts| && IsPendingOf(t.attempts[x], wk.held[0]) && x !in queue;
        assert IsPendingOf(t'.attempts[x], wk.held[0]) && x !in rest;
      }
    }
    if x: nat :| x < |t'.attempts| && IsPendingOf(t'.attempts[x], wk.held[0]) && x !in rest {
      if x != a { assert IsPendingOf(t.attempts[x], wk.held[0]) && x !in queue; }
    }
  }

  lemma AnswerKeeps(limit: nat, s: World, w: nat, e: nat, ok: bool)
    requires Inv(limit, s)
    requires WorkerStep(limit, s, Answer(w, e, ok, s.now), w).Some?
    ensures e < |s.tables.effects| && s.tables.effects[e].status == Processing
    ensures Inv(limit, WorkerStep(limit, s, Answer(w, e, ok, s.now), w).value)
  {
    var wk := Of(s.workers, w);
    var t := s.tables;
    assert Holds(s.workers, w, 0) && Held(s.workers, w, 0) == e;
    assert PhaseOk(t, wk);
    var effects' := (if ok then AnswerDelivered(t.effects, e) else AnswerFailed(t.effects, e, s.now)).value;
    AnswerKeepsClaims(t.effects, effects', s.workers, w);
    var t' := t.(effects := effects');
    forall i | 0 <= i < |t'.attempts| ensures AttemptOk(limit, t', t'.attempts[i]) {
      assert AttemptOk(limit, t, t.attempts[i]);
    }
    OthersKeepPhases(limit, s, t', w);
  }

  lemma LocalKeeps(limit: nat, s: World, w: nat, phase: Phase)
    requires Inv(limit, s)
    requires phase == Stopped || (Of(s.workers, w).held != [] && phase.Answering?)
    requires phase == Answering(true) ==> !HasPending(s.tables.attempts, Of(s.workers, w).held[0])
    ensures Inv(limit, WithWorker(s, w, Of(s.workers, w).(phase := phase)))
  {
    PhaseKeepsClaims(s.tables.effects, s.workers, w, phase);
  }

  lemma FinishMeansSettled(t: Tables, wk: Worker)
    requires PhaseOk(t, wk) && wk.phase.Sending? && wk.phase.queue == []
    ensures wk.phase.failed <==> HasPending(t.attempts, wk.held[0])
  {
    if HasPending(t.attempts, wk.held[0]) {
      var i :| 0 <= i < |t.attempts| && IsPendingOf(t.attempts[i], wk.held[0]);
      assert i !in wk.phase.queue;
    }
  }

  /** Every step of every worker, and every other transaction, keeps the invariant. */
  lemma StepKeeps(limit: nat, s: World, l: Label)
    requires limit > 0 && Inv(limit, s) && Step(limit, s, l).Some?
    ensures Inv(limit, Step(limit, s, l).value)
  {
    match l
    case Tick(d) =>
    case PlanEffects(plans) => PlanKeeps(limit, s, plans);
    case Subscribe(url, trigger, keyRef, active) => SubscribeKeeps(limit, s, url, trigger, keyRef, active);
    case Claim(w, ids, at) => ClaimKeeps(limit, s, w, ids);
    case PrepareWebhook(w, envelope, secrets) => PrepareKeeps(limit, s, w, envelope, secrets);
    case DispatchOther(w, ok) =>
      forall i | 0 <= i < |s.tables.attempts| ensures s.tables.attempts[i].effectId != s.workers[w].held[0] {
        assert AttemptOk(limit, s.tables, s.tables.attempts[i]);
      }
      LocalKeeps(limit, s, w, Answering(ok));
    case DispatchError(w) => LocalKeeps(limit, s, w, Answering(false));
    case Sent(w, a, accepted) => SentKeeps(limit, s, w, a, accepted);
    case Finish(w, e, failed) =>
      FinishMeansSettled(s.tables, s.workers[w]);
      LocalKeeps(limit, s, w, Answering(!failed));
    case Answer(w, e, ok, at) => AnswerKeeps(limit, s, w, e, ok);
    case Stop(w) => LocalKeeps(limit, s, w, Stopped);
  }
}
