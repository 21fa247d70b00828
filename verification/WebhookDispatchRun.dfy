/** A pass that nobody interrupts is an execution of the worker protocol: the sequential loops of
    Dispatch and RunOnce and the interleaved steps compute the same tables, answers and counters. */
module WebhookDispatchRun {
  import opened Lib
  import opened WebhookTables
  import opened WebhookWorkers
  import opened WebhookGuarantees
  import opened WebhookPasses
  import D = WebhookDispatcher

  ghost predicate Links(limit: nat, states: seq<World>, labels: seq<Label>) {
    |states| == |labels| + 1 && forall i: nat :: i < |labels| ==> Step(limit, states[i], labels[i]) == Some(states[i + 1])
  }

  /** The labels can be taken one after another from `s`, and lead to `s'`. */
  ghost predicate Leads(limit: nat, s: World, labels: seq<Label>, s': World) {
    exists states :: Links(limit, states, labels) && states[0] == s && states[|labels|] == s'
  }

  lemma StepLeads(limit: nat, s: World, l: Label)
    requires Step(limit, s, l).Some?
    ensures Leads(limit, s, [l], Step(limit, s, l).value)
  {
    assert Links(limit, [s, Step(limit, s, l).value], [l]);
  }

  lemma LeadsOn(limit: nat, s: World, a: seq<Label>, mid: World, b: seq<Label>, s': World)
    requires Leads(limit, s, a, mid) && Leads(limit, mid, b, s')
    ensures Leads(limit, s, a + b, s')
  {
    var xs :| Links(limit, xs, a) && xs[0] == s && xs[|a|] == mid;
    var ys :| Links(limit, ys, b) && ys[0] == mid && ys[|b|] == s';
    var states := xs + ys[1..];
    forall i: nat | i < |a + b| ensures Step(limit, states[i], (a + b)[i]) == Some(states[i + 1]) {
      if i < |a| { assert Step(limit, xs[i], a[i]) == Some(xs[i + 1]); } else { assert Step(limit, ys[i - |a|], b[i - |a|]) == Some(ys[i - |a| + 1]); }
    }
    assert Links(limit, states, a + b);
  }

  lemma ExecNext(limit: nat, trace: seq<Label>, s: World, l: Label, s': World)
    requires Exec(limit, trace) == Some(s) && Step(limit, s, l) == Some(s')
    ensures Exec(limit, trace + [l]) == Some(s')
  {
    assert (trace + [l])[..|trace + [l]| - 1] == trace && (trace + [l])[|trace + [l]| - 1] == l;
  }

  lemma {:induction false} LinksExec(limit: nat, trace: seq<Label>, states: seq<World>, labels: seq<Label>, n: nat)
    requires Links(limit, states, labels) && Exec(limit, trace) == Some(states[0]) && n <= |labels|
    ensures Exec(limit, trace + labels[..n]) == Some(states[n])
  {
    if n == 0 {
      assert trace + labels[..0] == trace;
    } else {
      LinksExec(limit, trace, states, labels, n - 1);
      assert Step(limit, states[n - 1], labels[n - 1]) == Some(states[n - 1 + 1]);
      var before, l := trace + labels[..n - 1], labels[n - 1];
      ExecNext(limit, before, states[n - 1], l, states[n]);
      OneLonger(trace, labels, n - 1);
    }
  }

  lemma OneLonger(trace: seq<Label>, labels: seq<Label>, n: nat)
    requires n < |labels|
    ensures trace + labels[..n] + [labels[n]] == trace + labels[..n + 1]
  {
  }

  /** Steps that lead on from the end of an execution extend it. */
  lemma LeadsExec(limit: nat, trace: seq<Label>, s: World, labels: seq<Label>, s': World)
    requires Exec(limit, trace) == Some(s) && Leads(limit, s, labels, s')
    ensures Exec(limit, trace + labels) == Some(s')
  {
    var states :| Links(limit, states, labels) && states[0] == s && states[|labels|] == s';
    LinksExec(limit, trace, states, labels, |labels|);
    assert labels[..|labels|] == labels;
  }

  /** The steps of the send loop, ending with the one that yields the answer. */
  function SendLabels(w: nat, e: nat, t: Tables, queue: seq<nat>, failed: bool, limit: nat, transport: nat -> D.SendOutcome): seq<Label>
    decreases |queue|
  {
    if queue == [] then [Finish(w, e, failed)]
    else if transport(queue[0]) == D.MarkLost || !CanMark(t, queue[0]) then [DispatchError(w)]
    else
      var t' := D.MarkSent(t, queue[0], limit, transport(queue[0]));
      [Sent(w, queue[0], transport(queue[0]) == D.Accepted)]
        + SendLabels(w, e, t', queue[1..], failed || t'.attempts[queue[0]].Pending(), limit, transport)
  }

  lemma SendStep(limit: nat, s: World, w: nat, queue: seq<nat>, failed: bool, outcome: D.SendOutcome)
    requires w in s.workers && s.workers[w].held != [] && s.workers[w].phase == Sending(queue, failed) && queue != []
    requires CanMark(s.tables, queue[0]) && outcome != D.MarkLost
    ensures var t' := D.MarkSent(s.tables, queue[0], limit, outcome);
      Leads(limit, s, [Sent(w, queue[0], outcome == D.Accepted)],
            WithWorker(s.(tables := t'), w, s.workers[w].(phase := Sending(queue[1..], failed || t'.attempts[queue[0]].Pending()))))
  {
    StepLeads(limit, s, Sent(w, queue[0], outcome == D.Accepted));
  }

  lemma {:induction false} SendLoopIsARun(limit: nat, s: World, w: nat, queue: seq<nat>, failed: bool, transport: nat -> D.SendOutcome)
    requires w in s.workers && s.workers[w].held != [] && s.workers[w].phase == Sending(queue, failed)
    ensures var r := D.SendAll(s.tables, queue, failed, limit, transport);
      Leads(limit, s, SendLabels(w, s.workers[w].held[0], s.tables, queue, failed, limit, transport),
            WithWorker(s.(tables := r.tables), w, s.workers[w].(phase := Answering(r.ok))))
    decreases |queue|
  {
    var e := s.workers[w].held[0];
    if queue == [] {
      StepLeads(limit, s, Finish(w, e, failed));
    } else if transport(queue[0]) == D.MarkLost || !CanMark(s.tables, queue[0]) {
      StepLeads(limit, s, DispatchError(w));
    } else {
      var a := queue[0];
      var t' := D.MarkSent(s.tables, a, limit, transport(a));
      var failed' := failed || t'.attempts[a].Pending();
      var s' := WithWorker(s.(tables := t'), w, s.workers[w].(phase := Sending(queue[1..], failed')));
      SendStep(limit, s, w, queue, failed, transport(a));
      SendLoopIsARun(limit, s', w, queue[1..], failed', transport);
      var r := D.SendAll(t', queue[1..], failed', limit, transport);
      var end := s.workers[w].(phase := Answering(r.ok));
      assert s'.workers[w := end] == s.workers[w := end];
      LeadsOn(limit, s, [Sent(w, a, transport(a) == D.Accepted)], s', SendLabels(w, e, t', queue[1..], failed', limit, transport),
              WithWorker(s.(tables := r.tables), w, end));
    }
  }

  function DispatchLabels(w: nat, t: Tables, e: nat, v: D.Env): seq<Label>
    requires e < |t.effects|
  {
    var trigger := TriggerFor(t.effects[e].plan.name);
    if !ValidPlan(t.effects[e].plan) then [DispatchError(w)]
    else if trigger.None? then [DispatchOther(w, v.otherOk(e))]
    else
      [PrepareWebhook(w, v.envelope(e), v.secrets)]
      + match Prepare(t, e, trigger.value, v.envelope(e), v.secrets)
        case None => []
        case Some(t') => SendLabels(w, e, t', PendingOf(t'.attempts, e), false, v.limit, v.transport)
  }

  lemma PrepareStep(limit: nat, s: World, w: nat, envelope: Option<string>, secrets: set<string>)
    requires w in s.workers && s.workers[w].held != [] && s.workers[w].phase == Ready && s.workers[w].held[0] < |s.tables.effects|
    requires TriggerFor(s.tables.effects[s.workers[w].held[0]].plan.name).Some?
    ensures var e := s.workers[w].held[0]; var p := Prepare(s.tables, e, TriggerFor(s.tables.effects[e].plan.name).value, envelope, secrets);
      Leads(limit, s, [PrepareWebhook(w, envelope, secrets)],
            if p.None? then WithWorker(s, w, s.workers[w].(phase := Answering(false)))
            else WithWorker(s.(tables := p.value), w, s.workers[w].(phase := Sending(PendingOf(p.value.attempts, e), false))))
  {
    StepLeads(limit, s, PrepareWebhook(w, envelope, secrets));
  }

  /** Prepare, send, finish: the worker ends up answering what Dispatch returns, over the tables
      Dispatch leaves. */
  lemma DispatchIsARun(s: World, w: nat, v: D.Env)
    requires w in s.workers && s.workers[w].held != [] && s.workers[w].phase == Ready && s.workers[w].held[0] < |s.tables.effects|
    ensures var e := s.workers[w].held[0]; var r := D.DispatchIn(s.tables, e, v);
      Leads(v.limit, s, DispatchLabels(w, s.tables, e, v), WithWorker(s.(tables := r.tables), w, s.workers[w].(phase := Answering(r.ok))))
  {
    var e := s.workers[w].held[0];
    var trigger := TriggerFor(s.tables.effects[e].plan.name);
    if !ValidPlan(s.tables.effects[e].plan) {
      StepLeads(v.limit, s, DispatchError(w));
    } else if trigger.None? {
      StepLeads(v.limit, s, DispatchOther(w, v.otherOk(e)));
    } else {
      PrepareStep(v.limit, s, w, v.envelope(e), v.secrets);
      var p := Prepare(s.tables, e, trigger.value, v.envelope(e), v.secrets);
      if p.None? {
        assert [PrepareWebhook(w, v.envelope(e), v.secrets)] + [] == [PrepareWebhook(w, v.envelope(e), v.secrets)];
      } else {
        SendAfterPrepare(s, w, p.value, v);
      }
    }
  }

  lemma SendAfterPrepare(s: World, w: nat, t': Tables, v: D.Env)
    requires w in s.workers && s.workers[w].held != []
    requires var e := s.workers[w].held[0]; var mid := WithWorker(s.(tables := t'), w, s.workers[w].(phase := Sending(PendingOf(t'.attempts, e), false)));
      Leads(v.limit, s, [PrepareWebhook(w, v.envelope(e), v.secrets)], mid)
    ensures var e := s.workers[w].held[0]; var r := D.SendAll(t', PendingOf(t'.attempts, e), false, v.limit, v.transport);
      Leads(v.limit, s,
            [PrepareWebhook(w, v.envelope(e), v.secrets)] + SendLabels(w, e, t', PendingOf(t'.attempts, e), false, v.limit, v.transport),
            WithWorker(s.(tables := r.tables), w, s.workers[w].(phase := Answering(r.ok))))
  {
    var e := s.workers[w].held[0];
    var queue := PendingOf(t'.attempts, e);
    var mid := WithWorker(s.(tables := t'), w, s.workers[w].(phase := Sending(queue, false)));
    SendLoopIsARun(v.limit, mid, w, queue, false, v.transport);
    var r := D.SendAll(t', queue, false, v.limit, v.transport);
    var end := s.workers[w].(phase := Answering(r.ok));
    assert mid.workers[w := end] == s.workers[w := end];
    LeadsOn(v.limit, s, [PrepareWebhook(w, v.envelope(e), v.secrets)], mid, SendLabels(w, e, t', queue, false, v.limit, v.transport),
            WithWorker(s.(tables := r.tables), w, end));
  }

  // ---------- a whole pass ----------

  /** The steps of the loop of RunOnce; an answer that cannot be stored is the worker's last. */
  function PassLabels(w: nat, t: Tables, ids: seq<nat>, v: D.Env): seq<Label>
    decreases |ids|
  {
    if ids == [] || ids[0] >= |t.effects| then []
    else
      var r := D.DispatchIn(t, ids[0], v);
      DispatchLabels(w, t, ids[0], v)
      + match (if v.answerStored(ids[0]) then D.AnswerOf(r.tables, ids[0], r.ok, v.now) else None)
        case None => [Stop(w)]
        case Some(t') => [Answer(w, ids[0], r.ok, v.now)] + PassLabels(w, t', ids[1..], v)
  }

  lemma {:induction false} SendingKeepsEffects(t: Tables, queue: seq<nat>, failed: bool, limit: nat, transport: nat -> D.SendOutcome)
    ensures D.SendAll(t, queue, failed, limit, transport).tables.effects == t.effects
    decreases |queue|
  {
    if queue != [] && transport(queue[0]) != D.MarkLost && CanMark(t, queue[0]) {
      var t' := D.MarkSent(t, queue[0], limit, transport(queue[0]));
      SendingKeepsEffects(t', queue[1..], failed || t'.attempts[queue[0]].Pending(), limit, transport);
    }
  }

  lemma DispatchKeepsEffects(t: Tables, e: nat, v: D.Env)
    requires e < |t.effects|
    ensures D.DispatchIn(t, e, v).tables.effects == t.effects
  {
    var trigger := TriggerFor(t.effects[e].plan.name);
    if trigger.Some? && Prepare(t, e, trigger.value, v.envelope(e), v.secrets).Some? {
      var t' := Prepare(t, e, trigger.value, v.envelope(e), v.secrets).value;
      SendingKeepsEffects(t', PendingOf(t'.attempts, e), false, v.limit, v.transport);
    }
  }

  ghost predicate Batched(s: World, w: nat, ids: seq<nat>, v: D.Env) {
    && w in s.workers && s.workers[w] == Worker(ids, Ready) && s.now == v.now && Distinct(ids)
    && forall i :: 0 <= i < |ids| ==> ids[i] < |s.tables.effects| && s.tables.effects[ids[i]].status == Processing
  }

  /** The first of the batch dispatched, and what its answer finds. */
  lemma FirstDispatched(s: World, w: nat, ids: seq<nat>, v: D.Env) returns (mid: World)
    requires Batched(s, w, ids, v) && ids != []
    ensures var r := D.DispatchIn(s.tables, ids[0], v);
      && Leads(v.limit, s, DispatchLabels(w, s.tables, ids[0], v), mid)
      && mid == WithWorker(s.(tables := r.tables), w, Worker(ids, Answering(r.ok)))
      && r.tables.effects == s.tables.effects
  {
    DispatchKeepsEffects(s.tables, ids[0], v);
    DispatchIsARun(s, w, v);
    mid := WithWorker(s.(tables := D.DispatchIn(s.tables, ids[0], v).tables), w, Worker(ids, Answering(D.DispatchIn(s.tables, ids[0], v).ok)));
  }

  lemma AnswerStep(limit: nat, mid: World, w: nat, ids: seq<nat>, ok: bool) returns (t': Tables)
    requires w in mid.workers && mid.workers[w] == Worker(ids, Answering(ok)) && ids != []
    requires ids[0] < |mid.tables.effects| && mid.tables.effects[ids[0]].status == Processing
    ensures D.AnswerOf(mid.tables, ids[0], ok, mid.now) == Some(t')
    ensures |t'.effects| == |mid.tables.effects| && forall i :: 0 <= i < |t'.effects| && i != ids[0] ==> t'.effects[i] == mid.tables.effects[i]
    ensures Leads(limit, mid, [Answer(w, ids[0], ok, mid.now)], WithWorker(mid.(tables := t'), w, Worker(ids[1..], Ready)))
  {
    t' := D.AnswerOf(mid.tables, ids[0], ok, mid.now).value;
    StepLeads(limit, mid, Answer(w, ids[0], ok, mid.now));
  }

  /** What a pass makes of the first of its batch: where its steps lead, and what is left to do. */
  datatype Leg = Leg(first: seq<Label>, next: World, delivered: nat, failed: nat)

  lemma FirstSteps(s: World, w: nat, ids: seq<nat>, v: D.Env) returns (t': Tables, ok: bool)
    requires Batched(s, w, ids, v) && ids != []
    ensures var r := D.DispatchIn(s.tables, ids[0], v); ok == r.ok && D.AnswerOf(r.tables, ids[0], ok, v.now) == Some(t')
    ensures var next := WithWorker(s.(tables := t'), w, Worker(ids[1..], Ready));
      && Leads(v.limit, s, DispatchLabels(w, s.tables, ids[0], v) + [Answer(w, ids[0], ok, v.now)], next)
      && Batched(next, w, ids[1..], v)
  {
    var mid := FirstDispatched(s, w, ids, v);
    ok := mid.workers[w].phase.ok;
    t' := AnswerStep(v.limit, mid, w, ids, ok);
    var next := WithWorker(s.(tables := t'), w, Worker(ids[1..], Ready));
    assert mid.workers[w := Worker(ids[1..], Ready)] == s.workers[w := Worker(ids[1..], Ready)];
    LeadsOn(v.limit, s, DispatchLabels(w, s.tables, ids[0], v), mid, [Answer(w, ids[0], ok, v.now)], next);
  }

  /** The first of the batch dispatched and answered: the pass goes on from there. */
  lemma FirstAnswered(s: World, w: nat, ids: seq<nat>, v: D.Env, delivered: nat, failed: nat) returns (leg: Leg)
    requires Batched(s, w, ids, v) && ids != [] && v.answerStored(ids[0])
    ensures Leads(v.limit, s, leg.first, leg.next) && Batched(leg.next, w, ids[1..], v)
    ensures leg.next == WithWorker(s.(tables := leg.next.tables), w, Worker(ids[1..], Ready))
    ensures leg.delivered + leg.failed == delivered + failed + 1
    ensures D.PassOf(s.tables, ids, delivered, failed, v) == D.PassOf(leg.next.tables, ids[1..], leg.delivered, leg.failed, v)
    ensures PassLabels(w, s.tables, ids, v) == leg.first + PassLabels(w, leg.next.tables, ids[1..], v)
  {
    var t', ok := FirstSteps(s, w, ids, v);
    var dispatched, answer := DispatchLabels(w, s.tables, ids[0], v), [Answer(w, ids[0], ok, v.now)];
    leg := Leg(dispatched + answer, WithWorker(s.(tables := t'), w, Worker(ids[1..], Ready)),
               if ok then delivered + 1 else delivered, if ok then failed else failed + 1);
    PassFirst(s.tables, ids, delivered, failed, v, t');
    LabelsFirst(w, s.tables, ids, v, t');
  }

  lemma PassFirst(t: Tables, ids: seq<nat>, delivered: nat, failed: nat, v: D.Env, t': Tables)
    requires ids != [] && ids[0] < |t.effects| && v.answerStored(ids[0])
    requires var r := D.DispatchIn(t, ids[0], v); D.AnswerOf(r.tables, ids[0], r.ok, v.now) == Some(t')
    ensures var r := D.DispatchIn(t, ids[0], v);
      D.PassOf(t, ids, delivered, failed, v)
      == D.PassOf(t', ids[1..], if r.ok then delivered + 1 else delivered, if r.ok then failed else failed + 1, v)
  {
  }

  lemma LabelsFirst(w: nat, t: Tables, ids: seq<nat>, v: D.Env, t': Tables)
    requires ids != [] && ids[0] < |t.effects| && v.answerStored(ids[0])
    requires var r := D.DispatchIn(t, ids[0], v); D.AnswerOf(r.tables, ids[0], r.ok, v.now) == Some(t')
    ensures var r := D.DispatchIn(t, ids[0], v);
      PassLabels(w, t, ids, v) == DispatchLabels(w, t, ids[0], v) + [Answer(w, ids[0], r.ok, v.now)] + PassLabels(w, t', ids[1..], v)
  {
    Regroup(DispatchLabels(w, t, ids[0], v), [Answer(w, ids[0], D.DispatchIn(t, ids[0], v).ok, v.now)], PassLabels(w, t', ids[1..], v));
  }

  lemma Regroup(a: seq<Label>, b: seq<Label>, c: seq<Label>)
    ensures a + (b + c) == a + b + c
  {
  }

  /** The worker after a pass that has answered n of its claims. */
  function After(ids: seq<nat>, n: nat, err: bool): Worker
    requires n <= |ids|
  {
    Worker(ids[n..], if err then Stopped else Ready)
  }

  /** These steps of `w` end where the pass `p` does, the claims it has answered gone from the batch. */
  ghost predicate Lands(limit: nat, s: World, w: nat, labels: seq<Label>, ids: seq<nat>, p: D.Pass, answered: nat) {
    var n := p.delivered + p.failed - answered;
    && 0 <= n <= |ids| && (!p.err ==> n == |ids|)
    && Leads(limit, s, labels, WithWorker(s.(tables := p.tables), w, After(ids, n, p.err)))
  }

  lemma LandsLater(limit: nat, s: World, w: nat, ids: seq<nat>, leg: Leg, rest: seq<Label>, p: D.Pass, answered: nat)
    requires ids != [] && leg.next == WithWorker(s.(tables := leg.next.tables), w, Worker(ids[1..], Ready))
    requires Leads(limit, s, leg.first, leg.next) && Lands(limit, leg.next, w, rest, ids[1..], p, answered + 1)
    ensures Lands(limit, s, w, leg.first + rest, ids, p, answered)
  {
    var n := p.delivered + p.failed - answered;
    var wk := After(ids, n, p.err);
    assert ids[1..][n - 1..] == ids[n..];
    assert leg.next.workers[w := wk] == s.workers[w := wk];
    LeadsOn(limit, s, leg.first, leg.next, rest, WithWorker(s.(tables := p.tables), w, wk));
  }

  /** The first of the batch dispatched, its answer lost: the pass and the worker end there. */
  lemma FirstUnanswered(s: World, w: nat, ids: seq<nat>, v: D.Env, delivered: nat, failed: nat)
    requires Batched(s, w, ids, v) && ids != [] && !v.answerStored(ids[0])
    ensures Lands(v.limit, s, w, PassLabels(w, s.tables, ids, v), ids, D.PassOf(s.tables, ids, delivered, failed, v), delivered + failed)
  {
    var mid := FirstDispatched(s, w, ids, v);
    var r := D.DispatchIn(s.tables, ids[0], v);
    StepLeads(v.limit, mid, Stop(w));
    assert mid.workers[w := Worker(ids, Stopped)] == s.workers[w := Worker(ids, Stopped)];
    assert ids[0..] == ids;
    LeadsOn(v.limit, s, DispatchLabels(w, s.tables, ids[0], v), mid, [Stop(w)], WithWorker(s.(tables := r.tables), w, Worker(ids, Stopped)));
    assert D.PassOf(s.tables, ids, delivered, failed, v) == D.Pass(r.tables, delivered, failed, true);
  }

  lemma NothingClaimed(s: World, w: nat, delivered: nat, failed: nat, v: D.Env)
    requires w in s.workers && s.workers[w] == Worker([], Ready)
    ensures Lands(v.limit, s, w, PassLabels(w, s.tables, [], v), [], D.PassOf(s.tables, [], delivered, failed, v), delivered + failed)
  {
    assert s.workers[w := Worker([], Ready)] == s.workers;
    assert Links(v.limit, [s], []);
  }

  /** Claimed effects dispatched and answered one after another: the worker takes the steps of the
      loop and is left with what the loop has not answered. */
  lemma {:induction false} PassIsARun(s: World, w: nat, ids: seq<nat>, delivered: nat, failed: nat, v: D.Env)
    requires Batched(s, w, ids, v)
    ensures Lands(v.limit, s, w, PassLabels(w, s.tables, ids, v), ids, D.PassOf(s.tables, ids, delivered, failed, v), delivered + failed)
    decreases |ids|
  {
    if ids == [] {
      NothingClaimed(s, w, delivered, failed, v);
    } else if v.answerStored(ids[0]) {
      var leg := FirstAnswered(s, w, ids, v, delivered, failed);
      PassIsARun(leg.next, w, ids[1..], leg.delivered, leg.failed, v);
      var rest, p := PassLabels(w, leg.next.tables, ids[1..], v), D.PassOf(leg.next.tables, ids[1..], leg.delivered, leg.failed, v);
      LandsLater(v.limit, s, w, ids, leg, rest, p, delivered + failed);
    } else {
      FirstUnanswered(s, w, ids, v, delivered, failed);
    }
  }

  // ---------- the answers of a pass ----------

  predicate Quiet(labels: seq<Label>) { forall i :: 0 <= i < |labels| ==> !labels[i].Claim? && !labels[i].Answer? }

  predicate Claimless(labels: seq<Label>) { forall i :: 0 <= i < |labels| ==> !labels[i].Claim? }

  lemma {:induction false} QuietReplies(labels: seq<Label>, w: nat)
    requires Quiet(labels)
    ensures Replies(labels, w) == [] && Batch(labels, w) == []
    decreases |labels|
  {
    if labels != [] {
      assert Last(labels) == labels[|labels| - 1];
      QuietReplies(Init(labels), w);
    }
  }

  lemma {:induction false} RepliesAppend(trace: seq<Label>, labels: seq<Label>, w: nat)
    requires Claimless(labels)
    ensures Replies(trace + labels, w) == Replies(trace, w) + Replies(labels, w) && Batch(trace + labels, w) == Batch(trace, w)
    decreases |labels|
  {
    if labels == [] {
      assert trace + labels == trace;
    } else {
      assert Init(trace + labels) == trace + Init(labels) && Last(trace + labels) == Last(labels) == labels[|labels| - 1];
      RepliesAppend(trace, Init(labels), w);
    }
  }

  lemma {:induction false} SendingIsQuiet(w: nat, e: nat, t: Tables, queue: seq<nat>, failed: bool, limit: nat, transport: nat -> D.SendOutcome)
    ensures Quiet(SendLabels(w, e, t, queue, failed, limit, transport))
    decreases |queue|
  {
    if queue != [] && transport(queue[0]) != D.MarkLost && CanMark(t, queue[0]) {
      var t' := D.MarkSent(t, queue[0], limit, transport(queue[0]));
      SendingIsQuiet(w, e, t', queue[1..], failed || t'.attempts[queue[0]].Pending(), limit, transport);
    }
  }

  lemma DispatchIsQuiet(w: nat, t: Tables, e: nat, v: D.Env)
    requires e < |t.effects|
    ensures Quiet(DispatchLabels(w, t, e, v))
  {
    var trigger := TriggerFor(t.effects[e].plan.name);
    if trigger.Some? && Prepare(t, e, trigger.value, v.envelope(e), v.secrets).Some? {
      var t' := Prepare(t, e, trigger.value, v.envelope(e), v.secrets).value;
      SendingIsQuiet(w, e, t', PendingOf(t'.attempts, e), false, v.limit, v.transport);
    }
  }

  lemma {:induction false} CountAppend(a: seq<Reply>, b: seq<Reply>, ok: bool)
    ensures Count(a + b, ok) == Count(a, ok) + Count(b, ok)
    decreases |b|
  {
    if b == [] {
      assert a + b == a;
    } else {
      assert (a + b)[..|a + b| - 1] == a + b[..|b| - 1];
      CountAppend(a, b[..|b| - 1], ok);
    }
  }

  lemma CountOne(r: Reply)
    ensures Count([r], true) == (if r.ok then 1 else 0) && Count([r], false) == if r.ok then 0 else 1
  {
    assert [r][..0] == [] && Count([], true) == 0 == Count([], false);
  }

  lemma OneReply(w: nat, l: Label)
    requires l.Answer? && l.w == w
    ensures Replies([l], w) == [Reply(l.e, l.ok)]
  {
    assert Init([l]) == [] && Last([l]) == l;
    assert Replies([], w) == [];
  }

  /** The counters of the loop count the answers its steps give. */
  lemma {:induction false} PassReplies(w: nat, t: Tables, ids: seq<nat>, delivered: nat, failed: nat, v: D.Env)
    ensures Claimless(PassLabels(w, t, ids, v))
    ensures var p := D.PassOf(t, ids, delivered, failed, v); var replies := Replies(PassLabels(w, t, ids, v), w);
      p.delivered == delivered + Count(replies, true) && p.failed == failed + Count(replies, false)
    decreases |ids|
  {
    if ids != [] && ids[0] < |t.effects| {
      var r := D.DispatchIn(t, ids[0], v);
      var dispatched := DispatchLabels(w, t, ids[0], v);
      DispatchIsQuiet(w, t, ids[0], v);
      match (if v.answerStored(ids[0]) then D.AnswerOf(r.tables, ids[0], r.ok, v.now) else None)
      case None =>
        QuietReplies(dispatched + [Stop(w)], w);
      case Some(t') =>
        PassFirst(t, ids, delivered, failed, v, t');
        PassReplies(w, t', ids[1..], if r.ok then delivered + 1 else delivered, if r.ok then failed else failed + 1, v);
        RepliesThrough(w, dispatched, Answer(w, ids[0], r.ok, v.now), PassLabels(w, t', ids[1..], v));
    }
  }

  lemma RepliesThrough(w: nat, dispatched: seq<Label>, answer: Label, rest: seq<Label>)
    requires Quiet(dispatched) && answer.Answer? && answer.w == w && Claimless(rest)
    ensures var all := dispatched + ([answer] + rest);
      && Claimless(all)
      && Count(Replies(all, w), true) == Count(Replies(rest, w), true) + (if answer.ok then 1 else 0)
      && Count(Replies(all, w), false) == Count(Replies(rest, w), false) + if answer.ok then 0 else 1
  {
    var first := [Reply(answer.e, answer.ok)];
    QuietReplies(dispatched, w);
    OneReply(w, answer);
    RepliesAppend([answer], rest, w);
    RepliesAppend(dispatched, [answer] + rest, w);
    assert [] + (first + Replies(rest, w)) == first + Replies(rest, w);
    CountAppend(first, Replies(rest, w), true);
    CountAppend(first, Replies(rest, w), false);
    CountOne(first[0]);
  }

  lemma RepliesAfterClaim(claimed: seq<Label>, labels: seq<Label>, w: nat)
    requires Replies(claimed, w) == [] && Claimless(labels)
    ensures Replies(claimed + labels, w) == Replies(labels, w) && Batch(claimed + labels, w) == Batch(claimed, w)
  {
    RepliesAppend(claimed, labels, w);
    assert [] + Replies(labels, w) == Replies(labels, w);
  }

  lemma ClaimLeads(limit: nat, s: World, w: nat, ids: seq<nat>, claim: seq<Label>, next: World)
    requires Of(s.workers, w) == Worker([], Ready) && Claimable(s, ids) && claim == [Claim(w, ids, s.now)]
    requires next == WithWorker(s.(tables := s.tables.(effects := ClaimRows(s.tables.effects, ids))), w, Worker(ids, Ready))
    ensures Leads(limit, s, claim, next)
  {
    StepLeads(limit, s, Claim(w, ids, s.now));
  }

  /** RunOnce in the protocol: the pass of an idle worker that nobody interrupts is a sequence of
      steps of the protocol. It ends in the tables of the loop, and the worker holds what it has
      not answered. */
  lemma RunOnceIsARun(s: World, w: nat, ids: seq<nat>, v: D.Env) returns (t: Tables, labels: seq<Label>, p: D.Pass)
    requires Of(s.workers, w) == Worker([], Ready) && s.now == v.now && Claimable(s, ids)
    ensures t == s.tables.(effects := ClaimRows(s.tables.effects, ids))
    ensures labels == [Claim(w, ids, v.now)] + PassLabels(w, t, ids, v) && p == D.PassOf(t, ids, 0, 0, v)
    ensures p.delivered + p.failed <= |ids| && (!p.err ==> p.delivered + p.failed == |ids|)
    ensures Leads(v.limit, s, labels, WithWorker(s.(tables := p.tables), w, After(ids, p.delivered + p.failed, p.err)))
  {
    t := s.tables.(effects := ClaimRows(s.tables.effects, ids));
    var claim, next := [Claim(w, ids, v.now)], WithWorker(s.(tables := t), w, Worker(ids, Ready));
    ClaimLeads(v.limit, s, w, ids, claim, next);
    forall i | 0 <= i < |ids| ensures ids[i] in ids {}
    labels, p := ClaimedPass(s, next, w, ids, claim, v);
  }

  lemma ClaimedPass(s: World, next: World, w: nat, ids: seq<nat>, claim: seq<Label>, v: D.Env) returns (labels: seq<Label>, p: D.Pass)
    requires Leads(v.limit, s, claim, next) && next == WithWorker(s.(tables := next.tables), w, Worker(ids, Ready)) && Batched(next, w, ids, v)
    ensures labels == claim + PassLabels(w, next.tables, ids, v) && p == D.PassOf(next.tables, ids, 0, 0, v)
    ensures p.delivered + p.failed <= |ids| && (!p.err ==> p.delivered + p.failed == |ids|)
    ensures Leads(v.limit, s, labels, WithWorker(s.(tables := p.tables), w, After(ids, p.delivered + p.failed, p.err)))
  {
    PassIsARun(next, w, ids, 0, 0, v);
    p := D.PassOf(next.tables, ids, 0, 0, v);
    var rest := PassLabels(w, next.tables, ids, v);
    ClaimedLands(v.limit, s, next, w, ids, claim, rest, p);
    labels := claim + rest;
  }

  lemma ClaimedLands(limit: nat, s: World, next: World, w: nat, ids: seq<nat>, claim: seq<Label>, labels: seq<Label>, p: D.Pass)
    requires Leads(limit, s, claim, next) && next == WithWorker(s.(tables := next.tables), w, Worker(ids, Ready))
    requires Lands(limit, next, w, labels, ids, p, 0)
    ensures p.delivered + p.failed <= |ids| && (!p.err ==> p.delivered + p.failed == |ids|)
    ensures Leads(limit, s, claim + labels, WithWorker(s.(tables := p.tables), w, After(ids, p.delivered + p.failed, p.err)))
  {
    var wk := After(ids, p.delivered + p.failed, p.err);
    assert next.workers[w := wk] == s.workers[w := wk];
    LeadsOn(limit, s, claim, next, labels, WithWorker(s.(tables := p.tables), w, wk));
  }

  /** In that execution the worker's batch is the claim, and the counters RunOnce returns are the
      numbers of its answers of either kind. */
  lemma RunOnceCountsAnswers(trace: seq<Label>, w: nat, ids: seq<nat>, t: Tables, v: D.Env)
    ensures var all := trace + [Claim(w, ids, v.now)] + PassLabels(w, t, ids, v); var p := D.PassOf(t, ids, 0, 0, v);
      && Batch(all, w) == ids
      && p.delivered == Count(Replies(all, w), true) && p.failed == Count(Replies(all, w), false)
  {
    var claimed := trace + [Claim(w, ids, v.now)];
    assert Init(claimed) == trace && Last(claimed) == Claim(w, ids, v.now);
    PassReplies(w, t, ids, 0, 0, v);
    RepliesAfterClaim(claimed, PassLabels(w, t, ids, v), w);
  }
}
