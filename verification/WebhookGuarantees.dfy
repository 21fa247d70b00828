/** What holds in every execution of the outbox workers, whatever the interleaving. */
module WebhookGuarantees {
  import opened Lib
  import opened WebhookTables
  import opened WebhookWorkers

  function Init(trace: seq<Label>): seq<Label>
    requires trace != []
  {
    trace[..|trace| - 1]
  }

  function Last(trace: seq<Label>): Label
    requires trace != []
  {
    trace[|trace| - 1]
  }

  lemma {:induction false} InvHolds(limit: nat, trace: seq<Label>)
    requires limit > 0 && Exec(limit, trace).Some?
    ensures Inv(limit, Exec(limit, trace).value)
  {
    if trace != [] {
      InvHolds(limit, Init(trace));
      StepKeeps(limit, Exec(limit, Init(trace)).value, Last(trace));
    }
  }

  // ---------- claims ----------

  /** At any moment two unanswered claims never share an effect, and an effect is
      `processing` exactly when some worker holds an unanswered claim on it. */
  lemma ClaimsAreExclusive(limit: nat, trace: seq<Label>, e: nat)
    requires limit > 0 && Exec(limit, trace).Some?
    requires e < |Exec(limit, trace).value.tables.effects|
    ensures var s := Exec(limit, trace).value;
      && (s.tables.effects[e].status == Processing <==> exists w: nat, i: nat :: Holds(s.workers, w, i) && Held(s.workers, w, i) == e)
      && (forall w: nat, i: nat, v: nat, j: nat ::
            Holds(s.workers, w, i) && Holds(s.workers, v, j) && Held(s.workers, w, i) == e == Held(s.workers, v, j) ==> w == v && i == j)
  {
    InvHolds(limit, trace);
  }

  /** The "was not pending" and "was not processing" errors cannot happen: in every reachable
      world the attempt at the head of a queue is markable and the claim being answered is open. */
  lemma MarksNeverMiss(limit: nat, trace: seq<Label>, l: Label)
    requires limit > 0 && Exec(limit, trace + [l]).Some?
    ensures var s := Exec(limit, trace + [l]).value;
      && (l.Sent? ==> CanMark(Exec(limit, trace).value.tables, l.attempt) && s.workers[l.w].phase.Sending?)
      && (l.Answer? ==>
            && l.e < |s.tables.effects| && s.workers[l.w].phase == Ready
            && s.tables.effects[l.e].status == if l.ok then EffectStatus.Delivered else Failed)
  {
    assert Init(trace + [l]) == trace;
    InvHolds(limit, trace);
    var before := Exec(limit, trace).value;
    match l
    case Sent(w, a, accepted) => SentKeeps(limit, before, w, a, accepted);
    case Answer(w, e, ok, at) => AnswerKeeps(limit, before, w, e, ok);
    case _ =>
  }

  function Claims(trace: seq<Label>, e: nat): nat {
    if trace == [] then 0
    else Claims(Init(trace), e) + (if Last(trace).Claim? && e in Last(trace).ids then 1 else 0)
  }

  /** Answers "failed" given for `e`. */
  function Failures(trace: seq<Label>, e: nat): nat {
    if trace == [] then 0
    else Failures(Init(trace), e) + (if Last(trace).Answer? && Last(trace).e == e && !Last(trace).ok then 1 else 0)
  }

  function FirstClaim(trace: seq<Label>, e: nat): Option<int> {
    if trace == [] then None
    else if FirstClaim(Init(trace), e).Some? then FirstClaim(Init(trace), e)
    else if Last(trace).Claim? && e in Last(trace).ids then Some(Last(trace).at)
    else None
  }

  /** Total waiting time imposed by the first n failures. */
  function BackoffSum(n: nat): nat {
    if n == 0 then 0 else BackoffSum(n - 1) + Min(60, 5 * n)
  }

  lemma {:induction false} BackoffSumClosedForm(n: nat)
    ensures BackoffSum(n) == if n <= 12 then 5 * n * (n + 1) / 2 else 390 + 60 * (n - 12)
  {
    if n > 0 {
      BackoffSumClosedForm(n - 1);
      assert 5 * n * (n + 1) == 5 * (n - 1) * n + 10 * n;
    }
  }

  ghost predicate ClockOk(trace: seq<Label>, s: World, e: nat) {
    var row := s.tables.effects;
    if e >= |row| then Claims(trace, e) == 0 && Failures(trace, e) == 0
    else
      && row[e].attempts == Claims(trace, e)
      && (Claims(trace, e) > 0 <==> FirstClaim(trace, e).Some?)
      && match row[e].status
         case Planned => Claims(trace, e) == 0 && Failures(trace, e) == 0
         case Processing => Claims(trace, e) == Failures(trace, e) + 1 && s.now >= FirstClaim(trace, e).value + BackoffSum(Failures(trace, e))
         case Failed => Claims(trace, e) == Failures(trace, e) > 0 && row[e].nextAttemptAt >= FirstClaim(trace, e).value + BackoffSum(Failures(trace, e))
         case Delivered => Claims(trace, e) == Failures(trace, e) + 1
  }

  lemma {:induction false} ClockHolds(limit: nat, trace: seq<Label>, e: nat)
    requires limit > 0 && Exec(limit, trace).Some?
    ensures ClockOk(trace, Exec(limit, trace).value, e)
  {
    if trace != [] {
      ClockHolds(limit, Init(trace), e);
      InvHolds(limit, Init(trace));
      ClockStep(limit, trace, Exec(limit, Init(trace)).value, e);
    }
  }

  predicate TouchesEffects(l: Label) { l.Tick? || l.PlanEffects? || l.Claim? || l.Answer? }

  /** Only planning, claiming and answering write the outbox table. */
  lemma OtherStepsLeaveEffects(limit: nat, s: World, l: Label)
    requires Inv(limit, s) && Step(limit, s, l).Some? && !TouchesEffects(l)
    ensures Step(limit, s, l).value.tables.effects == s.tables.effects && Step(limit, s, l).value.now == s.now
  {
    if l.PrepareWebhook? {
      var id := s.workers[l.w].held[0];
      var trigger := TriggerFor(s.tables.effects[id].plan.name).value;
      if Prepare(s.tables, id, trigger, l.envelope, l.secrets).Some? { PrepareFrame(s.tables, id, trigger, l.envelope, l.secrets); }
    }
  }

  lemma ClockStep(limit: nat, trace: seq<Label>, s: World, e: nat)
    requires limit > 0 && trace != [] && Inv(limit, s) && ClockOk(Init(trace), s, e)
    requires Step(limit, s, Last(trace)).Some?
    ensures ClockOk(trace, Step(limit, s, Last(trace)).value, e)
  {
    var l := Last(trace);
    ClaimedBeforeExisting(Init(trace), e);
    if l.Claim? {
      ClockClaim(limit, trace, s, e);
    } else if l.Answer? {
      ClockAnswer(limit, trace, s, e);
    } else if l.PlanEffects? {
      if SavePlanned(s.tables.effects, l.plans, s.now).Some? { SavePlannedAppends(s.tables.effects, l.plans, s.now); }
    } else if !l.Tick? {
      OtherStepsLeaveEffects(limit, s, l);
    }
  }

  lemma ClockClaim(limit: nat, trace: seq<Label>, s: World, e: nat)
    requires trace != [] && Last(trace).Claim? && ClockOk(Init(trace), s, e)
    requires Step(limit, s, Last(trace)).Some?
    requires Claims(Init(trace), e) == 0 <==> FirstClaim(Init(trace), e).None?
    ensures ClockOk(trace, Step(limit, s, Last(trace)).value, e)
  {
    var ids := Last(trace).ids;
    if e in ids {
      var i :| 0 <= i < |ids| && ids[i] == e;
      assert Eligible(s.tables.effects[ids[i]], s.now);
    }
  }

  lemma ClockAnswer(limit: nat, trace: seq<Label>, s: World, e: nat)
    requires limit > 0 && trace != [] && Last(trace).Answer? && Inv(limit, s) && ClockOk(Init(trace), s, e)
    requires Step(limit, s, Last(trace)).Some?
    ensures ClockOk(trace, Step(limit, s, Last(trace)).value, e)
  {
    AnswerKeeps(limit, s, Last(trace).w, Last(trace).e, Last(trace).ok);
    if Last(trace).e == e && !Last(trace).ok {
      assert Backoff(s.tables.effects[e].attempts) == Min(60, 5 * (Failures(Init(trace), e) + 1));
    }
  }

  lemma {:induction false} ClaimedBeforeExisting(trace: seq<Label>, e: nat)
    ensures Claims(trace, e) == 0 <==> FirstClaim(trace, e).None?
  {
    if trace != [] { ClaimedBeforeExisting(Init(trace), e); }
  }

  /** `attempts` counts the claims of an effect. */
  lemma AttemptsCountClaims(limit: nat, trace: seq<Label>, e: nat)
    requires limit > 0 && Exec(limit, trace).Some?
    requires e < |Exec(limit, trace).value.tables.effects|
    ensures Exec(limit, trace).value.tables.effects[e].attempts == Claims(trace, e)
  {
    ClockHolds(limit, trace, e);
  }

  /** A claim made after n failed answers comes no earlier than the first claim of the effect
      plus the back-off of those n failures. */
  lemma ClaimWaitsForBackoff(limit: nat, trace: seq<Label>, w: nat, ids: seq<nat>, at: int, e: nat)
    requires limit > 0 && e in ids
    requires Exec(limit, trace + [Claim(w, ids, at)]).Some?
    ensures var n := Failures(trace, e);
      n > 0 ==>
        && FirstClaim(trace, e).Some?
        && at >= FirstClaim(trace, e).value + (if n <= 12 then 5 * n * (n + 1) / 2 else 390 + 60 * (n - 12))
  {
    assert Init(trace + [Claim(w, ids, at)]) == trace;
    ClockHolds(limit, trace, e);
    BackoffSumClosedForm(Failures(trace, e));
    var i :| 0 <= i < |ids| && ids[i] == e;
    assert Eligible(Exec(limit, trace).value.tables.effects[ids[i]], at);
  }

  // ---------- bounded retries ----------

  /** Dispatches of `e` that sent and marked every pending attempt and still returned an error. */
  function FailedRounds(trace: seq<Label>, e: nat): nat {
    if trace == [] then 0
    else FailedRounds(Init(trace), e) + FailedRound(Last(trace), e)
  }

  ghost predicate SentThisRound(wk: Worker, e: nat, a: nat) {
    wk.phase.Sending? && wk.held != [] && wk.held[0] == e && a !in wk.phase.queue
  }

  /** With r failed rounds behind it, an attempt still pending has been sent r times, and
      once more if the round in progress has passed it. */
  ghost predicate RoundsOk(limit: nat, r: nat, s: World, e: nat) {
    && r < limit
    && (r > 0 ==> HasAttempts(s.tables.attempts, e))
    && (forall a: nat :: a < |s.tables.attempts| && IsPendingOf(s.tables.attempts[a], e) ==> s.tables.attempts[a].count >= r)
    && (forall a: nat, w: nat ::
          a < |s.tables.attempts| && IsPendingOf(s.tables.attempts[a], e) && w in s.workers && SentThisRound(s.workers[w], e, a) ==>
            s.tables.attempts[a].count >= r + 1)
  }

  function FailedRound(l: Label, e: nat): nat { if l.Finish? && l.e == e && l.failed then 1 else 0 }

  lemma RoundsOther(limit: nat, r: nat, s: World, l: Label, e: nat)
    requires RoundsOk(limit, r, s, e) && Step(limit, s, l).Some? && !(l.PrepareWebhook? || l.Sent? || l.Finish?)
    ensures RoundsOk(limit, r, Step(limit, s, l).value, e)
  {
    var s' := Step(limit, s, l).value;
    assert s'.tables.attempts == s.tables.attempts;
    forall w: nat, a: nat | w in s'.workers && SentThisRound(s'.workers[w], e, a) ensures w in s.workers && SentThisRound(s.workers[w], e, a) {
    }
  }

  lemma RoundsStep(limit: nat, r: nat, s: World, l: Label, e: nat)
    requires limit > 0 && Inv(limit, s) && RoundsOk(limit, r, s, e) && Step(limit, s, l).Some?
    ensures RoundsOk(limit, r + FailedRound(l, e), Step(limit, s, l).value, e)
  {
    if l.PrepareWebhook? {
      RoundsPrepare(limit, r, s, l, e);
    } else if l.Sent? {
      RoundsSent(limit, r, s, l, e);
    } else if l.Finish? {
      RoundsFinish(limit, r, s, l, e);
    } else {
      RoundsOther(limit, r, s, l, e);
    }
  }

  lemma {:induction false} RoundsHold(limit: nat, trace: seq<Label>, e: nat)
    requires limit > 0 && Exec(limit, trace).Some?
    ensures RoundsOk(limit, FailedRounds(trace, e), Exec(limit, trace).value, e)
  {
    if trace != [] {
      RoundsHold(limit, Init(trace), e);
      InvHolds(limit, Init(trace));
      RoundsStep(limit, FailedRounds(Init(trace), e), Exec(limit, Init(trace)).value, Last(trace), e);
    }
  }

  /** Preparing records attempts only for the prepared effect, and only if it has none. */
  lemma PrepareAppends(t: Tables, id: nat, trigger: Trigger, envelope: Option<string>, secrets: set<string>)
    requires Prepare(t, id, trigger, envelope, secrets).Some?
    ensures var t' := Prepare(t, id, trigger, envelope, secrets).value;
      && |t.attempts| <= |t'.attempts| && (forall a :: 0 <= a < |t.attempts| ==> t'.attempts[a] == t.attempts[a])
      && forall a :: |t.attempts| <= a < |t'.attempts| ==> t'.attempts[a].effectId == id && !HasAttempts(t.attempts, id)
  {
  }

  lemma RoundsPrepareCounts(limit: nat, r: nat, s: World, t': Tables, id: nat, e: nat)
    requires RoundsOk(limit, r, s, e) && |s.tables.attempts| <= |t'.attempts|
    requires forall a :: 0 <= a < |s.tables.attempts| ==> t'.attempts[a] == s.tables.attempts[a]
    requires forall a :: |s.tables.attempts| <= a < |t'.attempts| ==> t'.attempts[a].effectId == id && !HasAttempts(s.tables.attempts, id)
    ensures r > 0 ==> HasAttempts(t'.attempts, e)
    ensures forall a: nat :: a < |t'.attempts| && IsPendingOf(t'.attempts[a], e) ==>
      t'.attempts[a].count >= r && (a >= |s.tables.attempts| ==> id == e)
  {
    if HasAttempts(s.tables.attempts, e) {
      var i :| 0 <= i < |s.tables.attempts| && s.tables.attempts[i].effectId == e;
      assert t'.attempts[i] == s.tables.attempts[i];
    }
  }

  lemma RoundsPrepare(limit: nat, r: nat, s: World, l: Label, e: nat)
    requires limit > 0 && Inv(limit, s) && RoundsOk(limit, r, s, e)
    requires l.PrepareWebhook? && Step(limit, s, l).Some?
    ensures RoundsOk(limit, r, Step(limit, s, l).value, e)
  {
    var id := s.workers[l.w].held[0];
    var trigger := TriggerFor(s.tables.effects[id].plan.name).value;
    var p := Prepare(s.tables, id, trigger, l.envelope, l.secrets);
    var s' := Step(limit, s, l).value;
    if p.Some? {
      var t' := p.value;
      PrepareAppends(s.tables, id, trigger, l.envelope, l.secrets);
      RoundsPrepareCounts(limit, r, s, t', id, e);
      forall a: nat, w: nat | a < |t'.attempts| && IsPendingOf(t'.attempts[a], e) && w in s'.workers && SentThisRound(s'.workers[w], e, a)
        ensures t'.attempts[a].count >= r + 1
      {
        if w != l.w {
          HeadsDiffer(s.tables.effects, s.workers, w, l.w);
          assert SentThisRound(s.workers[w], e, a);
        }
      }
    }
  }

  lemma RoundsSent(limit: nat, r: nat, s: World, l: Label, e: nat)
    requires limit > 0 && Inv(limit, s) && RoundsOk(limit, r, s, e)
    requires l.Sent? && Step(limit, s, l).Some?
    ensures RoundsOk(limit, r, Step(limit, s, l).value, e)
  {
    var wk := s.workers[l.w];
    var s' := Step(limit, s, l).value;
    SentKeeps(limit, s, l.w, l.attempt, l.accepted);
    RoundsMarked(limit, r, s, s', l.w, l.attempt, e);
  }

  lemma RoundsMarked(limit: nat, r: nat, s: World, s': World, v: nat, m: nat, e: nat)
    requires RoundsOk(limit, r, s, e)
    requires m < |s.tables.attempts| && |s'.tables.attempts| == |s.tables.attempts|
    requires forall i :: 0 <= i < |s.tables.attempts| && i != m ==> s'.tables.attempts[i] == s.tables.attempts[i]
    requires s.tables.attempts[m].Pending() && s'.tables.attempts[m].effectId == s.tables.attempts[m].effectId
    requires s'.tables.attempts[m].count == s.tables.attempts[m].count + 1
    requires v in s.workers && s.workers[v].phase.Sending? && s.workers[v].phase.queue != [] && s.workers[v].phase.queue[0] == m
    requires s'.workers.Keys == s.workers.Keys && forall w :: w in s.workers && w != v ==> s'.workers[w] == s.workers[w]
    requires s'.workers[v].held == s.workers[v].held
    requires s'.workers[v].phase.Sending? ==> s'.workers[v].phase.queue == s.workers[v].phase.queue[1..]
    ensures RoundsOk(limit, r, s', e)
  {
    var attempts, attempts' := s.tables.attempts, s'.tables.attempts;
    if HasAttempts(attempts, e) {
      var i :| 0 <= i < |attempts| && attempts[i].effectId == e;
      assert attempts'[i].effectId == e;
    }
    forall a: nat | a < |attempts'| && IsPendingOf(attempts'[a], e)
      ensures IsPendingOf(attempts[a], e) && attempts'[a].count == attempts[a].count + (if a == m then 1 else 0)
    {
    }
    var queue := s.workers[v].phase.queue;
    assert forall x :: x in queue ==> x == m || x in queue[1..];
    forall a: nat, w: nat | a < |attempts'| && IsPendingOf(attempts'[a], e) && w in s'.workers && SentThisRound(s'.workers[w], e, a)
      ensures attempts'[a].count >= r + 1
    {
      if a != m { assert SentThisRound(s.workers[w], e, a); }
    }
  }

  lemma RoundsFinish(limit: nat, r: nat, s: World, l: Label, e: nat)
    requires limit > 0 && Inv(limit, s) && RoundsOk(limit, r, s, e)
    requires l.Finish? && Step(limit, s, l).Some?
    ensures RoundsOk(limit, r + (if l.e == e && l.failed then 1 else 0), Step(limit, s, l).value, e)
  {
    var wk := s.workers[l.w];
    var s' := Step(limit, s, l).value;
    FinishMeansSettled(s.tables, wk);
    if l.e == e && l.failed {
      forall a: nat | a < |s.tables.attempts| && IsPendingOf(s.tables.attempts[a], e)
        ensures r + 1 <= s.tables.attempts[a].count < limit
      {
        assert SentThisRound(wk, e, a);
        assert AttemptOk(limit, s.tables, s.tables.attempts[a]);
      }
      forall w: nat | w in s'.workers && w != l.w && s'.workers[w].held != [] ensures s'.workers[w].held[0] != e {
        HeadsDiffer(s.tables.effects, s.workers, w, l.w);
      }
    } else {
      forall a: nat, w: nat | w in s'.workers && SentThisRound(s'.workers[w], e, a) ensures SentThisRound(s.workers[w], e, a) {
      }
    }
  }

  /** A webhook effect is retried at most limit - 1 times on account of its subscribers: fewer
      than `limit` complete Dispatches of it ever fail, and no attempt records more than
      `limit` sends. After limit - 1 failed rounds the next complete round returns success. */
  lemma RetriesAreBounded(limit: nat, trace: seq<Label>, e: nat)
    requires limit > 0 && Exec(limit, trace).Some?
    ensures FailedRounds(trace, e) < limit
    ensures var t := Exec(limit, trace).value.tables;
      forall i :: 0 <= i < |t.attempts| && t.attempts[i].effectId == e ==>
        && t.attempts[i].count <= limit
        && (t.attempts[i].Pending() ==> FailedRounds(trace, e) <= t.attempts[i].count < limit)
  {
    RoundsHold(limit, trace, e);
    InvHolds(limit, trace);
    var t := Exec(limit, trace).value.tables;
    forall i | 0 <= i < |t.attempts| ensures AttemptOk(limit, t, t.attempts[i]) { }
  }

  lemma NextRoundSucceeds(limit: nat, trace: seq<Label>, w: nat, e: nat, failed: bool)
    requires limit > 0 && FailedRounds(trace, e) == limit - 1
    requires Exec(limit, trace + [Finish(w, e, failed)]).Some?
    ensures !failed
  {
    var all := trace + [Finish(w, e, failed)];
    assert Init(all) == trace;
    assert FailedRounds(all, e) == FailedRounds(trace, e) + FailedRound(Finish(w, e, failed), e);
    RoundsHold(limit, all, e);
  }

  // ---------- failure counts ----------

  /** Failed sends to a subscriber since its last accepted one. */
  function FailedSendsSinceSuccess(limit: nat, trace: seq<Label>, subscriber: nat): nat {
    if trace == [] then 0
    else
      var before := FailedSendsSinceSuccess(limit, Init(trace), subscriber);
      var s := Exec(limit, Init(trace));
      if s.Some? && Last(trace).Sent? && Last(trace).attempt < |s.value.tables.attempts|
         && s.value.tables.attempts[Last(trace).attempt].subscriberId == subscriber
      then if Last(trace).accepted then 0 else before + 1
      else before
  }

  function FailureCount(s: World, subscriber: nat): nat {
    if subscriber < |s.tables.subs| then s.tables.subs[subscriber].failureCount else 0
  }

  lemma CountStep(limit: nat, s: World, l: Label, subscriber: nat)
    requires limit > 0 && Inv(limit, s) && Step(limit, s, l).Some?
    ensures FailureCount(Step(limit, s, l).value, subscriber)
      == if l.Sent? && l.attempt < |s.tables.attempts| && s.tables.attempts[l.attempt].subscriberId == subscriber
         then (if l.accepted then 0 else FailureCount(s, subscriber) + 1) else FailureCount(s, subscriber)
  {
    if l.Sent? {
      SentKeeps(limit, s, l.w, l.attempt, l.accepted);
    } else if l.PrepareWebhook? {
      var id := s.workers[l.w].held[0];
      var trigger := TriggerFor(s.tables.effects[id].plan.name).value;
      if Prepare(s.tables, id, trigger, l.envelope, l.secrets).Some? { PrepareFrame(s.tables, id, trigger, l.envelope, l.secrets); }
    }
  }

  /** In every run, re-seeding included, `failure_count` is that number. */
  lemma {:induction false} FailureCountCountsFailures(limit: nat, trace: seq<Label>, subscriber: nat)
    requires limit > 0 && Exec(limit, trace).Some?
    ensures FailedSendsSinceSuccess(limit, trace, subscriber) == FailureCount(Exec(limit, trace).value, subscriber)
  {
    if trace != [] {
      FailureCountCountsFailures(limit, Init(trace), subscriber);
      InvHolds(limit, Init(trace));
      CountStep(limit, Exec(limit, Init(trace)).value, Last(trace), subscriber);
    }
  }

  // ---------- what never changes again ----------

  ghost predicate Evolves(t: Tables, t': Tables) {
    && |t.effects| <= |t'.effects|
    && (forall e :: 0 <= e < |t.effects| ==>
          && t'.effects[e].plan == t.effects[e].plan
          && (t.effects[e].status == EffectStatus.Delivered ==> t'.effects[e] == t.effects[e]))
    && (forall e :: e in t.deliveries ==> e in t'.deliveries && t'.deliveries[e] == t.deliveries[e])
    && |t.attempts| <= |t'.attempts|
    && (forall i :: 0 <= i < |t.attempts| ==>
          && t'.attempts[i].effectId == t.attempts[i].effectId
          && t'.attempts[i].subscriberId == t.attempts[i].subscriberId
          && t'.attempts[i].body == t.attempts[i].body
          && (!t.attempts[i].Pending() ==> t'.attempts[i] == t.attempts[i]))
    && (forall i :: |t.attempts| <= i < |t'.attempts| ==> !HasAttempts(t.attempts, t'.attempts[i].effectId))
    && |t.subs| <= |t'.subs|
    && (forall k :: 0 <= k < |t.subs| && t.subs[k].disabled ==> t'.subs[k].disabled && t'.subs[k].active == t.subs[k].active)
  }

  lemma EvolvesTransitive(a: Tables, b: Tables, c: Tables)
    requires Evolves(a, b) && Evolves(b, c)
    ensures Evolves(a, c)
  {
    forall x: nat | HasAttempts(a.attempts, x) ensures HasAttempts(b.attempts, x) {
      var j :| 0 <= j < |a.attempts| && a.attempts[j].effectId == x;
      assert b.attempts[j].effectId == x;
    }
  }

  lemma StepEvolves(limit: nat, s: World, l: Label)
    requires limit > 0 && Inv(limit, s) && Step(limit, s, l).Some?
    ensures Evolves(s.tables, Step(limit, s, l).value.tables)
  {
    match l
    case PlanEffects(plans) =>
      if SavePlanned(s.tables.effects, plans, s.now).Some? { SavePlannedAppends(s.tables.effects, plans, s.now); }
    case Claim(w, ids, at) => ClaimEvolves(s, ids);
    case PrepareWebhook(w, envelope, secrets) => PrepareEvolves(limit, s, l);
    case Sent(w, a, accepted) => SentEvolves(limit, s, w, a, accepted);
    case Answer(w, e, ok, at) => AnswerEvolves(limit, s, w, e, ok);
    case _ =>
  }

  lemma SentEvolves(limit: nat, s: World, w: nat, a: nat, accepted: bool)
    requires limit > 0 && Inv(limit, s) && WorkerStep(limit, s, Sent(w, a, accepted), w).Some?
    ensures Evolves(s.tables, WorkerStep(limit, s, Sent(w, a, accepted), w).value.tables)
  {
    SentKeeps(limit, s, w, a, accepted);
  }

  lemma AnswerEvolves(limit: nat, s: World, w: nat, e: nat, ok: bool)
    requires Inv(limit, s) && WorkerStep(limit, s, Answer(w, e, ok, s.now), w).Some?
    ensures Evolves(s.tables, WorkerStep(limit, s, Answer(w, e, ok, s.now), w).value.tables)
  {
    AnswerKeeps(limit, s, w, e, ok);
  }

  lemma ClaimEvolves(s: World, ids: seq<nat>)
    requires Claimable(s, ids)
    ensures Evolves(s.tables, s.tables.(effects := ClaimRows(s.tables.effects, ids)))
  {
    forall e | e in ids ensures e < |s.tables.effects| && s.tables.effects[e].status != EffectStatus.Delivered {
      var i :| 0 <= i < |ids| && ids[i] == e;
      assert Eligible(s.tables.effects[ids[i]], s.now);
    }
  }

  lemma PrepareEvolves(limit: nat, s: World, l: Label)
    requires Inv(limit, s) && l.PrepareWebhook? && Step(limit, s, l).Some?
    ensures Evolves(s.tables, Step(limit, s, l).value.tables)
  {
    var id := s.workers[l.w].held[0];
    var trigger := TriggerFor(s.tables.effects[id].plan.name).value;
    var p := Prepare(s.tables, id, trigger, l.envelope, l.secrets);
    if p.Some? {
      assert forall i :: |s.tables.attempts| <= i < |p.value.attempts| ==> p.value.attempts[i].effectId == id;
    }
  }

  /** Later worlds of a run only extend earlier ones: a delivered effect is final, the first
      envelope of an effect stays, every attempt keeps its body for ever, a settled attempt
      is never touched again, and an effect that has attempts never gets another. */
  lemma {:induction false} RunsEvolve(limit: nat, trace: seq<Label>, more: seq<Label>)
    requires limit > 0 && Exec(limit, trace + more).Some?
    ensures Exec(limit, trace).Some? && Evolves(Exec(limit, trace).value.tables, Exec(limit, trace + more).value.tables)
    decreases |more|
  {
    if more == [] {
      assert trace + more == trace;
    } else {
      assert Init(trace + more) == trace + Init(more);
      RunsEvolve(limit, trace, Init(more));
      InvHolds(limit, trace + Init(more));
      var s := Exec(limit, trace + Init(more)).value;
      StepEvolves(limit, s, Last(more));
      EvolvesTransitive(Exec(limit, trace).value.tables, s.tables, Exec(limit, trace + more).value.tables);
    }
  }

  /** Once an effect is delivered, every attempt recorded for it is delivered or dead-lettered
      and never both, at that moment and for ever after; and each attempt of any effect
      carries the body of the effect's one envelope. */
  lemma DeliveredEffectsAreSettled(limit: nat, trace: seq<Label>, more: seq<Label>, e: nat)
    requires limit > 0 && Exec(limit, trace + more).Some?
    requires Exec(limit, trace).Some? && e < |Exec(limit, trace).value.tables.effects|
    requires Exec(limit, trace).value.tables.effects[e].status == EffectStatus.Delivered
    ensures var t := Exec(limit, trace + more).value.tables;
      && e < |t.effects| && t.effects[e].status == EffectStatus.Delivered
      && forall i :: 0 <= i < |t.attempts| && t.attempts[i].effectId == e ==>
           && t.attempts[i].delivered != t.attempts[i].deadLettered
           && e in t.deliveries && t.attempts[i].body == t.deliveries[e].body
  {
    RunsEvolve(limit, trace, more);
    InvHolds(limit, trace + more);
    var t := Exec(limit, trace + more).value.tables;
    forall i | 0 <= i < |t.attempts| && t.attempts[i].effectId == e
      ensures t.attempts[i].delivered != t.attempts[i].deadLettered && e in t.deliveries && t.attempts[i].body == t.deliveries[e].body
    {
      assert AttemptOk(limit, t, t.attempts[i]);
      assert !IsPendingOf(t.attempts[i], e);
    }
  }

  /** A dead-lettered attempt's subscription is disabled and inactive, and stays so through
      every later send, claim and re-seeding. */
  lemma DeadLettersDisable(limit: nat, trace: seq<Label>, more: seq<Label>, a: nat)
    requires limit > 0 && Exec(limit, trace + more).Some?
    requires Exec(limit, trace).Some? && a < |Exec(limit, trace).value.tables.attempts|
    requires Exec(limit, trace).value.tables.attempts[a].deadLettered
    ensures var sub := Exec(limit, trace).value.tables.attempts[a].subscriberId;
      var subs := Exec(limit, trace + more).value.tables.subs;
      sub < |subs| && subs[sub].disabled && !subs[sub].active
  {
    RunsEvolve(limit, trace, more);
    InvHolds(limit, trace);
    var t := Exec(limit, trace).value.tables;
    assert AttemptOk(limit, t, t.attempts[a]);
  }

  lemma StoppedWorkersStay(limit: nat, s: World, l: Label, w: nat)
    requires Step(limit, s, l).Some? && w in s.workers && s.workers[w].phase == Stopped
    ensures w in Step(limit, s, l).value.workers && Step(limit, s, l).value.workers[w] == s.workers[w]
  {
  }

  /** Nothing reclaims a claim whose worker has stopped: its effect stays `processing` for ever,
      so delivery is not guaranteed across worker crashes. */
  lemma {:induction false} OrphanedClaimsStay(limit: nat, trace: seq<Label>, more: seq<Label>, w: nat, i: nat)
    requires limit > 0 && Exec(limit, trace).Some? && Exec(limit, trace + more).Some?
    requires Holds(Exec(limit, trace).value.workers, w, i) && Exec(limit, trace).value.workers[w].phase == Stopped
    ensures var s, s' := Exec(limit, trace).value, Exec(limit, trace + more).value;
      && w in s'.workers && s'.workers[w] == s.workers[w]
      && s.workers[w].held[i] < |s'.tables.effects|
      && s'.tables.effects[s.workers[w].held[i]].status == Processing
    decreases |more|
  {
    if more == [] {
      assert trace + more == trace;
    } else {
      assert Init(trace + more) == trace + Init(more);
      OrphanedClaimsStay(limit, trace, Init(more), w, i);
      StoppedWorkersStay(limit, Exec(limit, trace + Init(more)).value, Last(more), w);
    }
    InvHolds(limit, trace + more);
    assert Holds(Exec(limit, trace + more).value.workers, w, i);
    assert Held(Exec(limit, trace + more).value.workers, w, i) == Exec(limit, trace).value.workers[w].held[i];
  }
}
