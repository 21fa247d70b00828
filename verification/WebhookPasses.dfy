/** What becomes of the batch a worker has claimed, in the middle of everybody else's work. */
module WebhookPasses {
  import opened Lib
  import opened WebhookTables
  import opened WebhookWorkers
  import opened WebhookGuarantees

  datatype Reply = Reply(e: nat, ok: bool)

  /** The ids of the last claim of `w`. */
  function Batch(trace: seq<Label>, w: nat): seq<nat> {
    if trace == [] then []
    else if Last(trace).Claim? && Last(trace).w == w then Last(trace).ids
    else Batch(Init(trace), w)
  }

  /** The answers of `w` since its last claim. */
  function Replies(trace: seq<Label>, w: nat): seq<Reply> {
    if trace == [] then []
    else
      var l := Last(trace);
      if l.Claim? && l.w == w then []
      else if l.Answer? && l.w == w then Replies(Init(trace), w) + [Reply(l.e, l.ok)]
      else Replies(Init(trace), w)
  }

  function Effects(replies: seq<Reply>): (r: seq<nat>)
    ensures |r| == |replies| && forall i :: 0 <= i < |r| ==> r[i] == replies[i].e
  {
    seq(|replies|, i requires 0 <= i < |replies| => replies[i].e)
  }

  function Count(replies: seq<Reply>, ok: bool): nat {
    if replies == [] then 0 else Count(replies[..|replies| - 1], ok) + if replies[|replies| - 1].ok == ok then 1 else 0
  }

  ghost predicate Distinct(ids: seq<nat>) { forall i, j :: 0 <= i < j < |ids| ==> ids[i] != ids[j] }

  /** Only the claims and answers of a worker change what it holds, and an answer is for the first. */
  lemma HeldStep(limit: nat, s: World, l: Label, w: nat)
    requires limit > 0 && Inv(limit, s) && Step(limit, s, l).Some?
    ensures var held, held' := Of(s.workers, w).held, Of(Step(limit, s, l).value.workers, w).held;
      if l.Claim? && l.w == w then held == [] && held' == l.ids && Distinct(l.ids)
      else if l.Answer? && l.w == w then held != [] && held[0] == l.e && held' == held[1..]
      else held' == held
  {
    if l.Answer? && l.w == w { AnswerKeeps(limit, s, w, l.e, l.ok); }
  }

  lemma BatchStep(trace: seq<Label>, w: nat, held: seq<nat>, held': seq<nat>)
    requires trace != [] && Effects(Replies(Init(trace), w)) + held == Batch(Init(trace), w)
    requires var l := Last(trace);
      if l.Claim? && l.w == w then held' == l.ids
      else if l.Answer? && l.w == w then held != [] && held[0] == l.e && held' == held[1..]
      else held' == held
    ensures Effects(Replies(trace, w)) + held' == Batch(trace, w)
  {
    var l := Last(trace);
    if l.Answer? && l.w == w {
      assert Effects(Replies(trace, w)) == Effects(Replies(Init(trace), w)) + [l.e];
      assert held == [l.e] + held';
    } else if l.Claim? && l.w == w {
      assert Effects([]) == [];
    }
  }

  /** The batch of a worker is what it has answered since the claim, in order, and what it holds. */
  lemma {:induction false} BatchHolds(limit: nat, trace: seq<Label>, w: nat)
    requires limit > 0 && Exec(limit, trace).Some?
    ensures Effects(Replies(trace, w)) + Of(Exec(limit, trace).value.workers, w).held == Batch(trace, w)
    ensures Distinct(Batch(trace, w))
  {
    if trace != [] {
      BatchHolds(limit, Init(trace), w);
      InvHolds(limit, Init(trace));
      var s := Exec(limit, Init(trace)).value;
      HeldStep(limit, s, Last(trace), w);
      BatchStep(trace, w, Of(s.workers, w).held, Of(Exec(limit, trace).value.workers, w).held);
    }
  }

  lemma {:induction false} CountsSum(replies: seq<Reply>)
    ensures Count(replies, true) + Count(replies, false) == |replies|
    decreases |replies|
  {
    if replies != [] { CountsSum(replies[..|replies| - 1]); }
  }

  /** A worker with nothing left to answer, as every worker is that ends a pass without an error,
      has answered each effect of its batch exactly once: claimed = delivered + failed. */
  lemma PassAnswersItsBatch(limit: nat, trace: seq<Label>, w: nat)
    requires limit > 0 && Exec(limit, trace).Some? && Of(Exec(limit, trace).value.workers, w).held == []
    ensures Effects(Replies(trace, w)) == Batch(trace, w) && Distinct(Batch(trace, w))
    ensures |Batch(trace, w)| == Count(Replies(trace, w), true) + Count(Replies(trace, w), false)
  {
    BatchHolds(limit, trace, w);
    CountsSum(Replies(trace, w));
  }

  /** And no worker claims again before that. */
  lemma ClaimsFollowAnswers(limit: nat, trace: seq<Label>, w: nat, ids: seq<nat>, at: int)
    requires limit > 0 && Exec(limit, trace + [Claim(w, ids, at)]).Some?
    ensures Exec(limit, trace).Some? && Effects(Replies(trace, w)) == Batch(trace, w) && Distinct(Batch(trace, w))
    ensures |Batch(trace, w)| == Count(Replies(trace, w), true) + Count(Replies(trace, w), false)
  {
    assert Init(trace + [Claim(w, ids, at)]) == trace;
    PassAnswersItsBatch(limit, trace, w);
  }

  // ---------- answers stand until the next claim ----------

  predicate ClaimedIn(labels: seq<Label>, e: nat) { exists i :: 0 <= i < |labels| && labels[i].Claim? && e in labels[i].ids }

  function Outcome(ok: bool): EffectStatus { if ok then EffectStatus.Delivered else Failed }

  /** Only a claim that names an answered effect changes its status. */
  lemma AnsweredStays(limit: nat, s: World, l: Label, e: nat)
    requires limit > 0 && Inv(limit, s) && Step(limit, s, l).Some? && e < |s.tables.effects|
    requires s.tables.effects[e].status != Processing && !(l.Claim? && e in l.ids)
    ensures e < |Step(limit, s, l).value.tables.effects| && Step(limit, s, l).value.tables.effects[e] == s.tables.effects[e]
  {
    if l.Answer? {
      AnswerKeeps(limit, s, l.w, l.e, l.ok);
    } else if l.PlanEffects? {
      if SavePlanned(s.tables.effects, l.plans, s.now).Some? { SavePlannedAppends(s.tables.effects, l.plans, s.now); }
    } else if !l.Tick? && !l.Claim? {
      OtherStepsLeaveEffects(limit, s, l);
    }
  }

  /** What is known of an answered effect after some further steps. */
  ghost predicate Stands(effects: seq<Effect>, e: nat, ok: bool, after: seq<Label>) {
    && e < |effects|
    && (!ClaimedIn(after, e) || ok ==> effects[e].status == Outcome(ok))
    && (effects[e].status == Processing ==> ClaimedIn(after, e))
  }

  lemma ClaimedLater(after: seq<Label>, e: nat)
    requires after != []
    ensures ClaimedIn(after, e) <==> ClaimedIn(Init(after), e) || (Last(after).Claim? && e in Last(after).ids)
  {
    if ClaimedIn(Init(after), e) {
      var i :| 0 <= i < |Init(after)| && Init(after)[i].Claim? && e in Init(after)[i].ids;
      assert after[i] == Init(after)[i];
    }
    if i :| 0 <= i < |after| && after[i].Claim? && e in after[i].ids {
      if i < |after| - 1 { assert Init(after)[i] == after[i]; }
    }
  }

  lemma StillStands(limit: nat, s: World, e: nat, ok: bool, after: seq<Label>)
    requires limit > 0 && Inv(limit, s) && after != [] && Step(limit, s, Last(after)).Some?
    requires Stands(s.tables.effects, e, ok, Init(after))
    ensures Stands(Step(limit, s, Last(after)).value.tables.effects, e, ok, after)
  {
    ClaimedLater(after, e);
    StepEvolves(limit, s, Last(after));
    if Last(after).Claim? && e in Last(after).ids {
      var i :| 0 <= i < |Last(after).ids| && Last(after).ids[i] == e;
      assert Eligible(s.tables.effects[Last(after).ids[i]], s.now);
    } else if s.tables.effects[e].status != Processing {
      AnsweredStays(limit, s, Last(after), e);
    }
  }

  /** An answered effect has the status of the answer until a claim names it again; a delivered one
      for ever. */
  lemma {:induction false} AnswersStand(limit: nat, before: seq<Label>, l: Label, after: seq<Label>)
    requires limit > 0 && l.Answer? && Exec(limit, before + [l] + after).Some?
    ensures Stands(Exec(limit, before + [l] + after).value.tables.effects, l.e, l.ok, after)
    decreases |after|
  {
    if after == [] {
      assert before + [l] + after == before + [l];
      MarksNeverMiss(limit, before, l);
    } else {
      var init := before + [l] + Init(after);
      assert Init(before + [l] + after) == init && Last(before + [l] + after) == Last(after);
      AnswersStand(limit, before, l, Init(after));
      InvHolds(limit, init);
      StillStands(limit, Exec(limit, init).value, l.e, l.ok, after);
    }
  }

  /** Where in the trace an answer of the batch stands. */
  lemma {:induction false} ReplyInTrace(trace: seq<Label>, w: nat, k: nat) returns (before: seq<Label>, at: int, after: seq<Label>)
    requires k < |Replies(trace, w)|
    ensures trace == before + [Answer(w, Replies(trace, w)[k].e, Replies(trace, w)[k].ok, at)] + after
    decreases |trace|
  {
    var l := Last(trace);
    if l.Answer? && l.w == w && k == |Replies(trace, w)| - 1 {
      before, at, after := Init(trace), l.at, [];
    } else {
      before, at, after := ReplyInTrace(Init(trace), w, k);
      after := after + [l];
      assert trace == Init(trace) + [l];
    }
  }

  /** When a pass has ended, each effect of its batch has the status it was answered with, unless
      somebody has claimed it since the answer; only then can it be `processing`. */
  lemma PassLeavesNothingProcessing(limit: nat, trace: seq<Label>, w: nat, k: nat) returns (before: seq<Label>, at: int, after: seq<Label>)
    requires limit > 0 && Exec(limit, trace).Some? && Of(Exec(limit, trace).value.workers, w).held == []
    requires k < |Batch(trace, w)|
    ensures |Replies(trace, w)| == |Batch(trace, w)|
    ensures var e, ok := Batch(trace, w)[k], Replies(trace, w)[k].ok; var effects := Exec(limit, trace).value.tables.effects;
      trace == before + [Answer(w, e, ok, at)] + after && Stands(effects, e, ok, after)
  {
    PassAnswersItsBatch(limit, trace, w);
    before, at, after := ReplyInTrace(trace, w, k);
    var reply := Replies(trace, w)[k];
    assert Effects(Replies(trace, w))[k] == reply.e;
    AnswersStand(limit, before, Answer(w, reply.e, reply.ok, at), after);
  }

  // ---------- when an effect can be claimed ----------

  /** When `e` was last answered "failed". */
  function LastFailure(trace: seq<Label>, e: nat): Option<int> {
    if trace == [] then None
    else if Last(trace).Answer? && Last(trace).e == e && !Last(trace).ok then Some(Last(trace).at)
    else LastFailure(Init(trace), e)
  }

  /** A planned effect is due at once; a failed one is due min(60, 5n) after its n-th failure. */
  ghost predicate DueOk(trace: seq<Label>, s: World, e: nat) {
    e < |s.tables.effects| ==>
      match s.tables.effects[e].status
      case Planned => s.tables.effects[e].nextAttemptAt <= s.now
      case Failed =>
        LastFailure(trace, e).Some?
        && s.tables.effects[e].nextAttemptAt == LastFailure(trace, e).value + (if Failures(trace, e) >= 12 then 60 else 5 * Failures(trace, e))
      case _ => true
  }

  lemma DueStep(limit: nat, trace: seq<Label>, s: World, e: nat)
    requires limit > 0 && trace != [] && Inv(limit, s) && ClockOk(Init(trace), s, e) && DueOk(Init(trace), s, e)
    requires Step(limit, s, Last(trace)).Some?
    ensures DueOk(trace, Step(limit, s, Last(trace)).value, e)
  {
    var l := Last(trace);
    if l.Answer? {
      AnswerKeeps(limit, s, l.w, l.e, l.ok);
    } else if l.PlanEffects? {
      if SavePlanned(s.tables.effects, l.plans, s.now).Some? { SavePlannedAppends(s.tables.effects, l.plans, s.now); }
    } else if !TouchesEffects(l) {
      OtherStepsLeaveEffects(limit, s, l);
    }
  }

  lemma {:induction false} DueHolds(limit: nat, trace: seq<Label>, e: nat)
    requires limit > 0 && Exec(limit, trace).Some?
    ensures DueOk(trace, Exec(limit, trace).value, e)
  {
    if trace != [] {
      DueHolds(limit, Init(trace), e);
      InvHolds(limit, Init(trace));
      ClockHolds(limit, Init(trace), e);
      DueStep(limit, trace, Exec(limit, Init(trace)).value, e);
    }
  }

  /** An idle worker can claim an effect if and only if it is planned, or its last answer was its
      n-th failure and min(60, 5n) seconds have passed since. */
  lemma ClaimableExactlyWhen(limit: nat, trace: seq<Label>, w: nat, e: nat)
    requires limit > 0 && Exec(limit, trace).Some? && Of(Exec(limit, trace).value.workers, w) == Worker([], Ready)
    ensures var s := Exec(limit, trace).value;
      Step(limit, s, Claim(w, [e], s.now)).Some? <==>
        && e < |s.tables.effects|
        && (s.tables.effects[e].status == Planned
            || (s.tables.effects[e].status == Failed && LastFailure(trace, e).Some?
                && s.now >= LastFailure(trace, e).value + if Failures(trace, e) >= 12 then 60 else 5 * Failures(trace, e)))
  {
    DueHolds(limit, trace, e);
    var s := Exec(limit, trace).value;
    assert Claimable(s, [e]) <==> e < |s.tables.effects| && Eligible(s.tables.effects[e], s.now) by { assert [e][0] == e; }
  }
}
