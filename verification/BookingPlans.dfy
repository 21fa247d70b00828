/** What each answered change leaves in the outbox: exactly the effects it plans, written out, minus
    those whose key an earlier call has planned. */
module BookingPlans {
  import opened Lib
  import opened WebhookTables
  import opened Bookings
  import opened BookingGuarantees

  function AsSet(plans: seq<PlannedEffect>): set<PlannedEffect> { set p | p in plans }

  /** The new rows are planned effects whose key was missing, fresh and due now; every planned effect
      has its one row. */
  ghost predicate Grows(before: seq<Effect>, after: seq<Effect>, plans: set<PlannedEffect>, now: int) {
    && before <= after && UniqueKeys(after)
    && (forall i :: |before| <= i < |after| ==> after[i].plan in plans && !HasPlanKey(before, after[i].plan))
    && (forall i :: |before| <= i < |after| ==> after[i].status == Planned && after[i].attempts == 0 && after[i].nextAttemptAt == now)
    && forall p :: p in plans ==> HasPlanKey(after, p)
  }

  lemma KeyStays(before: seq<Effect>, after: seq<Effect>, p: PlannedEffect)
    requires before <= after && HasPlanKey(before, p)
    ensures HasPlanKey(after, p)
  {
    var i :| 0 <= i < |before| && SamePlanKey(before[i].plan, p);
    assert after[i] == before[i];
  }

  lemma {:induction false} SavedGrows(outbox: seq<Effect>, plans: seq<PlannedEffect>, now: int)
    requires UniqueKeys(outbox) && SavePlanned(outbox, plans, now).Some?
    ensures Grows(outbox, SavePlanned(outbox, plans, now).value, AsSet(plans), now)
    decreases |plans|
  {
    if plans != [] {
      var next := SaveOnePlanned(outbox, plans[0], now);
      OnePlanned(outbox, plans[0], now);
      SavedGrows(next, plans[1..], now);
      GrowsOnce(outbox, next, SavePlanned(outbox, plans, now).value, plans, now);
    }
  }

  lemma NewRow(outbox: seq<Effect>, p: PlannedEffect, now: int, after: seq<Effect>, i: nat)
    requires |outbox| <= i < |after| && SaveOnePlanned(outbox, p, now) <= after
    requires i >= |SaveOnePlanned(outbox, p, now)| ==> !HasPlanKey(SaveOnePlanned(outbox, p, now), after[i].plan)
    ensures !HasPlanKey(outbox, after[i].plan)
    ensures i < |SaveOnePlanned(outbox, p, now)| ==> after[i] == Effect(p, Planned, 0, now)
  {
    var next := SaveOnePlanned(outbox, p, now);
    if i < |next| {
      assert after[i] == next[i];
    } else if HasPlanKey(outbox, after[i].plan) {
      KeyStays(outbox, next, after[i].plan);
    }
  }

  lemma GrowsOnce(outbox: seq<Effect>, next: seq<Effect>, after: seq<Effect>, plans: seq<PlannedEffect>, now: int)
    requires plans != [] && next == SaveOnePlanned(outbox, plans[0], now) && HasPlanKey(next, plans[0]) && outbox <= next
    requires Grows(next, after, AsSet(plans[1..]), now)
    ensures Grows(outbox, after, AsSet(plans), now)
  {
    forall p | p in AsSet(plans) ensures HasPlanKey(after, p) {
      if p == plans[0] { KeyStays(next, after, p); } else { assert p in plans[1..]; }
    }
    forall i | |outbox| <= i < |after|
      ensures after[i].plan in AsSet(plans) && !HasPlanKey(outbox, after[i].plan)
      ensures after[i].status == Planned && after[i].attempts == 0 && after[i].nextAttemptAt == now
    {
      NewRow(outbox, plans[0], now, after, i);
      assert i >= |next| ==> after[i].plan in AsSet(plans[1..]);
    }
  }

  lemma PutGrows(s: State, plans: seq<PlannedEffect>, env: Env)
    requires StateOk(s) && s.repo.Some? && Goes(s, plans, env)
    ensures Grows(s.repo.value.outbox, NewOutbox(s, plans, env), AsSet(plans), env.now)
  {
    SavedGrows(s.repo.value.outbox, plans, env.now);
  }

  /** What a calendar effect is told of the booking: the references it has. */
  function Refs(b: Booking): string {
    (if b.selectedRef != "" then "selectedCalendarRef" + "=" + b.selectedRef + ";" else "")
    + (if b.destinationRef != "" then "destinationCalendarRef" + "=" + b.destinationRef + ";" else "")
    + (if b.externalId != "" then "externalEventId" + "=" + b.externalId + ";" else "")
  }

  /** The effects of a change, by the booking it leaves. */
  function OfCancellation(b: Booking, reason: string): set<PlannedEffect> {
    {PlannedEffect(CalendarCancelled, b.uid, b.requestId, Refs(b)),
     PlannedEffect(EmailCancelled, b.uid, b.requestId, "cancellationReason=" + reason),
     PlannedEffect(WebhookCancelled, b.uid, b.requestId, "cancellationReason=" + reason)}
  }

  function OfConfirmation(b: Booking): set<PlannedEffect> {
    {PlannedEffect(EmailConfirmed, b.uid, b.requestId, ""), PlannedEffect(WebhookConfirmed, b.uid, b.requestId, "")}
  }

  function OfDecline(b: Booking, reason: string): set<PlannedEffect> {
    {PlannedEffect(EmailDeclined, b.uid, b.requestId, "reason=" + reason), PlannedEffect(WebhookDeclined, b.uid, b.requestId, "reason=" + reason)}
  }

  function OfReschedule(was: Booking, now: Booking, reason: string): set<PlannedEffect> {
    var previous := if was.externalId != "" then "previousExternalEventId" + "=" + was.externalId + ";" else "";
    {PlannedEffect(CalendarRescheduled, now.uid, now.requestId, Refs(now) + "rescheduleUid=" + was.uid + ";" + previous),
     PlannedEffect(EmailRescheduled, now.uid, now.requestId, "rescheduleUid=" + was.uid + ";reschedulingReason=" + reason),
     PlannedEffect(WebhookRescheduled, now.uid, now.requestId, "rescheduleUid=" + was.uid + ";reschedulingReason=" + reason)}
  }

  lemma HintsAreRefs(b: Booking)
    ensures CalendarHints(b) == Refs(b)
  {
  }

  lemma CancellationPlan(b: Booking, reason: string)
    ensures AsSet(PlanCancelled(b, reason)) == OfCancellation(b, reason)
  {
    HintsAreRefs(b);
    var plans := PlanCancelled(b, reason);
    assert plans[0] in plans && plans[1] in plans && plans[2] in plans;
  }

  lemma ConfirmationPlan(b: Booking)
    ensures AsSet(PlanConfirmed(b)) == OfConfirmation(b)
  {
    var plans := PlanConfirmed(b);
    assert plans[0] in plans && plans[1] in plans;
  }

  lemma DeclinePlan(b: Booking, reason: string)
    ensures AsSet(PlanDeclined(b, reason)) == OfDecline(b, reason)
  {
    var plans := PlanDeclined(b, reason);
    assert plans[0] in plans && plans[1] in plans;
  }

  lemma ReschedulePlan(was: Booking, now: Booking, reason: string)
    ensures AsSet(PlanRescheduled(was, now, reason)) == OfReschedule(was, now, reason)
  {
    HintsAreRefs(now);
    var plans := PlanRescheduled(was, now, reason);
    assert plans[0] in plans && plans[1] in plans && plans[2] in plans;
  }

  /** An answered change over a repository adds exactly its missing effects, for the booking it
      answers, in the transaction that saves the booking. */
  lemma CancelGrows(s: State, requestId: string, uid: string, reason: string, env: Env)
    requires StateOk(s) && s.repo.Some? && Cancel(s, requestId, uid, reason, env).0.Answered?
    ensures var (answer, s') := Cancel(s, requestId, uid, reason, env); var found := Find(s, requestId, uid, env).1;
      && |answer.bookings| == 1 && found.repo.Some? && s'.repo.Some?
      && Grows(found.repo.value.outbox, s'.repo.value.outbox, OfCancellation(answer.bookings[0], reason), env.now)
  {
    FindKeeps(s, requestId, uid, env);
    CancelPuts(s, requestId, uid, reason, env);
    var found := Find(s, requestId, uid, env).1;
    var c := Cancelled(requestId, found.bookings[uid]);
    PutGrows(found, PlanCancelled(c, reason), env);
    CancellationPlan(c, reason);
    assert Cancel(s, requestId, uid, reason, env).0 == Answered([c]);
  }

  lemma ConfirmGrows(s: State, requestId: string, uid: string, env: Env)
    requires StateOk(s) && s.repo.Some? && Confirm(s, requestId, uid, env).0.Answered?
    ensures var (answer, s') := Confirm(s, requestId, uid, env); var found := Find(s, requestId, uid, env).1;
      && |answer.bookings| == 1 && found.repo.Some? && s'.repo.Some?
      && Grows(found.repo.value.outbox, s'.repo.value.outbox, OfConfirmation(answer.bookings[0]), env.now)
  {
    FindKeeps(s, requestId, uid, env);
    var b, found := ConfirmPuts(s, requestId, uid, env);
    var c := Confirmed(requestId, b);
    PutGrows(found, PlanConfirmed(c), env);
    ConfirmationPlan(c);
    assert Confirm(s, requestId, uid, env).0 == Answered([c]);
  }

  lemma DeclineGrows(s: State, requestId: string, uid: string, reason: string, env: Env)
    requires StateOk(s) && s.repo.Some? && Decline(s, requestId, uid, reason, env).0.Answered?
    ensures var (answer, s') := Decline(s, requestId, uid, reason, env); var found := Find(s, requestId, uid, env).1;
      && |answer.bookings| == 1 && found.repo.Some? && s'.repo.Some?
      && Grows(found.repo.value.outbox, s'.repo.value.outbox, OfDecline(answer.bookings[0], reason), env.now)
  {
    FindKeeps(s, requestId, uid, env);
    var b, found := DeclinePuts(s, requestId, uid, reason, env);
    var d := Declined(requestId, b);
    PutGrows(found, PlanDeclined(d, reason), env);
    DeclinePlan(d, reason);
    assert Decline(s, requestId, uid, reason, env).0 == Answered([d]);
  }

  lemma RescheduleGrows(s: State, requestId: string, uid: string, start: Option<int>, reason: string, env: Env)
    requires StateOk(s) && s.repo.Some? && Reschedule(s, requestId, uid, start, reason, env).0.Answered?
    ensures var (answer, s') := Reschedule(s, requestId, uid, start, reason, env); var found := Find(s, requestId, uid, env).1;
      && |answer.bookings| == 2 && found.repo.Some? && s'.repo.Some?
      && Grows(found.repo.value.outbox, s'.repo.value.outbox, OfReschedule(answer.bookings[0], answer.bookings[1], reason), env.now)
  {
    FindKeeps(s, requestId, uid, env);
    ReschedulePuts(s, requestId, uid, start, reason, env);
    var found, at := Find(s, requestId, uid, env).1, if start.Some? then start.value else RESCHEDULE_START;
    var (was, now) := Rescheduled(requestId, found.bookings[uid], at);
    PutGrows(found, PlanRescheduled(was, now, reason), env);
    ReschedulePlan(was, now, reason);
    RescheduleAnswers(s, requestId, uid, start, reason, env);
  }

  lemma RescheduleAnswers(s: State, requestId: string, uid: string, start: Option<int>, reason: string, env: Env)
    requires StateOk(s) && Reschedule(s, requestId, uid, start, reason, env).0.Answered?
    ensures var (was, found) := Find(s, requestId, uid, env); var at := if start.Some? then start.value else RESCHEDULE_START;
      && was.Answered? && |was.bookings| == 1 && uid in found.bookings && found.bookings[uid] == was.bookings[0]
      && var (old', now) := Rescheduled(requestId, found.bookings[uid], at); Reschedule(s, requestId, uid, start, reason, env).0 == Answered([old', now])
  {
    RescheduleFinds(s, requestId, uid, start, reason, env);
    var b, found := Located(s, requestId, uid, env);
    RescheduleShape(s, requestId, uid, start, reason, env, b, found);
  }
}
