/** The booking Store's cache and repository agree after every call; bookings and their effects are
    saved together or not at all; and repeating a cancellation plans nothing new. */
module BookingGuarantees {
  import opened Lib
  import opened WebhookTables
  import opened Bookings

  ghost predicate HalfHour(b: Booking) { b.start.Some? && b.end == Some(b.start.value + DURATION) }

  ghost predicate CachedOk(s: State, uid: string) {
    uid in s.bookings && s.bookings[uid].uid == uid != "" && HalfHour(s.bookings[uid])
    && (s.repo.Some? ==> uid in s.repo.value.bookings && s.repo.value.bookings[uid] == Persisted(s.bookings[uid]))
  }

  ghost predicate RepoOk(r: Repo) {
    && (forall uid :: uid in r.bookings ==> r.bookings[uid].uid == uid != "" && HalfHour(r.bookings[uid]) && Persisted(r.bookings[uid]) == r.bookings[uid])
    && (forall k :: k in r.keys ==> r.keys[k] in r.bookings)
    && UniqueKeys(r.outbox)
  }

  ghost predicate UniqueKeys(outbox: seq<Effect>) {
    forall i, j :: 0 <= i < j < |outbox| ==> !SamePlanKey(outbox[i].plan, outbox[j].plan)
  }

  /** The cache is the repository's bookings on persisted fields, for every booking it holds. */
  ghost predicate StateOk(s: State) {
    && (forall uid :: uid in s.bookings ==> CachedOk(s, uid))
    && (s.repo.Some? ==> RepoOk(s.repo.value))
    && (forall k :: k in s.idempotency ==> s.idempotency[k] in s.bookings && (s.repo.Some? ==> k in s.repo.value.keys && s.repo.value.keys[k] == s.idempotency[k]))
  }

  // ---------- values ----------

  /** A changed booking keeps its times, or takes a new start with its end. */
  lemma ChangedIsHalfHour(requestId: string, b: Booking, o: Booking)
    requires HalfHour(b) && ((o.start.None? && o.end.None?) || HalfHour(o))
    ensures HalfHour(Changed(requestId, b, o))
  {
  }

  /** A request id, once set, survives every change; the caller's is used only in its absence. */
  lemma RequestIdSurvives(requestId: string, b: Booking, o: Booking)
    requires o.requestId == ""
    ensures Changed(requestId, b, o).requestId == if b.requestId != "" then b.requestId else requestId
    ensures o.uid == "" && b.uid != "" ==> Changed(requestId, b, o).uid == b.uid
  {
  }

  /** Every created booking has the one fixture UID, whoever creates it and with whatever key. */
  lemma CreatedUidIsFixed(requestId: string, q: CreateRequest)
    ensures Created(requestId, q).uid == PRIMARY_UID && HalfHour(Created(requestId, q)) && Created(requestId, q).requestId == requestId
  {
  }

  // ---------- the outbox ----------

  lemma {:induction false} SavePlannedAppends(outbox: seq<Effect>, plans: seq<PlannedEffect>, now: int)
    requires UniqueKeys(outbox) && SavePlanned(outbox, plans, now).Some?
    ensures var r := SavePlanned(outbox, plans, now).value;
      && outbox <= r && UniqueKeys(r)
      && (forall p :: p in plans ==> HasPlanKey(r, p))
      && (forall p :: HasPlanKey(outbox, p) ==> HasPlanKey(r, p))
    decreases |plans|
  {
    if plans != [] {
      var next := SaveOnePlanned(outbox, plans[0], now);
      OnePlanned(outbox, plans[0], now);
      SavePlannedAppends(next, plans[1..], now);
      assert plans == [plans[0]] + plans[1..];
    }
  }

  lemma OnePlanned(outbox: seq<Effect>, p: PlannedEffect, now: int)
    requires UniqueKeys(outbox)
    ensures var r := SaveOnePlanned(outbox, p, now);
      && outbox <= r && UniqueKeys(r) && HasPlanKey(r, p)
      && forall q :: HasPlanKey(outbox, q) ==> HasPlanKey(r, q)
  {
    var r := SaveOnePlanned(outbox, p, now);
    if !HasPlanKey(outbox, p) {
      assert r[|outbox|].plan == p;
      forall q | HasPlanKey(outbox, q) ensures HasPlanKey(r, q) {
        var i :| 0 <= i < |outbox| && SamePlanKey(outbox[i].plan, q);
        assert r[i] == outbox[i];
      }
    }
  }

  /** Effects already planned are not planned again. */
  lemma {:induction false} SavedPlansStay(outbox: seq<Effect>, plans: seq<PlannedEffect>, now: int)
    requires forall p :: p in plans ==> HasPlanKey(outbox, p) && ValidPlan(p)
    ensures SavePlanned(outbox, plans, now) == Some(outbox)
    decreases |plans|
  {
    if plans != [] { SavedPlansStay(outbox, plans[1..], now); }
  }

  // ---------- every call ----------

  /** The one move all calls make: a booking into the cache and, as a row, into the repository. */
  function Put(s: State, b: Booking, outbox: seq<Effect>): State {
    s.(bookings := s.bookings[b.uid := b],
       repo := match s.repo
               case None => None
               case Some(r) => Some(r.(bookings := r.bookings[b.uid := Persisted(b)], outbox := outbox)))
  }

  lemma PutKeeps(s: State, b: Booking, outbox: seq<Effect>)
    requires StateOk(s) && HalfHour(b) && b.uid != "" && UniqueKeys(outbox)
    ensures StateOk(Put(s, b, outbox))
  {
    var s' := Put(s, b, outbox);
    forall uid | uid in s'.bookings ensures CachedOk(s', uid) { assert uid != b.uid ==> CachedOk(s, uid); }
    if s.repo.Some? { PutKeepsRepo(s.repo.value, b, outbox); }
  }

  lemma PutKeepsRepo(r: Repo, b: Booking, outbox: seq<Effect>)
    requires RepoOk(r) && HalfHour(b) && b.uid != "" && UniqueKeys(outbox)
    ensures RepoOk(r.(bookings := r.bookings[b.uid := Persisted(b)], outbox := outbox))
  {
  }

  /** Reading a stored booking into the cache. */
  lemma CacheKeeps(s: State, uid: string)
    requires StateOk(s) && s.repo.Some? && uid in s.repo.value.bookings
    ensures StateOk(Cache(s, s.repo.value.bookings[uid]))
  {
    var s' := Cache(s, s.repo.value.bookings[uid]);
    forall u | u in s'.bookings ensures CachedOk(s', u) { assert u != uid ==> CachedOk(s, u); }
  }

  lemma SavedOne(m: map<string, Booking>, c: map<string, Booking>, b: Booking)
    ensures SaveRows(m, [b]) == m[b.uid := Persisted(b)] && CacheAll(c, [b], [b.uid]) == c[b.uid := b]
  {
    assert [b][..|[b]| - 1] == [] && [b.uid][..|[b.uid]| - 1] == [];
    assert SaveRows(m, []) == m && CacheAll(c, [], []) == c;
  }

  lemma SavedTwo(m: map<string, Booking>, c: map<string, Booking>, a: Booking, b: Booking)
    ensures SaveRows(m, [a, b]) == m[a.uid := Persisted(a)][b.uid := Persisted(b)]
    ensures CacheAll(c, [a, b], [a.uid, b.uid]) == c[a.uid := a][b.uid := b]
  {
    assert [a, b][..|[a, b]| - 1] == [a] && [a.uid, b.uid][..|[a.uid, b.uid]| - 1] == [a.uid];
    SavedOne(m, c, a);
  }

  function OutboxOf(s: State): seq<Effect> { if s.repo.Some? then s.repo.value.outbox else [] }

  /** Whether a change goes through. */
  predicate Goes(s: State, plans: seq<PlannedEffect>, env: Env) {
    s.repo.None? || (env.canSave && SavePlanned(s.repo.value.outbox, plans, env.now).Some?)
  }

  function NewOutbox(s: State, plans: seq<PlannedEffect>, env: Env): seq<Effect>
    requires Goes(s, plans, env)
  {
    if s.repo.Some? then SavePlanned(s.repo.value.outbox, plans, env.now).value else []
  }

  /** A change either puts its bookings, with the whole of its plan in the same transaction, or
      touches neither the cache nor the repository. */
  lemma ConcludeOne(s: State, plans: seq<PlannedEffect>, b: Booking, env: Env)
    ensures Conclude(s, plans, [b], [b.uid], env)
      == if Goes(s, plans, env) then (Answered([b]), Put(s, b, NewOutbox(s, plans, env))) else (Errored, s)
  {
    SavedOne(if s.repo.Some? then s.repo.value.bookings else map[], s.bookings, b);
  }

  lemma ConcludeTwo(s: State, plans: seq<PlannedEffect>, a: Booking, b: Booking, env: Env)
    ensures Conclude(s, plans, [a, b], [a.uid, b.uid], env)
      == if Goes(s, plans, env) then (Answered([a, b]), Put(Put(s, a, NewOutbox(s, plans, env)), b, NewOutbox(s, plans, env))) else (Errored, s)
  {
    SavedTwo(if s.repo.Some? then s.repo.value.bookings else map[], s.bookings, a, b);
  }

  lemma NewOutboxOk(s: State, plans: seq<PlannedEffect>, env: Env)
    requires StateOk(s) && Goes(s, plans, env)
    ensures UniqueKeys(NewOutbox(s, plans, env))
  {
    if s.repo.Some? { SavePlannedAppends(s.repo.value.outbox, plans, env.now); }
  }

  lemma ConcludeKeeps(s: State, plans: seq<PlannedEffect>, b: Booking, env: Env)
    requires StateOk(s) && HalfHour(b) && b.uid != ""
    ensures StateOk(Conclude(s, plans, [b], [b.uid], env).1)
  {
    ConcludeOne(s, plans, b, env);
    if Goes(s, plans, env) {
      NewOutboxOk(s, plans, env);
      PutKeeps(s, b, NewOutbox(s, plans, env));
    }
  }

  ghost predicate FoundOk(s: State, requestId: string, uid: string, env: Env) {
    var (answer, s') := Find(s, requestId, uid, env);
    && StateOk(s')
    && (answer.Answered? ==>
         && |answer.bookings| == 1 && answer.bookings[0].uid == uid != "" && HalfHour(answer.bookings[0])
         && uid in s'.bookings && s'.bookings[uid] == answer.bookings[0])
  }

  lemma FindCreates(s: State, created: Booking, env: Env)
    requires StateOk(s) && HalfHour(created) && created.uid != ""
    ensures s.repo.Some? && SaveCreated(s.repo.value, created, "", env.canSave).Some? ==>
      var r' := SaveCreated(s.repo.value, created, "", env.canSave).value.0;
      Cache(s.(repo := Some(r')), created) == Put(s, created, OutboxOf(s))
    ensures s.repo.None? ==> Cache(s, created) == Put(s, created, OutboxOf(s))
    ensures StateOk(Put(s, created, OutboxOf(s)))
  {
    PutKeeps(s, created, OutboxOf(s));
  }

  lemma FindCached(s: State, requestId: string, uid: string, env: Env)
    requires StateOk(s) && uid in s.bookings
    ensures FoundOk(s, requestId, uid, env)
  {
    assert CachedOk(s, uid);
  }

  lemma FindStored(s: State, requestId: string, uid: string, env: Env)
    requires StateOk(s) && uid !in s.bookings && s.repo.Some? && uid in s.repo.value.bookings
    ensures FoundOk(s, requestId, uid, env)
  {
    CacheKeeps(s, uid);
  }

  lemma FindFixture(s: State, requestId: string, uid: string, env: Env)
    requires StateOk(s) && uid !in s.bookings && (s.repo.None? || uid !in s.repo.value.bookings)
    ensures FoundOk(s, requestId, uid, env)
  {
    if uid == PRIMARY_UID || uid == PENDING_CONFIRM_UID || uid == PENDING_DECLINE_UID {
      var created := if uid == PRIMARY_UID then Fixture(requestId, UNSET) else PendingFixture(requestId, uid);
      FindCreates(s, created, env);
    }
  }

  lemma FindKeeps(s: State, requestId: string, uid: string, env: Env)
    requires StateOk(s)
    ensures FoundOk(s, requestId, uid, env)
  {
    if uid in s.bookings {
      FindCached(s, requestId, uid, env);
    } else if s.repo.Some? && uid in s.repo.value.bookings {
      FindStored(s, requestId, uid, env);
    } else {
      FindFixture(s, requestId, uid, env);
    }
  }

  lemma KeepsUid(requestId: string, b: Booking, o: Booking)
    requires HalfHour(b) && o.uid == "" && o.start.None? && o.end.None?
    ensures HalfHour(Changed(requestId, b, o)) && (b.uid != "" ==> Changed(requestId, b, o).uid == b.uid)
  {
  }

  /** A change that names no UID and no time of its own. */
  lemma ChangeKeeps(s: State, requestId: string, b: Booking, o: Booking, plans: seq<PlannedEffect>, env: Env)
    requires StateOk(s) && HalfHour(b) && b.uid != "" && o.uid == "" && o.start.None? && o.end.None?
    ensures StateOk(Conclude(s, plans, [Changed(requestId, b, o)], [b.uid], env).1)
  {
    KeepsUid(requestId, b, o);
    ConcludeKeeps(s, plans, Changed(requestId, b, o), env);
  }

  lemma CancelKeeps(s: State, requestId: string, uid: string, reason: string, env: Env)
    requires StateOk(s)
    ensures StateOk(Cancel(s, requestId, uid, reason, env).1)
  {
    FindKeeps(s, requestId, uid, env);
    var (answer, s') := Find(s, requestId, uid, env);
    if answer.Answered? {
      var b, o := answer.bookings[0], UNSET.(status := "cancelled", updatedAt := "2026-01-01T00:05:00.000Z");
      ChangeKeeps(s', requestId, b, o, PlanCancelled(Changed(requestId, b, o), reason), env);
    }
  }

  lemma ConfirmKeeps(s: State, requestId: string, uid: string, env: Env)
    requires StateOk(s)
    ensures StateOk(Confirm(s, requestId, uid, env).1)
  {
    FindKeeps(s, requestId, uid, env);
    var (answer, s') := Find(s, requestId, uid, env);
    if answer.Answered? {
      var b, o := answer.bookings[0], UNSET.(status := "accepted", updatedAt := "2026-01-01T00:15:00.000Z");
      ChangeKeeps(s', requestId, b, o, PlanConfirmed(Changed(requestId, b, o)), env);
    }
  }

  lemma DeclineKeeps(s: State, requestId: string, uid: string, reason: string, env: Env)
    requires StateOk(s)
    ensures StateOk(Decline(s, requestId, uid, reason, env).1)
  {
    FindKeeps(s, requestId, uid, env);
    var (answer, s') := Find(s, requestId, uid, env);
    if answer.Answered? {
      var b, o := answer.bookings[0], UNSET.(status := "rejected", updatedAt := "2026-01-01T00:20:00.000Z");
      ChangeKeeps(s', requestId, b, o, PlanDeclined(Changed(requestId, b, o), reason), env);
    }
  }

  lemma RescheduledOld(requestId: string, b: Booking, start: int)
    requires HalfHour(b) && b.uid != ""
    ensures var was := Rescheduled(requestId, b, start).0; was.uid == b.uid && HalfHour(was) && was.status == "cancelled"
  {
    KeepsUid(requestId, b, UNSET.(status := "cancelled", updatedAt := "2026-01-01T00:10:00.000Z"));
  }

  lemma RescheduledNew(requestId: string, b: Booking, start: int)
    ensures var now := Rescheduled(requestId, b, start).1;
      now.uid == RESCHEDULED_UID && HalfHour(now) && now.status == "accepted" && now.start == Some(start)
  {
  }

  lemma RescheduledPair(requestId: string, b: Booking, start: int)
    requires HalfHour(b) && b.uid != ""
    ensures var (was, now) := Rescheduled(requestId, b, start);
      && was.uid == b.uid && HalfHour(was) && was.status == "cancelled"
      && now.uid == RESCHEDULED_UID && HalfHour(now) && now.status == "accepted" && now.start == Some(start)
  {
    RescheduledOld(requestId, b, start);
    RescheduledNew(requestId, b, start);
  }

  lemma PairKeeps(s: State, plans: seq<PlannedEffect>, a: Booking, b: Booking, env: Env)
    requires StateOk(s) && HalfHour(a) && a.uid != "" && HalfHour(b) && b.uid != ""
    ensures StateOk(Conclude(s, plans, [a, b], [a.uid, b.uid], env).1)
  {
    ConcludeTwo(s, plans, a, b, env);
    if Goes(s, plans, env) {
      NewOutboxOk(s, plans, env);
      PutKeeps(s, a, NewOutbox(s, plans, env));
      PutKeeps(Put(s, a, NewOutbox(s, plans, env)), b, NewOutbox(s, plans, env));
    }
  }

  /** A reschedule of a found booking stops there or concludes with the pair. */
  lemma RescheduleShape(s: State, requestId: string, uid: string, start: Option<int>, reason: string, env: Env, b: Booking, s': State)
    requires Find(s, requestId, uid, env) == (Answered([b]), s')
    ensures var at := if start.Some? then start.value else RESCHEDULE_START; var (was, now) := Rescheduled(requestId, b, at);
      Reschedule(s, requestId, uid, start, reason, env)
      == if !env.valid || env.available == Some(false) then (Rejected, s')
         else if env.available.None? then (Errored, s')
         else Conclude(s', PlanRescheduled(was, now, reason), [was, now], [uid, now.uid], env)
  {
  }

  lemma RescheduleKeeps(s: State, requestId: string, uid: string, start: Option<int>, reason: string, env: Env)
    requires StateOk(s)
    ensures StateOk(Reschedule(s, requestId, uid, start, reason, env).1)
  {
    FindKeeps(s, requestId, uid, env);
    var (answer, s') := Find(s, requestId, uid, env);
    if answer.Answered? {
      var b, at := answer.bookings[0], if start.Some? then start.value else RESCHEDULE_START;
      assert answer.bookings == [b];
      RescheduleShape(s, requestId, uid, start, reason, env, b, s');
      RescheduledPair(requestId, b, at);
      var (was, now) := Rescheduled(requestId, b, at);
      PairKeeps(s', PlanRescheduled(was, now, reason), was, now, env);
    }
  }

  lemma RememberKeeps(s: State, key: string, uid: string)
    requires StateOk(s) && uid in s.bookings
    requires s.repo.Some? && key != "" ==> key in s.repo.value.keys && s.repo.value.keys[key] == uid
    ensures StateOk(Remember(s, key, uid))
  {
    var s' := Remember(s, key, uid);
    forall u | u in s'.bookings ensures CachedOk(s', u) { assert CachedOk(s, u); }
  }

  /** A new key beside the new booking. */
  lemma KeyKeeps(s: State, key: string, uid: string)
    requires StateOk(s) && s.repo.Some? && uid in s.repo.value.bookings && (key in s.repo.value.keys ==> s.repo.value.keys[key] == uid)
    ensures StateOk(s.(repo := Some(s.repo.value.(keys := s.repo.value.keys[key := uid]))))
  {
    var s' := s.(repo := Some(s.repo.value.(keys := s.repo.value.keys[key := uid])));
    forall u | u in s'.bookings ensures CachedOk(s', u) { assert CachedOk(s, u); }
  }

  lemma CreateFresh(s: State, b: Booking, key: string)
    requires StateOk(s) && HalfHour(b) && b.uid != "" && (s.repo.Some? ==> key == "" || key !in s.repo.value.keys)
    ensures s.repo.Some? ==>
      StateOk(Remember(Cache(s.(repo := Some(SaveCreated(s.repo.value, b, key, true).value.0)), b), key, b.uid))
    ensures s.repo.None? ==> StateOk(Remember(Cache(s, b), key, b.uid))
  {
    var put := Put(s, b, OutboxOf(s));
    PutKeeps(s, b, OutboxOf(s));
    if s.repo.Some? && key != "" {
      KeyKeeps(put, key, b.uid);
      var keyed := put.(repo := Some(put.repo.value.(keys := put.repo.value.keys[key := b.uid])));
      assert keyed == Cache(s.(repo := Some(SaveCreated(s.repo.value, b, key, true).value.0)), b);
      RememberKeeps(keyed, key, b.uid);
    } else {
      RememberKeeps(put, key, b.uid);
    }
  }

  lemma CreateKeeps(s: State, requestId: string, q: CreateRequest, env: Env)
    requires StateOk(s)
    ensures StateOk(Create(s, requestId, q, env).1)
  {
    var k := q.key;
    CreatedUidIsFixed(requestId, q);
    if k != "" && s.repo.Some? && k in s.repo.value.keys {
      CacheKeeps(s, s.repo.value.keys[k]);
      RememberKeeps(Cache(s, s.repo.value.bookings[s.repo.value.keys[k]]), k, s.repo.value.keys[k]);
    } else {
      CreateFresh(s, Created(requestId, q), k);
    }
  }

  // ---------- runs ----------

  datatype Op =
    | DoCreate(requestId: string, request: CreateRequest, env: Env)
    | DoRead(requestId: string, uid: string, env: Env)
    | DoCancel(requestId: string, uid: string, reason: string, env: Env)
    | DoReschedule(requestId: string, uid: string, start: Option<int>, reason: string, env: Env)
    | DoConfirm(requestId: string, uid: string, env: Env)
    | DoDecline(requestId: string, uid: string, reason: string, env: Env)

  function Do(s: State, op: Op): (Answer, State) {
    match op
    case DoCreate(requestId, q, env) => Create(s, requestId, q, env)
    case DoRead(requestId, uid, env) => Find(s, requestId, uid, env)
    case DoCancel(requestId, uid, reason, env) => Cancel(s, requestId, uid, reason, env)
    case DoReschedule(requestId, uid, start, reason, env) => Reschedule(s, requestId, uid, start, reason, env)
    case DoConfirm(requestId, uid, env) => Confirm(s, requestId, uid, env)
    case DoDecline(requestId, uid, reason, env) => Decline(s, requestId, uid, reason, env)
  }

  lemma DoKeeps(s: State, op: Op)
    requires StateOk(s)
    ensures StateOk(Do(s, op).1)
  {
    match op
    case DoCreate(requestId, q, env) => CreateKeeps(s, requestId, q, env);
    case DoRead(requestId, uid, env) => FindKeeps(s, requestId, uid, env);
    case DoCancel(requestId, uid, reason, env) => CancelKeeps(s, requestId, uid, reason, env);
    case DoReschedule(requestId, uid, start, reason, env) => RescheduleKeeps(s, requestId, uid, start, reason, env);
    case DoConfirm(requestId, uid, env) => ConfirmKeeps(s, requestId, uid, env);
    case DoDecline(requestId, uid, reason, env) => DeclineKeeps(s, requestId, uid, reason, env);
  }

  ghost predicate IsRun(states: seq<State>, ops: seq<Op>) {
    |states| == |ops| + 1 && forall i: nat :: i < |ops| ==> states[i + 1] == Do(states[i], ops[i]).1
  }

  /** After every call of every run, accepted, refused or failed, the cache equals the repository
      on persisted fields, every booking is half an hour long, and no effect is planned twice. */
  lemma {:induction false} CacheEqualsRepository(states: seq<State>, ops: seq<Op>, n: nat)
    requires IsRun(states, ops) && StateOk(states[0]) && n <= |ops|
    ensures StateOk(states[n])
    decreases n
  {
    if n > 0 {
      CacheEqualsRepository(states, ops, n - 1);
      DoKeeps(states[n - 1], ops[n - 1]);
    }
  }

  // ---------- all or nothing ----------

  /** What a change starts from: the state in which its booking has been found. */
  function FoundState(s: State, op: Op): State
    requires !op.DoCreate?
  {
    Find(s, op.requestId, op.uid, op.env).1
  }

  lemma UnansweredCreate(s: State, requestId: string, q: CreateRequest, env: Env)
    requires !Create(s, requestId, q, env).0.Answered?
    ensures Create(s, requestId, q, env).1 == s
  {
  }

  lemma UnansweredCancel(s: State, requestId: string, uid: string, reason: string, env: Env)
    requires !Cancel(s, requestId, uid, reason, env).0.Answered?
    ensures Cancel(s, requestId, uid, reason, env).1 == Find(s, requestId, uid, env).1
  {
  }

  lemma UnansweredReschedule(s: State, requestId: string, uid: string, start: Option<int>, reason: string, env: Env)
    requires !Reschedule(s, requestId, uid, start, reason, env).0.Answered?
    ensures Reschedule(s, requestId, uid, start, reason, env).1 == Find(s, requestId, uid, env).1
  {
  }

  lemma UnansweredConfirm(s: State, requestId: string, uid: string, env: Env)
    requires !Confirm(s, requestId, uid, env).0.Answered?
    ensures Confirm(s, requestId, uid, env).1 == Find(s, requestId, uid, env).1
  {
  }

  lemma UnansweredDecline(s: State, requestId: string, uid: string, reason: string, env: Env)
    requires !Decline(s, requestId, uid, reason, env).0.Answered?
    ensures Decline(s, requestId, uid, reason, env).1 == Find(s, requestId, uid, env).1
  {
  }

  /** A call that is not answered, because its plan or its save failed or its input was refused,
      leaves the cache and the repository as finding the booking left them. */
  lemma UnansweredChangesNothing(s: State, op: Op)
    requires !Do(s, op).0.Answered?
    ensures op.DoCreate? ==> Do(s, op).1 == s
    ensures !op.DoCreate? ==> Do(s, op).1 == FoundState(s, op)
  {
    match op
    case DoCreate(requestId, q, env) => UnansweredCreate(s, requestId, q, env);
    case DoRead(requestId, uid, env) =>
    case DoCancel(requestId, uid, reason, env) => UnansweredCancel(s, requestId, uid, reason, env);
    case DoReschedule(requestId, uid, start, reason, env) => UnansweredReschedule(s, requestId, uid, start, reason, env);
    case DoConfirm(requestId, uid, env) => UnansweredConfirm(s, requestId, uid, env);
    case DoDecline(requestId, uid, reason, env) => UnansweredDecline(s, requestId, uid, reason, env);
  }

  /** A cancellation that is answered puts the cancelled booking into the cache and the repository
      and its whole plan into the outbox. */
  lemma CancelPuts(s: State, requestId: string, uid: string, reason: string, env: Env)
    requires StateOk(s) && Cancel(s, requestId, uid, reason, env).0.Answered?
    ensures var s' := Find(s, requestId, uid, env).1;
      && uid in s'.bookings
      && var b := Cancelled(requestId, s'.bookings[uid]); var plans := PlanCancelled(b, reason);
      && b.uid == uid && b.status == "cancelled" && Goes(s', plans, env)
      && Cancel(s, requestId, uid, reason, env).1 == Put(s', b, NewOutbox(s', plans, env))
  {
    FindKeeps(s, requestId, uid, env);
    var (answer, s') := Find(s, requestId, uid, env);
    var b := answer.bookings[0];
    KeepsUid(requestId, b, UNSET.(status := "cancelled", updatedAt := "2026-01-01T00:05:00.000Z"));
    ConcludeOne(s', PlanCancelled(Cancelled(requestId, b), reason), Cancelled(requestId, b), env);
  }

  lemma ConfirmFinds(s: State, requestId: string, uid: string, env: Env)
    requires Confirm(s, requestId, uid, env).0.Answered?
    ensures Find(s, requestId, uid, env).0.Answered?
  {
  }

  lemma DeclineFinds(s: State, requestId: string, uid: string, reason: string, env: Env)
    requires Decline(s, requestId, uid, reason, env).0.Answered?
    ensures Find(s, requestId, uid, env).0.Answered?
  {
  }

  /** Only a pending booking is confirmed; it keeps its time, becomes accepted and is put with its
      plan. */
  lemma ConfirmPuts(s: State, requestId: string, uid: string, env: Env) returns (b: Booking, found: State)
    requires StateOk(s) && Confirm(s, requestId, uid, env).0.Answered?
    ensures Find(s, requestId, uid, env) == (Answered([b]), found) && Confirmable(b.status)
    ensures var c := Confirmed(requestId, b);
      && c.uid == uid && c.status == "accepted" && c.start == b.start && c.end == b.end && Goes(found, PlanConfirmed(c), env)
      && Confirm(s, requestId, uid, env).1 == Put(found, c, NewOutbox(found, PlanConfirmed(c), env))
  {
    ConfirmFinds(s, requestId, uid, env);
    b, found := Located(s, requestId, uid, env);
    KeepsUid(requestId, b, UNSET.(status := "accepted", updatedAt := "2026-01-01T00:15:00.000Z"));
    ConcludeOne(found, PlanConfirmed(Confirmed(requestId, b)), Confirmed(requestId, b), env);
  }

  /** Only a pending booking is declined; it keeps its time, becomes rejected and is put with its
      plan. */
  lemma DeclinePuts(s: State, requestId: string, uid: string, reason: string, env: Env) returns (b: Booking, found: State)
    requires StateOk(s) && Decline(s, requestId, uid, reason, env).0.Answered?
    ensures Find(s, requestId, uid, env) == (Answered([b]), found) && Confirmable(b.status)
    ensures var d := Declined(requestId, b);
      && d.uid == uid && d.status == "rejected" && d.start == b.start && d.end == b.end && Goes(found, PlanDeclined(d, reason), env)
      && Decline(s, requestId, uid, reason, env).1 == Put(found, d, NewOutbox(found, PlanDeclined(d, reason), env))
  {
    DeclineFinds(s, requestId, uid, reason, env);
    b, found := Located(s, requestId, uid, env);
    KeepsUid(requestId, b, UNSET.(status := "rejected", updatedAt := "2026-01-01T00:20:00.000Z"));
    ConcludeOne(found, PlanDeclined(Declined(requestId, b), reason), Declined(requestId, b), env);
  }

  // ---------- what is planned ----------

  /** The outbox holds an effect of this name for the booking under its request id. */
  ghost predicate IsPlanned(s: State, uid: string, name: EffectName) {
    && s.repo.Some? && uid in s.bookings
    && exists i :: 0 <= i < |s.repo.value.outbox| && PlanOf(s.repo.value.outbox[i].plan, uid, name, s.bookings[uid].requestId)
  }

  predicate PlanOf(p: PlannedEffect, uid: string, name: EffectName, requestId: string) {
    p.bookingUid == uid && p.name == name && p.requestId == requestId
  }

  lemma PutPlans(s: State, b: Booking, plans: seq<PlannedEffect>, env: Env, i: nat)
    requires StateOk(s) && s.repo.Some? && Goes(s, plans, env) && i < |plans| && PlanOf(plans[i], b.uid, plans[i].name, b.requestId)
    ensures IsPlanned(Put(s, b, NewOutbox(s, plans, env)), b.uid, plans[i].name)
  {
    SavePlannedAppends(s.repo.value.outbox, plans, env.now);
    assert plans[i] in plans;
  }

  lemma ConfirmPlans(s: State, requestId: string, uid: string, env: Env)
    requires StateOk(s) && s.repo.Some? && Confirm(s, requestId, uid, env).0.Answered?
    ensures var s' := Confirm(s, requestId, uid, env).1; IsPlanned(s', uid, EmailConfirmed) && IsPlanned(s', uid, WebhookConfirmed)
  {
    var b, found := ConfirmPuts(s, requestId, uid, env);
    FindKeeps(s, requestId, uid, env);
    var c := Confirmed(requestId, b);
    PutPlans(found, c, PlanConfirmed(c), env, 0);
    PutPlans(found, c, PlanConfirmed(c), env, 1);
  }

  lemma DeclinePlans(s: State, requestId: string, uid: string, reason: string, env: Env)
    requires StateOk(s) && s.repo.Some? && Decline(s, requestId, uid, reason, env).0.Answered?
    ensures var s' := Decline(s, requestId, uid, reason, env).1; IsPlanned(s', uid, EmailDeclined) && IsPlanned(s', uid, WebhookDeclined)
  {
    var b, found := DeclinePuts(s, requestId, uid, reason, env);
    FindKeeps(s, requestId, uid, env);
    var d := Declined(requestId, b);
    PutPlans(found, d, PlanDeclined(d, reason), env, 0);
    PutPlans(found, d, PlanDeclined(d, reason), env, 1);
  }

  // ---------- cancelling again ----------

  /** The booking is cached with a request id under which its cancellation is already planned. */
  ghost predicate CancellationPlanned(s: State, uid: string, requestId: string) {
    && s.repo.Some? && uid in s.bookings && s.bookings[uid].requestId == requestId != "" && s.bookings[uid].uid == uid
    && forall p :: p in PlanCancelled(s.bookings[uid], "") ==> HasPlanKey(s.repo.value.outbox, p)
  }

  lemma CancelPlans(s: State, requestId: string, uid: string, reason: string, env: Env)
    requires StateOk(s) && s.repo.Some? && Cancel(s, requestId, uid, reason, env).0.Answered?
    ensures var s' := Cancel(s, requestId, uid, reason, env).1;
      uid in s'.bookings && CancellationPlanned(s', uid, s'.bookings[uid].requestId)
  {
    CancelPuts(s, requestId, uid, reason, env);
    var found := Find(s, requestId, uid, env).1;
    FindKeeps(s, requestId, uid, env);
    var b := Cancelled(requestId, found.bookings[uid]);
    var plans := PlanCancelled(b, reason);
    var outbox := NewOutbox(found, plans, env);
    SavePlannedAppends(found.repo.value.outbox, plans, env.now);
    PlanIsValid(found.repo.value.outbox, plans, env.now);
    assert plans[0] in plans && ValidPlan(plans[0]);
    forall p | p in PlanCancelled(b, "") ensures HasPlanKey(outbox, p) { KeyIgnoresReason(outbox, b, reason, p); }
  }

  lemma PlanIsValid(outbox: seq<Effect>, plans: seq<PlannedEffect>, now: int)
    requires SavePlanned(outbox, plans, now).Some? && plans != []
    ensures ValidPlan(plans[0])
  {
  }

  /** The key of a planned effect does not include its payload. */
  lemma KeyIgnoresReason(outbox: seq<Effect>, b: Booking, reason: string, p: PlannedEffect)
    requires p in PlanCancelled(b, "") && forall q :: q in PlanCancelled(b, reason) ==> HasPlanKey(outbox, q)
    ensures HasPlanKey(outbox, p)
  {
    var i :| 0 <= i < 3 && PlanCancelled(b, "")[i] == p;
    var q := PlanCancelled(b, reason)[i];
    assert q in PlanCancelled(b, reason);
    var j :| 0 <= j < |outbox| && SamePlanKey(outbox[j].plan, q);
    assert SamePlanKey(outbox[j].plan, p);
  }

  /** Cancelling once more, for whatever reason and by whatever request, plans nothing new. */
  lemma CancelAgain(s: State, requestId: string, uid: string, reason: string, env: Env, known: string)
    requires StateOk(s) && CancellationPlanned(s, uid, known) && Cancel(s, requestId, uid, reason, env).0.Answered?
    ensures var s' := Cancel(s, requestId, uid, reason, env).1;
      CancellationPlanned(s', uid, known) && s'.repo.value.outbox == s.repo.value.outbox
  {
    CancelPuts(s, requestId, uid, reason, env);
    var b := Cancelled(requestId, s.bookings[uid]);
    RequestIdSurvives(requestId, s.bookings[uid], UNSET.(status := "cancelled", updatedAt := "2026-01-01T00:05:00.000Z"));
    var plans, outbox := PlanCancelled(b, reason), s.repo.value.outbox;
    forall p | p in plans ensures HasPlanKey(outbox, p) && ValidPlan(p) {
      PlannedUnderAnyReason(outbox, s.bookings[uid], b, reason, p);
    }
    SavedPlansStay(outbox, plans, env.now);
    forall p | p in PlanCancelled(b, "") ensures HasPlanKey(outbox, p) { PlannedUnderAnyReason(outbox, s.bookings[uid], b, "", p); }
  }

  lemma PlannedUnderAnyReason(outbox: seq<Effect>, a: Booking, b: Booking, reason: string, p: PlannedEffect)
    requires a.uid == b.uid && a.requestId == b.requestId != "" && p in PlanCancelled(b, reason)
    requires forall q :: q in PlanCancelled(a, "") ==> HasPlanKey(outbox, q)
    ensures HasPlanKey(outbox, p) && p.requestId == b.requestId && p.bookingUid == b.uid
  {
    var i :| 0 <= i < 3 && PlanCancelled(b, reason)[i] == p;
    var q := PlanCancelled(a, "")[i];
    assert q in PlanCancelled(a, "");
    var j :| 0 <= j < |outbox| && SamePlanKey(outbox[j].plan, q);
    assert SamePlanKey(outbox[j].plan, p);
  }

  /** A run of answered cancellations of one booking. */
  ghost predicate CancelRun(states: seq<State>, ops: seq<Op>, uid: string) {
    && IsRun(states, ops) && StateOk(states[0]) && states[0].repo.Some?
    && forall i: nat :: i < |ops| ==> ops[i].DoCancel? && ops[i].uid == uid && Do(states[i], ops[i]).0.Answered?
  }

  ghost predicate PlannedRow(s: State, uid: string, name: EffectName, i: int)
    requires s.repo.Some? && uid in s.bookings
  {
    var outbox := s.repo.value.outbox;
    0 <= i < |outbox| && outbox[i].plan.bookingUid == uid && outbox[i].plan.name == name && outbox[i].plan.requestId == s.bookings[uid].requestId
  }

  ghost predicate ExactlyOneRow(s: State, uid: string, name: EffectName) {
    && s.repo.Some? && uid in s.bookings
    && exists i :: PlannedRow(s, uid, name, i) && forall j :: PlannedRow(s, uid, name, j) ==> j == i
  }

  predicate NamedByCancel(name: EffectName) { name == CalendarCancelled || name == EmailCancelled || name == WebhookCancelled }

  lemma OneRow(s: State, uid: string, name: EffectName)
    requires NamedByCancel(name) && uid in s.bookings && CancellationPlanned(s, uid, s.bookings[uid].requestId)
    requires UniqueKeys(s.repo.value.outbox)
    ensures ExactlyOneRow(s, uid, name)
  {
    var plans, outbox := PlanCancelled(s.bookings[uid], ""), s.repo.value.outbox;
    var p := plans[if name == CalendarCancelled then 0 else if name == EmailCancelled then 1 else 2];
    assert p in plans;
    var i :| 0 <= i < |outbox| && SamePlanKey(outbox[i].plan, p);
    assert PlannedRow(s, uid, name, i);
    forall j | PlannedRow(s, uid, name, j) ensures j == i {
      assert SamePlanKey(outbox[Min(i, j)].plan, outbox[Max(i, j)].plan);
    }
  }

  lemma {:induction false} CancelsStayPlanned(states: seq<State>, ops: seq<Op>, uid: string, n: nat)
    requires CancelRun(states, ops, uid) && 0 < n <= |ops|
    ensures StateOk(states[n]) && uid in states[n].bookings && CancellationPlanned(states[n], uid, states[n].bookings[uid].requestId)
    ensures OutboxOf(states[n]) == OutboxOf(states[1])
    decreases n
  {
    CacheEqualsRepository(states, ops, n);
    var op := ops[n - 1];
    if n == 1 {
      CancelPlans(states[0], op.requestId, uid, op.reason, op.env);
    } else {
      CancelsStayPlanned(states, ops, uid, n - 1);
      CancelAgain(states[n - 1], op.requestId, uid, op.reason, op.env, states[n - 1].bookings[uid].requestId);
    }
  }

  /** However often a booking is cancelled, the outbox holds exactly one row per planned name, and
      the cancellations after the first add none. */
  lemma OneRowPerPlannedName(states: seq<State>, ops: seq<Op>, uid: string, n: nat, name: EffectName)
    requires CancelRun(states, ops, uid) && 0 < n <= |ops| && NamedByCancel(name)
    ensures ExactlyOneRow(states[n], uid, name) && OutboxOf(states[n]) == OutboxOf(states[1])
  {
    CancelsStayPlanned(states, ops, uid, n);
    OneRow(states[n], uid, name);
  }

  // ---------- rescheduling ----------

  lemma Located(s: State, requestId: string, uid: string, env: Env) returns (b: Booking, found: State)
    requires StateOk(s) && Find(s, requestId, uid, env).0.Answered?
    ensures Find(s, requestId, uid, env) == (Answered([b]), found)
    ensures b.uid == uid != "" && HalfHour(b) && uid in found.bookings && found.bookings[uid] == b
  {
    FindKeeps(s, requestId, uid, env);
    found := Find(s, requestId, uid, env).1;
    b := found.bookings[uid];
    assert Find(s, requestId, uid, env).0.bookings == [b];
  }

  lemma RescheduleFinds(s: State, requestId: string, uid: string, start: Option<int>, reason: string, env: Env)
    requires Reschedule(s, requestId, uid, start, reason, env).0.Answered?
    ensures Find(s, requestId, uid, env).0.Answered?
  {
  }

  lemma ReschedulePuts(s: State, requestId: string, uid: string, start: Option<int>, reason: string, env: Env)
    requires StateOk(s) && Reschedule(s, requestId, uid, start, reason, env).0.Answered?
    ensures var found := Find(s, requestId, uid, env).1; var at := if start.Some? then start.value else RESCHEDULE_START;
      && uid in found.bookings && found.bookings[uid].uid == uid && HalfHour(found.bookings[uid])
      && var (was, now) := Rescheduled(requestId, found.bookings[uid], at); var plans := PlanRescheduled(was, now, reason);
      && Goes(found, plans, env)
      && Reschedule(s, requestId, uid, start, reason, env).1
         == Put(Put(found, was, NewOutbox(found, plans, env)), now, NewOutbox(found, plans, env))
  {
    RescheduleFinds(s, requestId, uid, start, reason, env);
    var b, found := Located(s, requestId, uid, env);
    var at := if start.Some? then start.value else RESCHEDULE_START;
    RescheduleShape(s, requestId, uid, start, reason, env, b, found);
    RescheduledPair(requestId, b, at);
    var (was, now) := Rescheduled(requestId, b, at);
    ConcludeTwo(found, PlanRescheduled(was, now, reason), was, now, env);
  }

  lemma PuttingTwice(s: State, a: Booking, b: Booking, outbox: seq<Effect>)
    requires s.repo.Some?
    ensures var r := Put(Put(s, a, outbox), b, outbox).repo;
      r.Some? && a.uid in r.value.bookings && b.uid in r.value.bookings
      && r.value.bookings[b.uid] == Persisted(b) && (a.uid != b.uid ==> r.value.bookings[a.uid] == Persisted(a))
  {
  }

  /** The old booking ends cancelled exactly when it is not the one UID every rescheduled booking
      gets; that one is overwritten by its own successor. */
  lemma OldBookingCancelledExactlyWhen(s: State, requestId: string, uid: string, start: Option<int>, reason: string, env: Env)
    requires StateOk(s) && s.repo.Some? && Reschedule(s, requestId, uid, start, reason, env).0.Answered?
    ensures var s' := Reschedule(s, requestId, uid, start, reason, env).1;
      && s'.repo.Some? && uid in s'.repo.value.bookings && RESCHEDULED_UID in s'.repo.value.bookings
      && (s'.repo.value.bookings[uid].status == "cancelled" <==> uid != RESCHEDULED_UID)
      && s'.repo.value.bookings[RESCHEDULED_UID].status == "accepted"
      && s'.repo.value.bookings[RESCHEDULED_UID].start == Some(if start.Some? then start.value else RESCHEDULE_START)
  {
    ReschedulePuts(s, requestId, uid, start, reason, env);
    FindKeeps(s, requestId, uid, env);
    var found, at := Find(s, requestId, uid, env).1, if start.Some? then start.value else RESCHEDULE_START;
    RescheduledPair(requestId, found.bookings[uid], at);
    var (was, now) := Rescheduled(requestId, found.bookings[uid], at);
    PuttingTwice(found, was, now, NewOutbox(found, PlanRescheduled(was, now, reason), env));
  }

  lemma {:induction false} ValidPlansSave(outbox: seq<Effect>, plans: seq<PlannedEffect>, now: int)
    requires forall p :: p in plans ==> ValidPlan(p)
    ensures SavePlanned(outbox, plans, now).Some?
    decreases |plans|
  {
    if plans != [] { ValidPlansSave(SaveOnePlanned(outbox, plans[0], now), plans[1..], now); }
  }

  const GOOD := Env(true, Some(true), 0, true, true)

  /** With nothing in its way the reschedule of a found booking goes through. */
  lemma RescheduleGoes(s: State, requestId: string, uid: string, b: Booking, found: State) returns (s': State)
    requires Find(s, requestId, uid, GOOD) == (Answered([b]), found) && b.uid == uid != "" && HalfHour(b) && requestId != ""
    ensures Reschedule(s, requestId, uid, None, "", GOOD).0.Answered? && s' == Reschedule(s, requestId, uid, None, "", GOOD).1
    ensures RESCHEDULED_UID in s'.bookings && s'.bookings[RESCHEDULED_UID] == Rescheduled(requestId, b, RESCHEDULE_START).1
    ensures s'.repo.Some? <==> found.repo.Some?
  {
    RescheduleShape(s, requestId, uid, None, "", GOOD, b, found);
    RescheduledPair(requestId, b, RESCHEDULE_START);
    var (was, now) := Rescheduled(requestId, b, RESCHEDULE_START);
    if found.repo.Some? { ValidPlansSave(found.repo.value.outbox, PlanRescheduled(was, now, ""), GOOD.now); }
    ConcludeTwo(found, PlanRescheduled(was, now, ""), was, now, GOOD);
    s' := Reschedule(s, requestId, uid, None, "", GOOD).1;
  }

  /** The failing input: the fixture booking is rescheduled, then the rescheduled booking is. Both
      calls are answered, and the booking that was to be cancelled ends accepted. */
  lemma RescheduledTwiceEndsAccepted(requestId: string)
    requires requestId != ""
    ensures var start := State(map[], map[], Some(Repo(map[], map[], [])));
      var first := Reschedule(start, requestId, PRIMARY_UID, None, "", GOOD);
      var second := Reschedule(first.1, requestId, RESCHEDULED_UID, None, "", GOOD);
      && StateOk(start) && first.0.Answered? && second.0.Answered?
      && second.1.repo.Some? && RESCHEDULED_UID in second.1.repo.value.bookings
      && second.1.repo.value.bookings[RESCHEDULED_UID].status == "accepted"
  {
    var start := State(map[], map[], Some(Repo(map[], map[], [])));
    var b := Fixture(requestId, UNSET);
    var first := RescheduleGoes(start, requestId, PRIMARY_UID, b, Find(start, requestId, PRIMARY_UID, GOOD).1);
    RescheduleKeeps(start, requestId, PRIMARY_UID, None, "", GOOD);
    RescheduledNew(requestId, b, RESCHEDULE_START);
    var second := RescheduleGoes(first, requestId, RESCHEDULED_UID, first.bookings[RESCHEDULED_UID], first);
    OldBookingCancelledExactlyWhen(first, requestId, RESCHEDULED_UID, None, "", GOOD);
  }

  /** A reschedule plans its three effects for the new booking. */
  lemma ReschedulePlans(s: State, requestId: string, uid: string, start: Option<int>, reason: string, env: Env)
    requires StateOk(s) && s.repo.Some? && Reschedule(s, requestId, uid, start, reason, env).0.Answered?
    ensures var s' := Reschedule(s, requestId, uid, start, reason, env).1;
      && IsPlanned(s', RESCHEDULED_UID, CalendarRescheduled) && IsPlanned(s', RESCHEDULED_UID, EmailRescheduled)
      && IsPlanned(s', RESCHEDULED_UID, WebhookRescheduled)
  {
    ReschedulePuts(s, requestId, uid, start, reason, env);
    FindKeeps(s, requestId, uid, env);
    var found, at := Find(s, requestId, uid, env).1, if start.Some? then start.value else RESCHEDULE_START;
    RescheduledNew(requestId, found.bookings[uid], at);
    var (was, now) := Rescheduled(requestId, found.bookings[uid], at);
    PairPlans(found, was, now, reason, env);
  }

  lemma PairPlans(s: State, was: Booking, now: Booking, reason: string, env: Env)
    requires StateOk(s) && s.repo.Some? && Goes(s, PlanRescheduled(was, now, reason), env)
    ensures var outbox := NewOutbox(s, PlanRescheduled(was, now, reason), env); var s' := Put(Put(s, was, outbox), now, outbox);
      IsPlanned(s', now.uid, CalendarRescheduled) && IsPlanned(s', now.uid, EmailRescheduled) && IsPlanned(s', now.uid, WebhookRescheduled)
  {
    var plans := PlanRescheduled(was, now, reason);
    PutPlansTwice(s, was, now, plans, env, 0);
    PutPlansTwice(s, was, now, plans, env, 1);
    PutPlansTwice(s, was, now, plans, env, 2);
  }

  lemma PutPlansTwice(s: State, a: Booking, b: Booking, plans: seq<PlannedEffect>, env: Env, i: nat)
    requires StateOk(s) && s.repo.Some? && Goes(s, plans, env) && i < |plans| && PlanOf(plans[i], b.uid, plans[i].name, b.requestId)
    ensures IsPlanned(Put(Put(s, a, NewOutbox(s, plans, env)), b, NewOutbox(s, plans, env)), b.uid, plans[i].name)
  {
    SavePlannedAppends(s.repo.value.outbox, plans, env.now);
    assert plans[i] in plans;
  }
}
