/** What each call of the booking Store answers and leaves, field by field, and exactly when. */
module BookingCalls {
  import opened Lib
  import opened WebhookTables
  import opened Bookings
  import opened BookingGuarantees

  // ---------- values ----------

  /** The row of a booking: every column but the owner and the hosts, which it does not have. */
  predicate IsRowOf(row: Booking, b: Booking) {
    && row.uid == b.uid && row.id == b.id && row.title == b.title && row.status == b.status && row.start == b.start && row.end == b.end
    && row.eventType == b.eventType && row.createdAt == b.createdAt && row.updatedAt == b.updatedAt && row.requestId == b.requestId
    && row.selectedRef == b.selectedRef && row.destinationRef == b.destinationRef && row.externalId == b.externalId
    && row.attendees == (if b.attendees.Some? then b.attendees else Some([]))
    && row.responses == (if b.responses.Some? then b.responses else Some(""))
    && row.metadata == (if b.metadata.Some? then b.metadata else Some(""))
    && row.owner == 0 && row.hosts == None
  }

  /** All that is set in one booking but its status, its times and its last update is in the other. */
  predicate Keeps(b: Booking, c: Booking) {
    && (b.uid != "" ==> c.uid == b.uid) && (b.externalId != "" ==> c.externalId == b.externalId) && KeepsRest(b, c)
  }

  predicate KeepsRest(b: Booking, c: Booking) {
    && (b.id != 0 ==> c.id == b.id) && (b.title != "" ==> c.title == b.title) && (b.eventType != 0 ==> c.eventType == b.eventType)
    && (b.attendees.Some? ==> c.attendees == b.attendees) && (b.responses.Some? ==> c.responses == b.responses)
    && (b.metadata.Some? ==> c.metadata == b.metadata) && (b.createdAt != "" ==> c.createdAt == b.createdAt)
    && (b.requestId != "" ==> c.requestId == b.requestId) && (b.selectedRef != "" ==> c.selectedRef == b.selectedRef)
    && (b.destinationRef != "" ==> c.destinationRef == b.destinationRef)
    && (b.owner != 0 ==> c.owner == b.owner) && (b.hosts.Some? ==> c.hosts == b.hosts)
  }

  predicate SameTimes(b: Booking, c: Booking) { c.start == b.start && c.end == b.end }

  /** The booking stands in the cache under this UID, its row in the repository, and no other does. */
  ghost predicate PutAt(s: State, s': State, uid: string, c: Booking) {
    && s'.bookings == s.bookings[uid := c] && s'.idempotency == s.idempotency && (s.repo.Some? <==> s'.repo.Some?)
    && (s.repo.Some? ==>
          && uid in s'.repo.value.bookings && IsRowOf(s'.repo.value.bookings[uid], c) && s'.repo.value.keys == s.repo.value.keys
          && s'.repo.value.bookings == s.repo.value.bookings[uid := s'.repo.value.bookings[uid]])
  }

  lemma PuttingPuts(s: State, c: Booking, outbox: seq<Effect>)
    ensures PutAt(s, Put(s, c, outbox), c.uid, c)
  {
  }

  // ---------- finding ----------

  /** What every fixture has, whoever asks for it. */
  predicate FixtureParts(b: Booking) {
    && b.title == "Fixture Event" && b.eventType == 1001 && b.selectedRef == "selected-calendar-fixture" && b.destinationRef == "destination-calendar-fixture"
    && b.createdAt == "2026-01-01T00:00:00.000Z" && b.updatedAt == "2026-01-01T00:00:00.000Z"
  }

  /** The three bookings the Store makes up when it is asked for them. */
  predicate IsFixture(b: Booking, requestId: string, uid: string) {
    && b.uid == uid && b.requestId == requestId && FixtureParts(b) && b.owner == 123 && b.hosts == Some([123])
    && (uid == "mock-booking-personal-basic" ==> b.status == "accepted" && b.start == Some(0) && b.end == Some(30))
    && (uid == "mock-booking-pending-confirm" || uid == "mock-booking-pending-decline" ==>
          b.status == "pending" && b.start == Some(48 * 60) && b.end == Some(48 * 60 + 30))
  }

  predicate MadeUp(uid: string) { uid in {"mock-booking-personal-basic", "mock-booking-pending-confirm", "mock-booking-pending-decline"} }

  /** A cached booking is answered as it is. */
  lemma FindCachedDoes(s: State, requestId: string, uid: string, env: Env)
    requires uid in s.bookings
    ensures Find(s, requestId, uid, env) == (Answered([s.bookings[uid]]), s)
  {
  }

  /** A stored one is read, and a failing repository is an error that changes nothing. */
  lemma FindStoredDoes(s: State, requestId: string, uid: string, env: Env)
    requires uid !in s.bookings && s.repo.Some?
    ensures !env.canRead ==> Find(s, requestId, uid, env) == (Errored, s)
    ensures env.canRead && uid in s.repo.value.bookings ==>
      var b := s.repo.value.bookings[uid];
      Find(s, requestId, uid, env).0 == Answered([b]) && Find(s, requestId, uid, env).1.repo == s.repo
      && Find(s, requestId, uid, env).1.idempotency == s.idempotency && Find(s, requestId, uid, env).1.bookings == s.bookings[b.uid := b]
  {
  }

  /** One that nobody holds is made up and stored if it is a fixture's, and missing if and only if it
      is not. */
  lemma FindMakesUp(s: State, requestId: string, uid: string, env: Env)
    requires uid !in s.bookings && (s.repo.Some? ==> env.canRead && uid !in s.repo.value.bookings)
    ensures var (answer, s') := Find(s, requestId, uid, env);
      && (answer == Missing <==> !MadeUp(uid))
      && (answer == Errored <==> MadeUp(uid) && s.repo.Some? && !env.canSave)
      && (answer.Answered? <==> MadeUp(uid) && (s.repo.Some? ==> env.canSave))
      && (answer.Answered? ==> |answer.bookings| == 1 && IsFixture(answer.bookings[0], requestId, uid) && PutAt(s, s', uid, answer.bookings[0]))
      && (s.repo.Some? && s'.repo.Some? ==> s'.repo.value.outbox == s.repo.value.outbox)
      && (!answer.Answered? ==> s' == s)
  {
  }

  // ---------- cancelling, confirming, declining ----------

  lemma ChangesOnly(requestId: string, b: Booking, o: Booking)
    requires HalfHour(b) && o == UNSET.(status := o.status, updatedAt := o.updatedAt) && o.status != "" && o.updatedAt != ""
    ensures var c := Changed(requestId, b, o);
      Keeps(b, c) && SameTimes(b, c) && c.status == o.status && c.updatedAt == o.updatedAt && c.requestId == if b.requestId != "" then b.requestId else requestId
  {
  }

  /** What an answered change to one booking did: the booking found is kept but for its status, and
      is in the cache and the repository. */
  ghost predicate ChangedTo(b: Booking, found: State, uid: string, answer: Answer, s': State, status: string, updatedAt: string) {
    && answer.Answered? && |answer.bookings| == 1
    && var c := answer.bookings[0];
    && b.uid == uid && Keeps(b, c) && SameTimes(b, c) && c.uid == uid && c.status == status && c.updatedAt == updatedAt
    && PutAt(found, s', uid, c)
  }

  /** A change goes through exactly then, given that its booking is found and may be changed. */
  predicate CanChange(b: Booking, requestId: string, env: Env, stored: bool) {
    env.valid && (stored ==> env.canSave && (b.requestId != "" || requestId != ""))
  }

  lemma GoesExactlyWhen(s: State, plans: seq<PlannedEffect>, env: Env, requestId: string)
    requires plans != [] && forall i :: 0 <= i < |plans| ==> plans[i].bookingUid != "" && plans[i].requestId == requestId
    ensures Goes(s, plans, env) <==> (s.repo.Some? ==> env.canSave && requestId != "")
  {
    if s.repo.Some? {
      if requestId != "" {
        forall p | p in plans ensures ValidPlan(p) {}
        ValidPlansSave(s.repo.value.outbox, plans, env.now);
      }
    }
  }

  lemma ConcludesWith(found: State, requestId: string, b: Booking, o: Booking, plans: seq<PlannedEffect>, env: Env)
    requires HalfHour(b) && b.uid != "" && o == UNSET.(status := o.status, updatedAt := o.updatedAt) && o.status != "" && o.updatedAt != ""
    requires var c := Changed(requestId, b, o); plans != [] && forall i :: 0 <= i < |plans| ==> plans[i].bookingUid == c.uid && plans[i].requestId == c.requestId
    ensures var c := Changed(requestId, b, o); var (answer, s') := Conclude(found, plans, [c], [b.uid], env);
      && (answer.Answered? <==> (found.repo.Some? ==> env.canSave && (b.requestId != "" || requestId != "")))
      && (answer.Answered? ==> answer.bookings == [c] && PutAt(found, s', b.uid, c))
      && (!answer.Answered? ==> answer == Errored && s' == found)
      && Keeps(b, c) && SameTimes(b, c) && c.uid == b.uid && c.status == o.status && c.updatedAt == o.updatedAt
  {
    var c := Changed(requestId, b, o);
    ChangesOnly(requestId, b, o);
    ConcludeOne(found, plans, c, env);
    GoesExactlyWhen(found, plans, env, c.requestId);
    if Goes(found, plans, env) { PuttingPuts(found, c, NewOutbox(found, plans, env)); }
  }

  predicate MayDecide(status: string) { status == "pending" || status == "awaiting_host" }

  /** A cancellation is answered if and only if its booking is found, the request is valid and, over
      a repository, the save succeeds and there is a request id to plan under; it then changes the
      status to cancelled and nothing else. */
  lemma CancelDoes(s: State, requestId: string, uid: string, reason: string, env: Env)
    requires StateOk(s)
    ensures var (answer, s') := Cancel(s, requestId, uid, reason, env); var (was, found) := Find(s, requestId, uid, env);
      && (answer.Answered? <==> was.Answered? && |was.bookings| == 1 && CanChange(was.bookings[0], requestId, env, found.repo.Some?))
      && (answer.Answered? ==> ChangedTo(was.bookings[0], found, uid, answer, s', "cancelled", "2026-01-01T00:05:00.000Z"))
      && (!answer.Answered? ==> s' == found)
  {
    FindKeeps(s, requestId, uid, env);
    var (was, found) := Find(s, requestId, uid, env);
    if was.Answered? {
      var b := was.bookings[0];
      assert was.bookings == [b];
      CancelShape(s, requestId, uid, reason, env, b, found);
      CancelConcludes(requestId, b, reason, env, found);
    }
  }

  lemma CancelShape(s: State, requestId: string, uid: string, reason: string, env: Env, b: Booking, found: State)
    requires Find(s, requestId, uid, env) == (Answered([b]), found)
    ensures Cancel(s, requestId, uid, reason, env)
      == if !env.valid then (Rejected, found) else Conclude(found, PlanCancelled(Cancelled(requestId, b), reason), [Cancelled(requestId, b)], [uid], env)
  {
  }

  lemma CancelConcludes(requestId: string, b: Booking, reason: string, env: Env, found: State)
    requires HalfHour(b) && b.uid != ""
    ensures var (answer, s') := Conclude(found, PlanCancelled(Cancelled(requestId, b), reason), [Cancelled(requestId, b)], [b.uid], env);
      && (answer.Answered? <==> (found.repo.Some? ==> env.canSave && (b.requestId != "" || requestId != "")))
      && (answer.Answered? ==> ChangedTo(b, found, b.uid, answer, s', "cancelled", "2026-01-01T00:05:00.000Z"))
      && (!answer.Answered? ==> s' == found)
  {
    ConcludesWith(found, requestId, b, UNSET.(status := "cancelled", updatedAt := "2026-01-01T00:05:00.000Z"), PlanCancelled(Cancelled(requestId, b), reason), env);
  }

  /** A confirmation also needs a pending booking. */
  lemma ConfirmDoes(s: State, requestId: string, uid: string, env: Env)
    requires StateOk(s)
    ensures var (answer, s') := Confirm(s, requestId, uid, env); var (was, found) := Find(s, requestId, uid, env);
      && (answer.Answered? <==> was.Answered? && |was.bookings| == 1 && MayDecide(was.bookings[0].status) && CanChange(was.bookings[0], requestId, env, found.repo.Some?))
      && (answer.Answered? ==> ChangedTo(was.bookings[0], found, uid, answer, s', "accepted", "2026-01-01T00:15:00.000Z"))
      && (!answer.Answered? ==> s' == found)
  {
    FindKeeps(s, requestId, uid, env);
    var (was, found) := Find(s, requestId, uid, env);
    if was.Answered? {
      var b := was.bookings[0];
      assert was.bookings == [b];
      ConfirmShape(s, requestId, uid, env, b, found);
      ConfirmConcludes(requestId, b, env, found);
    }
  }

  lemma ConfirmShape(s: State, requestId: string, uid: string, env: Env, b: Booking, found: State)
    requires Find(s, requestId, uid, env) == (Answered([b]), found)
    ensures Confirm(s, requestId, uid, env)
      == if !env.valid || !MayDecide(b.status) then (Rejected, found) else Conclude(found, PlanConfirmed(Confirmed(requestId, b)), [Confirmed(requestId, b)], [uid], env)
  {
  }

  lemma ConfirmConcludes(requestId: string, b: Booking, env: Env, found: State)
    requires HalfHour(b) && b.uid != ""
    ensures var (answer, s') := Conclude(found, PlanConfirmed(Confirmed(requestId, b)), [Confirmed(requestId, b)], [b.uid], env);
      && (answer.Answered? <==> (found.repo.Some? ==> env.canSave && (b.requestId != "" || requestId != "")))
      && (answer.Answered? ==> ChangedTo(b, found, b.uid, answer, s', "accepted", "2026-01-01T00:15:00.000Z"))
      && (!answer.Answered? ==> s' == found)
  {
    ConcludesWith(found, requestId, b, UNSET.(status := "accepted", updatedAt := "2026-01-01T00:15:00.000Z"), PlanConfirmed(Confirmed(requestId, b)), env);
  }

  /** And so does a decline. */
  lemma DeclineDoes(s: State, requestId: string, uid: string, reason: string, env: Env)
    requires StateOk(s)
    ensures var (answer, s') := Decline(s, requestId, uid, reason, env); var (was, found) := Find(s, requestId, uid, env);
      && (answer.Answered? <==> was.Answered? && |was.bookings| == 1 && MayDecide(was.bookings[0].status) && CanChange(was.bookings[0], requestId, env, found.repo.Some?))
      && (answer.Answered? ==> ChangedTo(was.bookings[0], found, uid, answer, s', "rejected", "2026-01-01T00:20:00.000Z"))
      && (!answer.Answered? ==> s' == found)
  {
    FindKeeps(s, requestId, uid, env);
    var (was, found) := Find(s, requestId, uid, env);
    if was.Answered? {
      var b := was.bookings[0];
      assert was.bookings == [b];
      DeclineShape(s, requestId, uid, reason, env, b, found);
      DeclineConcludes(requestId, b, reason, env, found);
    }
  }

  lemma DeclineShape(s: State, requestId: string, uid: string, reason: string, env: Env, b: Booking, found: State)
    requires Find(s, requestId, uid, env) == (Answered([b]), found)
    ensures Decline(s, requestId, uid, reason, env)
      == if !env.valid || !MayDecide(b.status) then (Rejected, found) else Conclude(found, PlanDeclined(Declined(requestId, b), reason), [Declined(requestId, b)], [uid], env)
  {
  }

  lemma DeclineConcludes(requestId: string, b: Booking, reason: string, env: Env, found: State)
    requires HalfHour(b) && b.uid != ""
    ensures var (answer, s') := Conclude(found, PlanDeclined(Declined(requestId, b), reason), [Declined(requestId, b)], [b.uid], env);
      && (answer.Answered? <==> (found.repo.Some? ==> env.canSave && (b.requestId != "" || requestId != "")))
      && (answer.Answered? ==> ChangedTo(b, found, b.uid, answer, s', "rejected", "2026-01-01T00:20:00.000Z"))
      && (!answer.Answered? ==> s' == found)
  {
    ConcludesWith(found, requestId, b, UNSET.(status := "rejected", updatedAt := "2026-01-01T00:20:00.000Z"), PlanDeclined(Declined(requestId, b), reason), env);
  }

  // ---------- rescheduling ----------

  /** The old booking cancelled, and its successor: the same booking under the fixed UID, accepted, at
      the start asked for, the default a day after the fixture's, and half an hour long. */
  predicate ReschedulePair(b: Booking, was: Booking, now: Booking, start: Option<int>) {
    var at := if start.Some? then start.value else 24 * 60;
    && Keeps(b, was) && SameTimes(b, was) && was.uid == b.uid && was.status == "cancelled" && was.updatedAt == "2026-01-01T00:10:00.000Z"
    && now.updatedAt == "2026-01-01T00:10:00.000Z"
    && KeepsRest(b, now) && now.uid == "mock-booking-rescheduled" && now.status == "accepted" && now.start == Some(at) && now.end == Some(at + 30)
    && now.externalId == "google-event-mock-booking-rescheduled"
  }

  lemma OldIsKept(requestId: string, b: Booking, at: int)
    requires HalfHour(b) && b.uid != ""
    ensures var was := Rescheduled(requestId, b, at).0; Keeps(b, was) && SameTimes(b, was) && was.uid == b.uid && was.status == "cancelled" && was.updatedAt == "2026-01-01T00:10:00.000Z"
  {
    ChangesOnly(requestId, b, UNSET.(status := "cancelled", updatedAt := "2026-01-01T00:10:00.000Z"));
  }

  /** Filling the gaps of a booking keeps what is set, and so does naming only what a move changes. */
  lemma FixtureKeeps(requestId: string, c: Booking)
    ensures KeepsRest(c, Fixture(requestId, c))
  {
  }

  lemma MergeKeeps(b: Booking, uid: string, status: string, start: int, end: int, updatedAt: string, externalId: string)
    ensures KeepsRest(b, Merge(b, UNSET.(uid := uid, status := status, start := Some(start), end := Some(end), updatedAt := updatedAt, externalId := externalId)))
  {
  }

  lemma MoveSets(requestId: string, b: Booking, o: Booking)
    requires o.uid != "" && o.status != "" && o.start.Some? && o.end.Some? && o.externalId != "" && o.updatedAt != "" && o.requestId == ""
    ensures var now := Changed(requestId, b, o);
      && now.uid == o.uid && now.status == o.status && now.start == o.start && now.end == o.end && now.externalId == o.externalId && now.updatedAt == o.updatedAt
      && now.requestId == if b.requestId != "" then b.requestId else requestId
  {
  }

  lemma NewIsMoved(requestId: string, b: Booking, at: int)
    ensures var now := Rescheduled(requestId, b, at).1;
      && KeepsRest(b, now) && now.uid == "mock-booking-rescheduled" && now.status == "accepted" && now.start == Some(at) && now.end == Some(at + 30)
      && now.externalId == "google-event-mock-booking-rescheduled" && now.updatedAt == "2026-01-01T00:10:00.000Z"
      && now.requestId == if b.requestId != "" then b.requestId else requestId
  {
    var o := UNSET.(uid := RESCHEDULED_UID, status := "accepted", start := Some(at), end := Some(EndForStart(at)),
                    updatedAt := "2026-01-01T00:10:00.000Z", externalId := ExternalId(RESCHEDULED_UID));
    assert o.externalId == "google-event-mock-booking-rescheduled";
    MoveSets(requestId, b, o);
    MergeKeeps(b, RESCHEDULED_UID, "accepted", at, EndForStart(at), "2026-01-01T00:10:00.000Z", ExternalId(RESCHEDULED_UID));
    FixtureKeeps(requestId, Merge(b, o));
  }

  /** Both bookings are in the cache, the successor last, and so are their rows. */
  ghost predicate PairPut(found: State, s': State, uid: string, was: Booking, now: Booking) {
    && s'.bookings == found.bookings[uid := was]["mock-booking-rescheduled" := now] && (found.repo.Some? <==> s'.repo.Some?)
    && (found.repo.Some? ==>
          var rows := s'.repo.value.bookings;
          && uid in rows && "mock-booking-rescheduled" in rows && IsRowOf(rows["mock-booking-rescheduled"], now)
          && (uid != "mock-booking-rescheduled" ==> IsRowOf(rows[uid], was)))
  }

  /** What an answered reschedule of this booking did. */
  ghost predicate RescheduledTo(b: Booking, found: State, start: Option<int>, answer: Answer, s': State) {
    && answer.Answered? && |answer.bookings| == 2 && ReschedulePair(b, answer.bookings[0], answer.bookings[1], start)
    && PairPut(found, s', b.uid, answer.bookings[0], answer.bookings[1])
  }

  lemma PairIsPut(found: State, was: Booking, now: Booking, outbox: seq<Effect>)
    requires now.uid == "mock-booking-rescheduled"
    ensures PairPut(found, Put(Put(found, was, outbox), now, outbox), was.uid, was, now)
  {
  }

  lemma RescheduleConcludes(requestId: string, b: Booking, start: Option<int>, reason: string, env: Env, found: State)
    requires HalfHour(b) && b.uid != ""
    ensures var (was, now) := Rescheduled(requestId, b, if start.Some? then start.value else RESCHEDULE_START);
      var (answer, s') := Conclude(found, PlanRescheduled(was, now, reason), [was, now], [b.uid, now.uid], env);
      && (answer.Answered? <==> (found.repo.Some? ==> env.canSave && (b.requestId != "" || requestId != "")))
      && (answer.Answered? ==> RescheduledTo(b, found, start, answer, s'))
      && (!answer.Answered? ==> s' == found)
  {
    var at := if start.Some? then start.value else RESCHEDULE_START;
    OldIsKept(requestId, b, at);
    NewIsMoved(requestId, b, at);
    var (was, now) := Rescheduled(requestId, b, at);
    var plans := PlanRescheduled(was, now, reason);
    ConcludeTwo(found, plans, was, now, env);
    GoesExactlyWhen(found, plans, env, now.requestId);
    if Goes(found, plans, env) { PairIsPut(found, was, now, NewOutbox(found, plans, env)); }
  }

  lemma RescheduleFound(s: State, requestId: string, uid: string, start: Option<int>, reason: string, env: Env, b: Booking, found: State)
    requires Find(s, requestId, uid, env) == (Answered([b]), found) && HalfHour(b) && b.uid == uid != ""
    ensures var (answer, s') := Reschedule(s, requestId, uid, start, reason, env);
      && (answer.Answered? <==> env.available == Some(true) && CanChange(b, requestId, env, found.repo.Some?))
      && (answer.Answered? ==> RescheduledTo(b, found, start, answer, s'))
      && (!answer.Answered? ==> s' == found)
  {
    RescheduleShape(s, requestId, uid, start, reason, env, b, found);
    RescheduleConcludes(requestId, b, start, reason, env, found);
  }

  /** A reschedule is answered if and only if its booking is found, the request is valid, the new slot
      is reported available and, over a repository, the save succeeds and there is a request id. It
      leaves the pair, the successor last. */
  lemma RescheduleDoes(s: State, requestId: string, uid: string, start: Option<int>, reason: string, env: Env)
    requires StateOk(s)
    ensures var (answer, s') := Reschedule(s, requestId, uid, start, reason, env); var (was, found) := Find(s, requestId, uid, env);
      && (answer.Answered? <==>
            was.Answered? && |was.bookings| == 1 && env.available == Some(true) && CanChange(was.bookings[0], requestId, env, found.repo.Some?))
      && (answer.Answered? ==> RescheduledTo(was.bookings[0], found, start, answer, s'))
      && (!answer.Answered? ==> s' == found)
  {
    FindKeeps(s, requestId, uid, env);
    var (was, found) := Find(s, requestId, uid, env);
    if was.Answered? {
      assert was.bookings == [was.bookings[0]];
      RescheduleFound(s, requestId, uid, start, reason, env, was.bookings[0], found);
    }
  }

  // ---------- creating ----------

  /** An earlier call with this key is remembered, in the cache or in the repository. */
  predicate Remembered(s: State, key: string) {
    && key != ""
    && ((key in s.idempotency && s.idempotency[key] in s.bookings)
        || (s.repo.Some? && key in s.repo.value.keys && s.repo.value.keys[key] in s.repo.value.bookings))
  }

  /** The booking asked for; what was not asked for is the fixture's. */
  predicate AsRequested(b: Booking, requestId: string, q: CreateRequest) {
    var at := if q.start.Some? then q.start.value else 0;
    && b.uid == "mock-booking-personal-basic" && b.status == "accepted" && b.requestId == requestId
    && b.id == 987 && b.externalId == "google-event-" + b.uid && FixtureParts(b)
    && b.start == Some(at) && b.end == Some(at + 30)
    && b.attendees == Some([Attendee(321,
         if q.attendee.name != "" then q.attendee.name else "Fixture Attendee",
         if q.attendee.email != "" then q.attendee.email else "fixture-attendee@example.test",
         if q.attendee.timeZone != "" then q.attendee.timeZone else "America/Chicago")])
    && b.owner == (if q.owner != 0 then q.owner else 123)
    && b.hosts == (if q.hosts.Some? then q.hosts else Some([123]))
    && b.responses == (if q.responses.Some? then q.responses else Some(""))
    && b.metadata == (if q.metadata.Some? then q.metadata else Some(""))
  }

  /** The created booking is in the cache and the repository, and is what its key now names. */
  ghost predicate Stored(s: State, s': State, b: Booking, key: string) {
    && s'.bookings == s.bookings[b.uid := b]
    && s'.idempotency == (if key == "" then s.idempotency else s.idempotency[key := b.uid])
    && (s.repo.Some? <==> s'.repo.Some?)
    && (s.repo.Some? ==>
          && s'.repo.value.outbox == s.repo.value.outbox
          && s'.repo.value.keys == (if key == "" then s.repo.value.keys else s.repo.value.keys[key := b.uid])
          && b.uid in s'.repo.value.bookings && IsRowOf(s'.repo.value.bookings[b.uid], b)
          && s'.repo.value.bookings == s.repo.value.bookings[b.uid := s'.repo.value.bookings[b.uid]])
  }

  lemma CreatedFromFixture(requestId: string, q: CreateRequest)
    ensures var b := Created(requestId, q); b.id == 987 && b.externalId == "google-event-" + b.uid && FixtureParts(b)
  {
  }

  lemma CreatedIsAsRequested(requestId: string, q: CreateRequest)
    ensures AsRequested(Created(requestId, q), requestId, q)
  {
    CreatedFromFixture(requestId, q);
  }

  /** A call whose key is not remembered is answered if and only if the request is valid, the slot was
      reported available and the repository, if any, answers and saves. It then answers the booking
      asked for and stores it under its key; otherwise it changes nothing. */
  lemma CreateDoes(s: State, requestId: string, q: CreateRequest, env: Env)
    requires StateOk(s) && !Remembered(s, q.key)
    ensures var (answer, s') := Create(s, requestId, q, env);
      var readable := q.key == "" || s.repo.None? || env.canRead;
      && (answer.Answered? <==> readable && env.valid && env.available == Some(true) && (s.repo.Some? ==> env.canSave))
      && (answer == Rejected <==> readable && (!env.valid || env.available == Some(false)))
      && (answer.Answered? ==> |answer.bookings| == 1 && AsRequested(answer.bookings[0], requestId, q) && Stored(s, s', answer.bookings[0], q.key))
      && (!answer.Answered? ==> answer in {Errored, Rejected} && s' == s)
  {
    CreatedIsAsRequested(requestId, q);
  }

  /** A call whose key is remembered answers the booking the key names, whatever else it asks for, and
      changes no row; from the cache it changes nothing at all. */
  lemma CreateAgainDoes(s: State, requestId: string, q: CreateRequest, env: Env)
    requires StateOk(s) && Remembered(s, q.key)
    ensures var (answer, s') := Create(s, requestId, q, env);
      && s'.repo == s.repo
      && (q.key in s.idempotency ==> answer == Answered([s.bookings[s.idempotency[q.key]]]) && s' == s)
      && (q.key !in s.idempotency ==>
            if env.canRead then answer == Answered([s.repo.value.bookings[s.repo.value.keys[q.key]]]) else answer == Errored && s' == s)
  {
  }

  /** So a repeat with the same key answers the booking the first call answered. */
  lemma CreateTwice(s: State, requestId: string, q: CreateRequest, env: Env, requestId': string, q': CreateRequest, env': Env)
    requires StateOk(s) && !Remembered(s, q.key) && q.key != "" && q'.key == q.key
    requires Create(s, requestId, q, env).0.Answered?
    ensures var (answer, s') := Create(s, requestId, q, env); Create(s', requestId', q', env') == (answer, s')
  {
    CreateDoes(s, requestId, q, env);
  }
}
