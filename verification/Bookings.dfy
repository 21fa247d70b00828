/** Booking values, the calls of the booking Store on its cache and its repository, and the effects
    each call plans. Times are minutes; an unset field is empty, zero or absent as in the code. */
module Bookings {
  import opened Lib
  import opened WebhookTables

  datatype Attendee = Attendee(id: int, name: string, email: string, timeZone: string)

  datatype Booking = Booking(
    uid: string, id: int, title: string, status: string, start: Option<int>, end: Option<int>, eventType: int,
    attendees: Option<seq<Attendee>>, responses: Option<string>, metadata: Option<string>,
    createdAt: string, updatedAt: string, requestId: string,
    selectedRef: string, destinationRef: string, externalId: string, owner: int, hosts: Option<seq<int>>)

  const PRIMARY_UID := "mock-booking-personal-basic"
  const RESCHEDULED_UID := "mock-booking-rescheduled"
  const PENDING_CONFIRM_UID := "mock-booking-pending-confirm"
  const PENDING_DECLINE_UID := "mock-booking-pending-decline"
  const OWNER_ID := 123
  const EVENT_TYPE_ID := 1001
  const TIME_ZONE := "America/Chicago"
  const SELECTED_REF := "selected-calendar-fixture"
  const DESTINATION_REF := "destination-calendar-fixture"

  /** Minutes: the fixture slot's start as origin, and the other fixed starts relative to it. */
  const BOOKING_START := 0
  const RESCHEDULE_START := 24 * 60
  const PENDING_START := 48 * 60
  const DURATION := 30

  const UNSET := Booking("", 0, "", "", None, None, 0, None, None, None, "", "", "", "", "", "", 0, None)

  function Text(o: string, b: string): string { if o != "" then o else b }

  function Number(o: int, b: int): int { if o != 0 then o else b }

  function Value<T>(o: Option<T>, b: Option<T>): Option<T> { if o.Some? then o else b }

  /** Fields set in `o` replace those of `b`. */
  function Merge(b: Booking, o: Booking): Booking {
    Booking(
      Text(o.uid, b.uid), Number(o.id, b.id), Text(o.title, b.title), Text(o.status, b.status), Value(o.start, b.start), Value(o.end, b.end),
      Number(o.eventType, b.eventType), Value(o.attendees, b.attendees), Value(o.responses, b.responses), Value(o.metadata, b.metadata),
      Text(o.createdAt, b.createdAt), Text(o.updatedAt, b.updatedAt), Text(o.requestId, b.requestId),
      Text(o.selectedRef, b.selectedRef), Text(o.destinationRef, b.destinationRef), Text(o.externalId, b.externalId),
      Number(o.owner, b.owner), Value(o.hosts, b.hosts))
  }

  function ExternalId(uid: string): string { if uid == "" then "" else "google-event-" + uid }

  function FixtureBase(requestId: string): Booking {
    Booking(
      PRIMARY_UID, 987, "Fixture Event", "accepted", Some(BOOKING_START), Some(BOOKING_START + DURATION), EVENT_TYPE_ID,
      Some([Attendee(321, "Fixture Attendee", "fixture-attendee@example.test", TIME_ZONE)]),
      Some("fixture attendee"), Some("personal-basic"),
      "2026-01-01T00:00:00.000Z", "2026-01-01T00:00:00.000Z", requestId, SELECTED_REF, DESTINATION_REF, "", OWNER_ID, Some([OWNER_ID]))
  }

  function Fixture(requestId: string, o: Booking): Booking {
    var merged := Merge(FixtureBase(requestId), o);
    merged.(selectedRef := Text(merged.selectedRef, SELECTED_REF), destinationRef := Text(merged.destinationRef, DESTINATION_REF),
            externalId := Text(merged.externalId, ExternalId(merged.uid)))
  }

  function PendingFixture(requestId: string, uid: string): Booking {
    Fixture(requestId, UNSET.(uid := uid, id := if uid == PENDING_DECLINE_UID then 989 else 988, status := "pending",
                              start := Some(PENDING_START), end := Some(PENDING_START + DURATION), metadata := Some("pending-host-action")))
  }

  function EndForStart(start: int): int { start + DURATION }

  predicate Confirmable(status: string) { status == "pending" || status == "awaiting_host" }

  /** A change to an existing booking: its fields stay, the named ones change, gaps are filled. */
  function Changed(requestId: string, existing: Booking, o: Booking): Booking { Fixture(requestId, Merge(existing, o)) }

  // ---------- the effects a call plans ----------

  function Hint(name: string, value: string): string { if value == "" then "" else name + "=" + value + ";" }

  function CalendarHints(b: Booking): string {
    Hint("selectedCalendarRef", b.selectedRef) + Hint("destinationCalendarRef", b.destinationRef) + Hint("externalEventId", b.externalId)
  }

  function PlanCancelled(b: Booking, reason: string): seq<PlannedEffect> {
    [PlannedEffect(CalendarCancelled, b.uid, b.requestId, CalendarHints(b)),
     PlannedEffect(EmailCancelled, b.uid, b.requestId, "cancellationReason=" + reason),
     PlannedEffect(WebhookCancelled, b.uid, b.requestId, "cancellationReason=" + reason)]
  }

  function PlanRescheduled(was: Booking, b: Booking, reason: string): seq<PlannedEffect> {
    var text := "rescheduleUid=" + was.uid + ";reschedulingReason=" + reason;
    [PlannedEffect(CalendarRescheduled, b.uid, b.requestId,
                   CalendarHints(b) + "rescheduleUid=" + was.uid + ";" + Hint("previousExternalEventId", was.externalId)),
     PlannedEffect(EmailRescheduled, b.uid, b.requestId, text),
     PlannedEffect(WebhookRescheduled, b.uid, b.requestId, text)]
  }

  function PlanConfirmed(b: Booking): seq<PlannedEffect> {
    [PlannedEffect(EmailConfirmed, b.uid, b.requestId, ""), PlannedEffect(WebhookConfirmed, b.uid, b.requestId, "")]
  }

  function PlanDeclined(b: Booking, reason: string): seq<PlannedEffect> {
    [PlannedEffect(EmailDeclined, b.uid, b.requestId, "reason=" + reason), PlannedEffect(WebhookDeclined, b.uid, b.requestId, "reason=" + reason)]
  }

  // ---------- the repository ----------

  /** Booking rows do not hold the owner and the hosts. */
  function Persisted(b: Booking): Booking {
    b.(owner := 0, hosts := None, attendees := Value(b.attendees, Some([])), responses := Value(b.responses, Some("")),
       metadata := Value(b.metadata, Some("")))
  }

  datatype Repo = Repo(bookings: map<string, Booking>, keys: map<string, string>, outbox: seq<Effect>)

  function SaveRows(bookings: map<string, Booking>, saved: seq<Booking>): map<string, Booking>
    decreases |saved|
  {
    if saved == [] then bookings
    else SaveRows(bookings, saved[..|saved| - 1])[saved[|saved| - 1].uid := Persisted(saved[|saved| - 1])]
  }

  /** Bookings and planned effects in one transaction, which `ok` lets succeed. */
  function Save(r: Repo, plans: seq<PlannedEffect>, saved: seq<Booking>, now: int, ok: bool): Option<Repo> {
    match SavePlanned(r.outbox, plans, now)
    case None => None
    case Some(outbox) => if ok then Some(r.(bookings := SaveRows(r.bookings, saved), outbox := outbox)) else None
  }

  /** A created booking under an idempotency key, or the booking the key already names. */
  function SaveCreated(r: Repo, b: Booking, key: string, ok: bool): Option<(Repo, Option<string>)> {
    if !ok then None
    else if key != "" && key in r.keys then Some((r, Some(r.keys[key])))
    else Some((r.(bookings := r.bookings[b.uid := Persisted(b)], keys := if key == "" then r.keys else r.keys[key := b.uid]), None))
  }

  // ---------- the Store ----------

  datatype State = State(bookings: map<string, Booking>, idempotency: map<string, string>, repo: Option<Repo>)

  datatype Answer = Errored | Missing | Rejected | Answered(bookings: seq<Booking>)

  datatype CreateRequest = CreateRequest(start: Option<int>, attendee: Attendee, responses: Option<string>, metadata: Option<string>,
    key: string, owner: int, hosts: Option<seq<int>>)

  /** What the outside decides: validity of the input, availability, the clock, and whether the
      repository's transactions go through. */
  datatype Env = Env(valid: bool, available: Option<bool>, now: int, canRead: bool, canSave: bool)

  function Cache(s: State, b: Booking): State { s.(bookings := s.bookings[b.uid := b]) }

  /** The booking with this UID: cached, read from the repository, or a fixture created on sight. */
  function Find(s: State, requestId: string, uid: string, env: Env): (Answer, State) {
    if uid in s.bookings then (Answered([s.bookings[uid]]), s)
    else if s.repo.Some? && !env.canRead then (Errored, s)
    else if s.repo.Some? && uid in s.repo.value.bookings then
      (Answered([s.repo.value.bookings[uid]]), Cache(s, s.repo.value.bookings[uid]))
    else if uid != PRIMARY_UID && uid != PENDING_CONFIRM_UID && uid != PENDING_DECLINE_UID then (Missing, s)
    else
      var created := if uid == PRIMARY_UID then Fixture(requestId, UNSET) else PendingFixture(requestId, uid);
      match s.repo
      case None => (Answered([created]), Cache(s, created))
      case Some(r) =>
        match SaveCreated(r, created, "", env.canSave)
        case None => (Errored, s)
        case Some((r', _)) => (Answered([created]), Cache(s.(repo := Some(r')), created))
  }

  /** The end of every change: plan, save with the plan, then cache. */
  function Conclude(s: State, plans: seq<PlannedEffect>, changed: seq<Booking>, uids: seq<string>, env: Env): (Answer, State)
    requires |changed| == |uids|
  {
    match s.repo
    case None => (Answered(changed), s.(bookings := CacheAll(s.bookings, changed, uids)))
    case Some(r) =>
      match Save(r, plans, changed, env.now, env.canSave)
      case None => (Errored, s)
      case Some(r') => (Answered(changed), s.(repo := Some(r'), bookings := CacheAll(s.bookings, changed, uids)))
  }

  function CacheAll(bookings: map<string, Booking>, changed: seq<Booking>, uids: seq<string>): map<string, Booking>
    requires |changed| == |uids|
    decreases |changed|
  {
    if changed == [] then bookings
    else CacheAll(bookings, changed[..|changed| - 1], uids[..|uids| - 1])[uids[|uids| - 1] := changed[|changed| - 1]]
  }

  function Cancelled(requestId: string, b: Booking): Booking {
    Changed(requestId, b, UNSET.(status := "cancelled", updatedAt := "2026-01-01T00:05:00.000Z"))
  }

  function Cancel(s: State, requestId: string, uid: string, reason: string, env: Env): (Answer, State) {
    match Find(s, requestId, uid, env)
    case (Answered(found), s') =>
      if |found| != 1 || !env.valid then (Rejected, s')
      else
        var cancelled := Cancelled(requestId, found[0]);
        Conclude(s', PlanCancelled(cancelled, reason), [cancelled], [uid], env)
    case other => other
  }

  function Rescheduled(requestId: string, b: Booking, start: int): (Booking, Booking) {
    (Changed(requestId, b, UNSET.(status := "cancelled", updatedAt := "2026-01-01T00:10:00.000Z")),
     Changed(requestId, b, UNSET.(uid := RESCHEDULED_UID, status := "accepted", start := Some(start), end := Some(EndForStart(start)),
                                  updatedAt := "2026-01-01T00:10:00.000Z", externalId := ExternalId(RESCHEDULED_UID))))
  }

  function Reschedule(s: State, requestId: string, uid: string, start: Option<int>, reason: string, env: Env): (Answer, State) {
    match Find(s, requestId, uid, env)
    case (Answered(found), s') =>
      if |found| != 1 || !env.valid then (Rejected, s')
      else if env.available.None? then (Errored, s')
      else if !env.available.value then (Rejected, s')
      else
        var (was, now) := Rescheduled(requestId, found[0], if start.Some? then start.value else RESCHEDULE_START);
        Conclude(s', PlanRescheduled(was, now, reason), [was, now], [uid, now.uid], env)
    case other => other
  }

  function Confirmed(requestId: string, b: Booking): Booking {
    Changed(requestId, b, UNSET.(status := "accepted", updatedAt := "2026-01-01T00:15:00.000Z"))
  }

  function Confirm(s: State, requestId: string, uid: string, env: Env): (Answer, State) {
    match Find(s, requestId, uid, env)
    case (Answered(found), s') =>
      if |found| != 1 || !env.valid || !Confirmable(found[0].status) then (Rejected, s')
      else
        var confirmed := Confirmed(requestId, found[0]);
        Conclude(s', PlanConfirmed(confirmed), [confirmed], [uid], env)
    case other => other
  }

  function Declined(requestId: string, b: Booking): Booking {
    Changed(requestId, b, UNSET.(status := "rejected", updatedAt := "2026-01-01T00:20:00.000Z"))
  }

  function Decline(s: State, requestId: string, uid: string, reason: string, env: Env): (Answer, State) {
    match Find(s, requestId, uid, env)
    case (Answered(found), s') =>
      if |found| != 1 || !env.valid || !Confirmable(found[0].status) then (Rejected, s')
      else
        var declined := Declined(requestId, found[0]);
        Conclude(s', PlanDeclined(declined, reason), [declined], [uid], env)
    case other => other
  }

  function Named(a: Attendee): Attendee {
    Attendee(321, Text(a.name, "Fixture Attendee"), Text(a.email, "fixture-attendee@example.test"), Text(a.timeZone, TIME_ZONE))
  }

  function Created(requestId: string, q: CreateRequest): Booking {
    var start := if q.start.Some? then q.start.value else BOOKING_START;
    Fixture(requestId, UNSET.(start := Some(start), end := Some(EndForStart(start)), owner := q.owner, hosts := q.hosts,
                              attendees := Some([Named(q.attendee)]), responses := Value(q.responses, Some("")), metadata := Value(q.metadata, Some(""))))
  }

  function Remember(s: State, key: string, uid: string): State {
    if key == "" then s else s.(idempotency := s.idempotency[key := uid])
  }

  /** The new booking, or the one an earlier call with this key created. With one Store over its
      repository a key that SaveCreated still finds is one whose booking could not be read. */
  function Create(s: State, requestId: string, q: CreateRequest, env: Env): (Answer, State) {
    var k := q.key;
    if k != "" && k in s.idempotency && s.idempotency[k] in s.bookings then (Answered([s.bookings[s.idempotency[k]]]), s)
    else if k != "" && s.repo.Some? && !env.canRead then (Errored, s)
    else if k != "" && s.repo.Some? && k in s.repo.value.keys && s.repo.value.keys[k] in s.repo.value.bookings then
      var b := s.repo.value.bookings[s.repo.value.keys[k]];
      (Answered([b]), Remember(Cache(s, b), k, b.uid))
    else if !env.valid then (Rejected, s)
    else if env.available.None? then (Errored, s)
    else if !env.available.value then (Rejected, s)
    else
      var b := Created(requestId, q);
      match s.repo
      case None => (Answered([b]), Remember(Cache(s, b), k, b.uid))
      case Some(r) =>
        match SaveCreated(r, b, k, env.canSave)
        case None => (Errored, s)
        case Some((r', None)) => (Answered([b]), Remember(Cache(s.(repo := Some(r')), b), k, b.uid))
        case Some((_, Some(_))) => (Errored, s)
  }
}
