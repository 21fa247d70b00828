/** The booking Store and its repository as objects: maps updated under a mutex in front of
    transactions that save rows in loops. */
module BookingStore {
  import opened Lib
  import opened WebhookTables
  import opened Bookings
  import BookingGuarantees
  import BookingCalls

  lemma {:induction false} SavePlannedSplits(outbox: seq<Effect>, plans: seq<PlannedEffect>, now: int, n: nat)
    requires n < |plans| && SavePlanned(outbox, plans[..n], now).Some?
    ensures SavePlanned(outbox, plans[..n + 1], now)
      == if ValidPlan(plans[n]) then Some(SaveOnePlanned(SavePlanned(outbox, plans[..n], now).value, plans[n], now)) else None
    decreases n
  {
    if n == 0 {
      assert plans[..1][1..] == [] && plans[..1][0] == plans[0];
    } else {
      assert plans[..n][1..] == plans[1..][..n - 1] && plans[..n + 1][1..] == plans[1..][..n];
      assert plans[..n][0] == plans[0] && plans[..n + 1][0] == plans[0];
      SavePlannedSplits(SaveOnePlanned(outbox, plans[0], now), plans[1..], now, n - 1);
    }
  }

  lemma {:induction false} SavePlannedStops(outbox: seq<Effect>, plans: seq<PlannedEffect>, now: int, n: nat)
    requires n <= |plans| && SavePlanned(outbox, plans[..n], now).None?
    ensures SavePlanned(outbox, plans, now).None?
    decreases n
  {
    if n > 0 {
      assert plans[..n][0] == plans[0] && plans[..n][1..] == plans[1..][..n - 1];
      if ValidPlan(plans[0]) { SavePlannedStops(SaveOnePlanned(outbox, plans[0], now), plans[1..], now, n - 1); }
    }
  }

  class Repository {
    var bookings: map<string, Booking>
    var keys: map<string, string>
    var outbox: seq<Effect>

    function Contents(): Repo
      reads this
    {
      Repo(bookings, keys, outbox)
    }

    constructor ()
      ensures Contents() == Repo(map[], map[], [])
    {
      bookings, keys, outbox := map[], map[], [];
    }

    /** Bookings first, then the planned effects; whatever fails rolls everything back. */
    method SaveAll(plans: seq<PlannedEffect>, saved: seq<Booking>, now: int, commits: bool) returns (ok: bool)
      modifies this
      ensures ok <==> Save(old(Contents()), plans, saved, now, commits).Some?
      ensures Contents() == if ok then Save(old(Contents()), plans, saved, now, commits).value else old(Contents())
    {
      var rows := bookings;
      assert saved[..0] == [];
      for i := 0 to |saved|
        invariant rows == SaveRows(bookings, saved[..i]) && Contents() == old(Contents())
      {
        assert saved[..i + 1][..i] == saved[..i];
        rows := rows[saved[i].uid := Persisted(saved[i])];
      }
      assert saved[..|saved|] == saved;
      var effects := outbox;
      assert plans[..0] == [];
      for i := 0 to |plans|
        invariant SavePlanned(outbox, plans[..i], now) == Some(effects) && Contents() == old(Contents())
      {
        SavePlannedSplits(outbox, plans, now, i);
        if plans[i].bookingUid == "" || plans[i].requestId == "" {
          SavePlannedStops(outbox, plans, now, i + 1);
          return false;
        }
        if !exists j :: 0 <= j < |effects| && SamePlanKey(effects[j].plan, plans[i]) {
          effects := effects + [Effect(plans[i], Planned, 0, now)];
        }
      }
      assert plans[..|plans|] == plans;
      if !commits { return false; }
      bookings, outbox := rows, effects;
      return true;
    }

    method SaveNew(b: Booking, key: string, commits: bool) returns (ok: bool, duplicate: Option<string>)
      modifies this
      ensures ok <==> SaveCreated(old(Contents()), b, key, commits).Some?
      ensures !ok ==> Contents() == old(Contents())
      ensures ok ==> SaveCreated(old(Contents()), b, key, commits) == Some((Contents(), duplicate))
    {
      if !commits { return false, None; }
      if key != "" && key in keys { return true, Some(keys[key]); }
      bookings := bookings[b.uid := Persisted(b)];
      if key == "" { return true, None; }
      keys := keys[key := b.uid];
      return true, None;
    }
  }

  class Store {
    const repo: Repository?
    var bookings: map<string, Booking>
    var idempotency: map<string, string>

    function Contents(): State
      reads this, repo
    {
      State(bookings, idempotency, if repo == null then None else Some(repo.Contents()))
    }

    constructor (r: Repository?)
      ensures repo == r && Contents() == State(map[], map[], if r == null then None else Some(r.Contents()))
    {
      repo, bookings, idempotency := r, map[], map[];
    }

    method FindLocked(requestId: string, uid: string, env: Env) returns (a: Answer)
      modifies this`bookings, repo
      ensures (a, Contents()) == Find(old(Contents()), requestId, uid, env)
    {
      if uid in bookings { return Answered([bookings[uid]]); }
      if repo != null {
        if !env.canRead { return Errored; }
        if uid in repo.bookings {
          bookings := bookings[repo.bookings[uid].uid := repo.bookings[uid]];
          return Answered([repo.bookings[uid]]);
        }
      }
      var created;
      if uid == PRIMARY_UID {
        created := Fixture(requestId, UNSET);
      } else if uid == PENDING_CONFIRM_UID || uid == PENDING_DECLINE_UID {
        created := PendingFixture(requestId, uid);
      } else {
        return Missing;
      }
      if repo != null {
        var ok, _ := repo.SaveNew(created, "", env.canSave);
        if !ok { return Errored; }
      }
      bookings := bookings[created.uid := created];
      return Answered([created]);
    }

    /** Saves one changed booking with its plan, then caches it. */
    method SaveChange(plans: seq<PlannedEffect>, b: Booking, uid: string, env: Env) returns (a: Answer)
      modifies this`bookings, repo
      ensures (a, Contents()) == Conclude(old(Contents()), plans, [b], [uid], env)
    {
      if repo != null {
        var ok := repo.SaveAll(plans, [b], env.now, env.canSave);
        if !ok { return Errored; }
      }
      assert [b][..|[b]| - 1] == [] && [uid][..|[uid]| - 1] == [] && CacheAll(bookings, [], []) == bookings;
      bookings := bookings[uid := b];
      return Answered([b]);
    }

    method CancelBooking(requestId: string, uid: string, reason: string, env: Env) returns (a: Answer)
      modifies this`bookings, repo
      ensures (a, Contents()) == Cancel(old(Contents()), requestId, uid, reason, env)
    {
      a := FindLocked(requestId, uid, env);
      if !a.Answered? { return; }
      if |a.bookings| != 1 || !env.valid { return Rejected; }
      var cancelled := Cancelled(requestId, a.bookings[0]);
      a := SaveChange(PlanCancelled(cancelled, reason), cancelled, uid, env);
    }

    method ConfirmBooking(requestId: string, uid: string, env: Env) returns (a: Answer)
      modifies this`bookings, repo
      ensures (a, Contents()) == Confirm(old(Contents()), requestId, uid, env)
    {
      a := FindLocked(requestId, uid, env);
      if !a.Answered? { return; }
      if |a.bookings| != 1 || !env.valid || !Confirmable(a.bookings[0].status) { return Rejected; }
      var confirmed := Confirmed(requestId, a.bookings[0]);
      a := SaveChange(PlanConfirmed(confirmed), confirmed, uid, env);
    }

    method DeclineBooking(requestId: string, uid: string, reason: string, env: Env) returns (a: Answer)
      modifies this`bookings, repo
      ensures (a, Contents()) == Decline(old(Contents()), requestId, uid, reason, env)
    {
      a := FindLocked(requestId, uid, env);
      if !a.Answered? { return; }
      if |a.bookings| != 1 || !env.valid || !Confirmable(a.bookings[0].status) { return Rejected; }
      var declined := Declined(requestId, a.bookings[0]);
      a := SaveChange(PlanDeclined(declined, reason), declined, uid, env);
    }

    method RescheduleBooking(requestId: string, uid: string, start: Option<int>, reason: string, env: Env) returns (a: Answer)
      modifies this`bookings, repo
      ensures (a, Contents()) == Reschedule(old(Contents()), requestId, uid, start, reason, env)
    {
      a := FindLocked(requestId, uid, env);
      if !a.Answered? { return; }
      if |a.bookings| != 1 || !env.valid { return Rejected; }
      if env.available.None? { return Errored; }
      if !env.available.value { return Rejected; }
      var (was, now) := Rescheduled(requestId, a.bookings[0], if start.Some? then start.value else RESCHEDULE_START);
      if repo != null {
        var ok := repo.SaveAll(PlanRescheduled(was, now, reason), [was, now], env.now, env.canSave);
        if !ok { return Errored; }
      }
      CachesTwo(bookings, was, now, uid, now.uid);
      bookings := bookings[uid := was];
      bookings := bookings[now.uid := now];
      return Answered([was, now]);
    }

    method CreateBooking(requestId: string, q: CreateRequest, env: Env) returns (a: Answer)
      modifies this, repo
      ensures (a, Contents()) == Create(old(Contents()), requestId, q, env)
      ensures BookingGuarantees.StateOk(old(Contents())) && !BookingCalls.Remembered(old(Contents()), q.key) && a.Answered? ==>
        |a.bookings| == 1 && BookingCalls.AsRequested(a.bookings[0], requestId, q) && BookingCalls.Stored(old(Contents()), Contents(), a.bookings[0], q.key)
    {
      ghost var before := Contents();
      if BookingGuarantees.StateOk(before) && !BookingCalls.Remembered(before, q.key) { BookingCalls.CreateDoes(before, requestId, q, env); }
      if q.key != "" {
        if q.key in idempotency && idempotency[q.key] in bookings { return Answered([bookings[idempotency[q.key]]]); }
        if repo != null {
          if !env.canRead { return Errored; }
          if q.key in repo.keys && repo.keys[q.key] in repo.bookings {
            var b := repo.bookings[repo.keys[q.key]];
            RememberBooking(b, q.key);
            return Answered([b]);
          }
        }
      }
      if !env.valid { return Rejected; }
      if env.available.None? { return Errored; }
      if !env.available.value { return Rejected; }
      var created := Created(requestId, q);
      if repo != null {
        var ok, duplicate := repo.SaveNew(created, q.key, env.canSave);
        if !ok { return Errored; }
        if duplicate.Some? { return Errored; }
      }
      RememberBooking(created, q.key);
      return Answered([created]);
    }

    method RememberBooking(b: Booking, key: string)
      modifies this`bookings, this`idempotency
      ensures Contents() == Remember(Cache(old(Contents()), b), key, b.uid)
    {
      bookings := bookings[b.uid := b];
      if key != "" { idempotency := idempotency[key := b.uid]; }
    }
  }

  lemma CachesTwo(m: map<string, Booking>, a: Booking, b: Booking, uid: string, uid': string)
    ensures CacheAll(m, [a, b], [uid, uid']) == m[uid := a][uid' := b]
  {
    assert [a, b][..|[a, b]| - 1] == [a] && [uid, uid'][..|[uid, uid']| - 1] == [uid];
    assert [a][..|[a]| - 1] == [] && [uid][..|[uid]| - 1] == [] && CacheAll(m, [], []) == m;
  }
}
