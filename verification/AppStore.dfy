/** The Store without a repository, as the code writes it: an object whose maps are read, checked
    and updated in place. */
module AppStore {
  import opened Lib
  import opened AppTables
  import opened AppMemory

  /** A scan over a map in whatever order the iteration takes. When at most one row can match,
      the order does not matter. */
  method ScanRows<T(!new)>(rows: map<Ref, T>, matches: T -> bool) returns (found: Option<T>)
    requires forall j, k :: j in rows && k in rows && matches(rows[j]) && matches(rows[k]) ==> rows[j] == rows[k]
    ensures found == Scan(rows, matches)
  {
    var left := rows.Keys;
    while left != {}
      invariant left <= rows.Keys
      invariant forall k :: k in rows.Keys - left ==> !matches(rows[k])
      decreases |left|
    {
      var k :| k in left;
      if matches(rows[k]) { return Some(rows[k]); }
      left := left - {k};
    }
    return None;
  }

  /** The scan for the latest row: greatest wire time, and the greatest reference among equals. */
  predicate Before<T>(a: T, b: T, time: T -> string, ref: T -> Ref) {
    Less(time(a), time(b)) || (time(a) == time(b) && Less(ref(a), ref(b)))
  }

  ghost predicate IsLatest<T(!new)>(rows: map<Ref, T>, mine: T -> bool, time: T -> string, ref: T -> Ref, latest: T) {
    && mine(latest)
    && (exists k :: k in rows && rows[k] == latest)
    && forall k :: k in rows && mine(rows[k]) && ref(rows[k]) != ref(latest) ==> Before(rows[k], latest, time, ref)
  }

  ghost predicate DistinctRefs<T(!new)>(rows: map<Ref, T>, ref: T -> Ref) {
    forall j, k :: j in rows && k in rows && ref(rows[j]) == ref(rows[k]) ==> j == k
  }

  method LatestRow<T(!new)>(rows: map<Ref, T>, mine: T -> bool, time: T -> string, ref: T -> Ref) returns (latest: Option<T>)
    requires DistinctRefs(rows, ref)
    ensures latest.None? ==> forall k :: k in rows ==> !mine(rows[k])
    ensures latest.Some? ==> IsLatest(rows, mine, time, ref, latest.value)
  {
    var left := rows.Keys;
    latest := None;
    while left != {}
      invariant left <= rows.Keys
      invariant latest.None? ==> forall k :: k in rows.Keys - left ==> !mine(rows[k])
      invariant latest.Some? ==> mine(latest.value) && exists k :: k in rows && rows[k] == latest.value
      invariant latest.Some? ==> forall k :: k in rows.Keys - left && mine(rows[k]) && ref(rows[k]) != ref(latest.value) ==> Before(rows[k], latest.value, time, ref)
      decreases |left|
    {
      var k :| k in left;
      var row := rows[k];
      if mine(row) && (latest.None? || Before(latest.value, row, time, ref)) {
        if latest.Some? {
          var was := latest.value;
          forall j | j in rows.Keys - left && mine(rows[j]) && ref(rows[j]) != ref(row) ensures Before(rows[j], row, time, ref) {
            if ref(rows[j]) != ref(was) { BeforeIsTransitive(rows[j], was, row, time, ref); }
          }
        }
        latest := Some(row);
      } else if mine(row) {
        LessIsTotal(time(latest.value), time(row));
        LessIsTotal(ref(latest.value), ref(row));
      }
      left := left - {k};
    }
  }

  lemma BeforeIsTransitive<T>(a: T, b: T, c: T, time: T -> string, ref: T -> Ref)
    requires Before(a, b, time, ref) && Before(b, c, time, ref)
    ensures Before(a, c, time, ref)
  {
    if Less(time(a), time(b)) && Less(time(b), time(c)) { LessIsTransitive(time(a), time(b), time(c)); }
    if Less(ref(a), ref(b)) && Less(ref(b), ref(c)) { LessIsTransitive(ref(a), ref(b), ref(c)); }
  }

  /** The answer does not depend on the order of the scan. */
  lemma LatestIsUnique<T(!new)>(rows: map<Ref, T>, mine: T -> bool, time: T -> string, ref: T -> Ref, a: T, b: T)
    requires DistinctRefs(rows, ref)
    requires IsLatest(rows, mine, time, ref, a) && IsLatest(rows, mine, time, ref, b)
    ensures a == b
  {
    if ref(a) != ref(b) {
      assert Before(a, b, time, ref) && Before(b, a, time, ref);
      if Less(time(a), time(b)) { LessIsAsymmetric(time(a), time(b)); } else { LessIsAsymmetric(ref(a), ref(b)); }
    }
  }

  // ---------- the in-memory Store ----------

  ghost predicate KeyedBy<T(!new)>(rows: map<Ref, T>, key: T -> Ref) {
    forall k :: k in rows ==> key(rows[k]) == k
  }

  /** What a call answers and leaves behind. */
  ghost predicate Answers<S, T>(before: S, after: S, step: Result<S, Error>, answer: Result<T, Error>) {
    match step
    case Err(e) => answer == Err(e) && after == before
    case Ok(s) => answer.Ok? && after == s
  }

  class Store {
    const catalog: Catalog
    var installIntents: map<Ref, Intent>
    var externalAuthSessions: map<Ref, Session>
    var authorizationPreviews: map<Ref, Preview>
    var callbackPreflights: map<Ref, Preflight>
    var providerExchanges: map<Ref, Exchange>
    var installCompletions: map<Ref, Completion>
    var appInstallations: map<Ref, Installation>

    ghost function State(): Mem
      reads this
    {
      Mem(installIntents, externalAuthSessions, authorizationPreviews, callbackPreflights, providerExchanges, installCompletions, appInstallations)
    }

    /** References are never drawn twice, and every row stands under its predecessor's. */
    ghost predicate Valid()
      reads this
    {
      && KeyedBy(callbackPreflights, (p: Preflight) => p.state) && DistinctRefs(callbackPreflights, (p: Preflight) => p.ref)
      && KeyedBy(providerExchanges, (e: Exchange) => e.preflight) && DistinctRefs(providerExchanges, (e: Exchange) => e.ref)
      && KeyedBy(installCompletions, (c: Completion) => c.exchange) && DistinctRefs(installCompletions, (c: Completion) => c.ref)
    }

    constructor (cat: Catalog)
      ensures Valid() && catalog == cat && State() == EMPTY_MEM
    {
      catalog := cat;
      installIntents, externalAuthSessions, authorizationPreviews := map[], map[], map[];
      callbackPreflights, providerExchanges, installCompletions, appInstallations := map[], map[], map[], map[];
    }

    method CreateInstallIntent(user: int, app: string, ref: Ref) returns (r: Result<Intent, Error>)
      requires Valid()
      modifies this
      ensures Valid() && Answers(old(State()), State(), MemStep(catalog, old(State()), Call.CreateInstallIntent(user, app, ref)), r)
      ensures r.Ok? ==> ref in installIntents && r.value == installIntents[ref]
      ensures r.Ok? ==> r.value == Intent(user, app, Pending)
    {
      if user <= 0 || app == "" { return Err(Invalid); }
      if app !in catalog { return Err(AppNotFound); }
      var intent := Intent(user, app, Pending);
      installIntents := installIntents[ref := intent];
      return Ok(intent);
    }

    method MarkInstallIntentRequiresExternalAuth(user: int, ref: Ref) returns (r: Result<Intent, Error>)
      requires Valid()
      modifies this
      ensures Valid() && Answers(old(State()), State(), MemStep(catalog, old(State()), MarkRequiresExternalAuth(user, ref)), r)
      ensures r.Ok? ==> ref in installIntents && r.value == installIntents[ref]
      ensures r.Ok? ==> r.value.user == user && r.value.status == RequiresExternalAuth
    {
      if user <= 0 || ref == "" { return Err(Invalid); }
      if ref !in installIntents || installIntents[ref].user != user { return Err(IntentNotFound); }
      var intent := installIntents[ref];
      if intent.status != Pending && intent.status != RequiresExternalAuth { return Err(IntentNotReady); }
      intent := intent.(status := RequiresExternalAuth);
      installIntents := installIntents[ref := intent];
      return Ok(intent);
    }

    /** The checks every handoff step repeats. */
    method OpenIntent(user: int, ref: Ref) returns (r: Result<(string, App), Error>)
      ensures r == ReadyIntent(catalog, installIntents, user, ref)
    {
      if ref !in installIntents || installIntents[ref].user != user { return Err(IntentNotFound); }
      var intent := installIntents[ref];
      if intent.status != RequiresExternalAuth { return Err(IntentNotReady); }
      if intent.app !in catalog { return Err(AppNotFound); }
      return Ok((intent.app, catalog[intent.app]));
    }

    method ReadExternalAuthDescriptor(user: int, ref: Ref, state: Ref, now: int) returns (r: Result<Session, Error>)
      requires Valid()
      modifies this
      ensures Valid() && Answers(old(State()), State(), MemStep(catalog, old(State()), ReadDescriptor(user, ref, state, now)), r)
      ensures r.Ok? ==> state in externalAuthSessions && r.value == externalAuthSessions[state]
      ensures r.Ok? ==> r.value == Session(user, ref, now + 600_000, None)
    {
      if user <= 0 || ref == "" { return Err(Invalid); }
      var ready := OpenIntent(user, ref);
      if ready.Err? { return Err(ready.error); }
      var session := Session(user, ref, now + SESSION_TTL, None);
      externalAuthSessions := externalAuthSessions[state := session];
      return Ok(session);
    }

    method ConsumeExternalAuthSession(user: int, ref: Ref, state: Ref, now: int) returns (r: Result<Session, Error>)
      requires Valid()
      modifies this
      ensures Valid() && Answers(old(State()), State(), MemConsume(old(State()), user, ref, state, now), r)
      ensures r.Ok? ==> state in externalAuthSessions && r.value == externalAuthSessions[state]
      ensures r.Ok? ==> r.value.user == user && r.value.intent == ref && now < r.value.expiresAt && r.value.consumedAt == Some(now)
    {
      if user <= 0 || ref == "" || state == "" { return Err(Invalid); }
      if state !in externalAuthSessions { return Err(SessionNotFound); }
      var session := externalAuthSessions[state];
      if session.user != user || session.intent != ref { return Err(SessionNotFound); }
      if session.consumedAt.Some? { return Err(SessionConsumed); }
      if !(session.expiresAt > now) { return Err(SessionExpired); }
      session := session.(consumedAt := Some(now));
      externalAuthSessions := externalAuthSessions[state := session];
      return Ok(session);
    }

    method PreviewExternalAuthAuthorization(user: int, ref: Ref, state: Ref, drawn: Ref, now: int) returns (r: Result<Preview, Error>)
      requires Valid()
      modifies this
      ensures Valid() && Answers(old(State()), State(), MemStep(catalog, old(State()), PreviewAuthorization(user, ref, state, drawn, now)), r)
      ensures r.Ok? ==> state in authorizationPreviews && r.value == authorizationPreviews[state]
      ensures r.Ok? ==> r.value.ref == drawn && r.value.user == user && r.value.intent == ref && r.value.state == state && r.value.requestedAt == now
    {
      if user <= 0 || ref == "" || state == "" { return Err(Invalid); }
      var ready := OpenIntent(user, ref);
      if ready.Err? { return Err(ready.error); }
      var session := ConsumeExternalAuthSession(user, ref, state, now);
      if session.Err? { return Err(session.error); }
      var preview := Preview(drawn, user, ref, ready.value.0, state, now);
      authorizationPreviews := authorizationPreviews[state := preview];
      return Ok(preview);
    }

    method PreflightExternalAuthCallback(user: int, ref: Ref, state: Ref, status: CallbackStatus, drawn: Ref, now: int)
      returns (r: Result<Preflight, Error>)
      requires Valid() && forall k :: k in callbackPreflights ==> callbackPreflights[k].ref != drawn
      modifies this
      ensures Valid() && Answers(old(State()), State(), MemStep(catalog, old(State()), PreflightCallback(user, ref, state, status, drawn, now)), r)
      ensures r.Ok? ==> state in callbackPreflights && r.value == callbackPreflights[state]
      ensures r.Ok? ==> 
        r.value.ref == drawn && r.value.user == user && r.value.intent == ref && r.value.state == state && r.value.status == status && r.value.receivedAt == now
    {
      if user <= 0 || ref == "" || state == "" { return Err(Invalid); }
      var ready := OpenIntent(user, ref);
      if ready.Err? { return Err(ready.error); }
      var preflight := Preflight(drawn, user, ref, ready.value.0, ready.value.1.provider, state, status, now);
      if state !in externalAuthSessions { return Err(SessionNotFound); }
      var session := externalAuthSessions[state];
      if session.user != user || session.intent != ref { return Err(SessionNotFound); }
      if !(session.expiresAt > now) { return Err(SessionExpired); }
      if state in callbackPreflights { return Err(PreflightConsumed); }
      if session.consumedAt.None? { session := session.(consumedAt := Some(now)); }
      externalAuthSessions := externalAuthSessions[state := session];
      callbackPreflights := callbackPreflights[state := preflight];
      return Ok(preflight);
    }

    method ExchangeExternalAuthProvider(user: int, ref: Ref, state: Ref, preflightRef: Ref, drawn: Ref, now: int)
      returns (r: Result<Exchange, Error>)
      requires Valid() && forall k :: k in providerExchanges ==> providerExchanges[k].ref != drawn
      modifies this
      ensures Valid() && Answers(old(State()), State(), MemStep(catalog, old(State()), ExchangeProvider(user, ref, state, preflightRef, drawn, now)), r)
      ensures r.Ok? ==> preflightRef in providerExchanges && r.value == providerExchanges[preflightRef]
      ensures r.Ok? ==> 
        && r.value.ref == drawn && r.value.user == user && r.value.intent == ref && r.value.state == state && r.value.preflight == preflightRef
        && r.value.mode == Simulated && r.value.recordedAt == now
    {
      if user <= 0 || ref == "" || state == "" || preflightRef == "" { return Err(Invalid); }
      var ready := OpenIntent(user, ref);
      if ready.Err? { return Err(ready.error); }
      var preflight := ScanRows(callbackPreflights, p => PreflightMatches(p, user, ref, state, preflightRef));
      if preflight.None? { return Err(PreflightNotFound); }
      var status := Queued;
      if preflight.value.status == Denied { status := ExchangeBlocked; }
      var exchange := Exchange(drawn, user, ref, ready.value.0, ready.value.1.provider, preflight.value.state, preflight.value.ref, status, Simulated, now);
      if preflightRef in providerExchanges { return Err(ExchangeRecorded); }
      providerExchanges := providerExchanges[preflightRef := exchange];
      return Ok(exchange);
    }

    /** The scan that says whether a preflight has been exchanged. */
    method HasExchangeByPreflight(user: int, ref: Ref, preflightRef: Ref) returns (has: bool)
      requires Valid()
      ensures has == ExchangeHeld(State(), user, ref, preflightRef)
    {
      var found := ScanRows(providerExchanges, (e: Exchange) => e.user == user && e.intent == ref && e.preflight == preflightRef);
      return found.Some?;
    }

    method ExchangeProviderOAuthLocked(app: string, meta: App, preflight: Preflight, portOk: bool, drawn: Ref, now: int)
      returns (r: Result<Exchange, Error>)
      requires Valid() && forall k :: k in providerExchanges ==> providerExchanges[k].ref != drawn
      modifies this
      ensures Valid() && Answers(old(State()), State(), MemExchangeOAuth(old(State()), app, meta, preflight, portOk, drawn, now), r)
      ensures r.Ok? ==> portOk && preflight.ref in providerExchanges && r.value == providerExchanges[preflight.ref]
      ensures r.Ok? ==> 
        && r.value.ref == drawn && r.value.user == preflight.user && r.value.intent == preflight.intent && r.value.state == preflight.state
        && r.value.preflight == preflight.ref && r.value.status == CredentialReady && r.value.mode == ProviderOAuth && r.value.recordedAt == now
    {
      var has := HasExchangeByPreflight(preflight.user, preflight.intent, preflight.ref);
      if has { return Err(ExchangeRecorded); }
      if !portOk { return Err(PortFailed); }
      var exchange := Exchange(drawn, preflight.user, preflight.intent, app, meta.provider, preflight.state, preflight.ref, CredentialReady, ProviderOAuth, now);
      providerExchanges := providerExchanges[preflight.ref := exchange];
      return Ok(exchange);
    }

    method ExchangeExternalAuthProviderOAuth(user: int, ref: Ref, state: Ref, preflightRef: Ref, code: string, portOk: bool, drawn: Ref, now: int)
      returns (r: Result<Exchange, Error>)
      requires Valid() && forall k :: k in providerExchanges ==> providerExchanges[k].ref != drawn
      modifies this
      ensures Valid()
      ensures Answers(old(State()), State(),
                MemStep(catalog, old(State()), ExchangeProviderOAuth(user, ref, state, preflightRef, code, portOk, drawn, now)), r)
      ensures r.Ok? ==> 
        && portOk && r.value.ref == drawn && r.value.user == user && r.value.intent == ref && r.value.state == state && r.value.preflight == preflightRef
        && r.value.status == CredentialReady && r.value.mode == ProviderOAuth && r.value.recordedAt == now
    {
      if user <= 0 || ref == "" || state == "" || preflightRef == "" || code == "" { return Err(Invalid); }
      var ready := OpenIntent(user, ref);
      if ready.Err? { return Err(ready.error); }
      var preflight := ScanRows(callbackPreflights, p => PreflightMatches(p, user, ref, state, preflightRef));
      if preflight.None? { return Err(PreflightNotFound); }
      if preflight.value.status != Authorized { return Err(ExchangeDenied); }
      r := ExchangeProviderOAuthLocked(ready.value.0, ready.value.1, preflight.value, portOk, drawn, now);
    }

    method HandleProviderOAuthCallback(state: Ref, code: string, portOk: bool, drawn: Ref, now: int) returns (r: Result<Exchange, Error>)
      requires Valid() && forall k :: k in providerExchanges ==> providerExchanges[k].ref != drawn
      modifies this
      ensures Valid() && Answers(old(State()), State(), MemStep(catalog, old(State()), HandleOAuthCallback(state, code, portOk, drawn, now)), r)
      ensures r.Ok? ==> 
        portOk && r.value.ref == drawn && r.value.state == state && r.value.status == CredentialReady && r.value.mode == ProviderOAuth && r.value.recordedAt == now
    {
      if state == "" || code == "" { return Err(Invalid); }
      var preflight := ScanRows(callbackPreflights, (p: Preflight) => p.state == state);
      if preflight.None? { return Err(PreflightNotFound); }
      if preflight.value.status != Authorized { return Err(ExchangeDenied); }
      var ready := OpenIntent(preflight.value.user, preflight.value.intent);
      if ready.Err? { return Err(ready.error); }
      r := ExchangeProviderOAuthLocked(ready.value.0, ready.value.1, preflight.value, portOk, drawn, now);
    }

    method CompleteAppInstall(user: int, ref: Ref, exchangeRef: Ref, drawn: Ref, now: int) returns (r: Result<Completion, Error>)
      requires Valid() && forall k :: k in installCompletions ==> installCompletions[k].ref != drawn
      modifies this
      ensures Valid() && Answers(old(State()), State(), MemStep(catalog, old(State()), CompleteInstall(user, ref, exchangeRef, drawn, now)), r)
      ensures r.Ok? ==> exchangeRef in installCompletions && r.value == installCompletions[exchangeRef]
      ensures r.Ok? ==> 
        r.value.ref == drawn && r.value.user == user && r.value.intent == ref && r.value.exchange == exchangeRef && r.value.completedAt == now
    {
      if user <= 0 || ref == "" || exchangeRef == "" { return Err(Invalid); }
      if ref !in installIntents || installIntents[ref].user != user { return Err(IntentNotFound); }
      var intent := installIntents[ref];
      if intent.app !in catalog { return Err(AppNotFound); }
      var exchange := ScanRows(providerExchanges, e => ExchangeMatches(e, user, ref, exchangeRef));
      if exchange.None? { return Err(ExchangeNotFound); }
      if exchangeRef in installCompletions { return Err(CompletionRecorded); }
      if intent.status != RequiresExternalAuth { return Err(IntentNotReady); }
      var status := Installed;
      if exchange.value.status == ExchangeBlocked { status := Blocked; }
      var completion := Completion(drawn, user, ref, intent.app, catalog[intent.app].provider, exchange.value.ref, status, exchange.value.mode, now);
      installCompletions := installCompletions[exchangeRef := completion];
      intent := intent.(status := completion.status);
      installIntents := installIntents[ref := intent];
      return Ok(completion);
    }

    method ActivateAppInstallation(user: int, ref: Ref, completionRef: Ref, drawn: Ref, now: int) returns (r: Result<Installation, Error>)
      requires Valid()
      modifies this
      ensures Valid() && Answers(old(State()), State(), MemStep(catalog, old(State()), ActivateInstallation(user, ref, completionRef, drawn, now)), r)
      ensures r.Ok? ==> completionRef in appInstallations && r.value == appInstallations[completionRef]
      ensures r.Ok? ==> 
        r.value.ref == drawn && r.value.user == user && r.value.intent == ref && r.value.completion == completionRef && r.value.activatedAt == now
    {
      if user <= 0 || ref == "" || completionRef == "" { return Err(Invalid); }
      if ref !in installIntents || installIntents[ref].user != user { return Err(IntentNotFound); }
      var intent := installIntents[ref];
      if intent.app !in catalog { return Err(AppNotFound); }
      var completion := ScanRows(installCompletions, c => CompletionMatches(c, user, ref, completionRef));
      if completion.None? { return Err(CompletionNotFound); }
      if completion.value.status != Installed || intent.status != Installed { return Err(CompletionNotReady); }
      if completionRef in appInstallations { return Err(InstallationRecorded); }
      var left := appInstallations.Keys;
      while left != {}
        invariant left <= appInstallations.Keys
        invariant forall k :: k in appInstallations.Keys - left ==> !(appInstallations[k].user == user && appInstallations[k].intent == ref)
        decreases |left|
      {
        var k :| k in left;
        if appInstallations[k].user == user && appInstallations[k].intent == ref { return Err(InstallationRecorded); }
        left := left - {k};
      }
      var installation := Installation(drawn, user, ref, intent.app, catalog[intent.app].provider, completionRef, completion.value.mode, now);
      appInstallations := appInstallations[completionRef := installation];
      return Ok(installation);
    }
  }
}
