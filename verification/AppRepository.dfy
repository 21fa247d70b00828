/** The repository's transactions statement by statement: each reads and locks its rows, checks,
    inserts and updates, and an error rolls everything back. */
module AppRepository {
  import opened Lib
  import opened AppTables
  import opened AppStore

  class PostgresRepository {
    const catalog: Catalog
    var intents: map<Ref, Intent>
    var sessions: map<Ref, Session>
    var previews: map<Ref, Preview>
    var preflights: map<Ref, Preflight>
    var exchanges: map<Ref, Exchange>
    var completions: map<Ref, Completion>
    var installations: map<Ref, Installation>

    function State(): Db
      reads this
    {
      Db(intents, sessions, previews, preflights, exchanges, completions, installations)
    }

    constructor (cat: Catalog)
      ensures catalog == cat && State() == EMPTY_DB
    {
      catalog := cat;
      intents, sessions, previews, preflights := map[], map[], map[], map[];
      exchanges, completions, installations := map[], map[], map[];
    }

    method SaveInstallIntent(ref: Ref, user: int, app: string) returns (r: Result<Intent, Error>)
      modifies this
      ensures Answers(old(State()), State(), Tx(catalog, old(State()), SaveIntent(ref, user, app)), r)
      ensures r.Ok? ==> ref in intents && r.value == intents[ref]
    {
      if ref == "" || user <= 0 || app == "" { return Err(Invalid); }
      if ref in intents || app !in catalog { return Err(Conflict); }
      intents := intents[ref := Intent(user, app, Pending)];
      return Ok(intents[ref]);
    }

    method MarkInstallIntentRequiresExternalAuth(user: int, ref: Ref) returns (r: Result<Intent, Error>)
      modifies this
      ensures Answers(old(State()), State(), Tx(catalog, old(State()), MarkExternalAuth(user, ref)), r)
      ensures r.Ok? ==> ref in intents && r.value == intents[ref]
    {
      if user <= 0 || ref == "" { return Err(Invalid); }
      if ref in intents && intents[ref].user == user && (intents[ref].status == Pending || intents[ref].status == RequiresExternalAuth) {
        intents := intents[ref := intents[ref].(status := RequiresExternalAuth)];
        return Ok(intents[ref]);
      }
      if ref in intents && intents[ref].user == user && (intents[ref].status == Installed || intents[ref].status == Blocked) {
        return Err(IntentNotReady);
      }
      return Err(IntentNotFound);
    }

    method SaveExternalAuthSession(state: Ref, ref: Ref, user: int, expiresAt: int) returns (r: Result<Session, Error>)
      modifies this
      ensures Answers(old(State()), State(), Tx(catalog, old(State()), SaveSession(state, ref, user, expiresAt)), r)
      ensures r.Ok? ==> state in sessions && r.value == sessions[state]
    {
      if state == "" || ref == "" || user <= 0 { return Err(Invalid); }
      if state in sessions || ref !in intents { return Err(Conflict); }
      sessions := sessions[state := Session(user, ref, expiresAt, None)];
      return Ok(sessions[state]);
    }

    /** The conditional update shared by consuming and previewing, and the reading that explains
        why it found no row. */
    method ConsumeExternalAuthSession(user: int, ref: Ref, state: Ref, now: int) returns (r: Result<Session, Error>)
      modifies this
      ensures Answers(old(State()), State(), Tx(catalog, old(State()), ConsumeSession(user, ref, state, now)), r)
      ensures r.Ok? ==> state in sessions && r.value == sessions[state]
    {
      if user <= 0 || ref == "" || state == "" { return Err(Invalid); }
      var mine := state in sessions && sessions[state].intent == ref && sessions[state].user == user;
      if mine && sessions[state].consumedAt.None? && sessions[state].expiresAt > now {
        sessions := sessions[state := sessions[state].(consumedAt := Some(now))];
        return Ok(sessions[state]);
      }
      if !mine { return Err(SessionNotFound); }
      if sessions[state].consumedAt.Some? { return Err(SessionConsumed); }
      if !(sessions[state].expiresAt > now) { return Err(SessionExpired); }
      return Err(SessionNotFound);
    }

    method SaveExternalAuthAuthorizationPreview(ref: Ref, user: int, intent: Ref, app: string, provider: string, authType: string, state: Ref, now: int)
      returns (r: Result<Preview, Error>)
      modifies this
      ensures Answers(old(State()), State(), Tx(catalog, old(State()), SavePreview(ref, user, intent, app, provider, authType, state, now)), r)
      ensures r.Ok? ==> ref in previews && r.value == previews[ref]
    {
      if user <= 0 || intent == "" || app == "" || provider == "" || authType == "" || state == "" { return Err(Invalid); }
      var begin := sessions;
      var session := ConsumeExternalAuthSession(user, intent, state, now);
      if session.Err? { return Err(session.error); }
      if exists k :: k in previews && previews[k].state == state {
        sessions := begin;
        return Err(SessionConsumed);
      }
      if ref in previews {
        sessions := begin;
        return Err(Conflict);
      }
      previews := previews[ref := Preview(ref, user, intent, app, state, now)];
      return Ok(previews[ref]);
    }

    method SaveExternalAuthCallbackPreflight(row: Preflight) returns (r: Result<Preflight, Error>)
      modifies this
      ensures Answers(old(State()), State(), Tx(catalog, old(State()), SavePreflight(row)), r)
      ensures r.Ok? ==> row.ref in preflights && r.value == preflights[row.ref]
    {
      if row.ref == "" || row.intent == "" || row.state == "" || row.app == "" || row.provider == "" || row.user <= 0 { return Err(Invalid); }
      if !(row.state in sessions && sessions[row.state].intent == row.intent && sessions[row.state].user == row.user) {
        return Err(SessionNotFound);
      }
      var session := sessions[row.state];
      if !(session.expiresAt > row.receivedAt) { return Err(SessionExpired); }
      if exists k :: k in preflights && preflights[k].state == row.state { return Err(PreflightConsumed); }
      if row.ref in preflights { return Err(Conflict); }
      preflights := preflights[row.ref := row];
      if session.consumedAt.None? {
        sessions := sessions[row.state := session.(consumedAt := Some(row.receivedAt))];
      }
      return Ok(preflights[row.ref]);
    }

    method SaveExternalAuthProviderExchange(q: Request) returns (r: Result<Exchange, Error>)
      requires q.SaveExchange?
      modifies this
      ensures Answers(old(State()), State(), Tx(catalog, old(State()), q), r)
      ensures r.Ok? ==> q.ref in exchanges && r.value == exchanges[q.ref]
    {
      if q.ref == "" || q.intent == "" || q.state == "" || q.preflight == "" || q.app == "" || q.provider == "" || q.user <= 0 { return Err(Invalid); }
      if !(q.preflight in preflights && preflights[q.preflight].state == q.state && preflights[q.preflight].intent == q.intent
           && preflights[q.preflight].user == q.user) {
        return Err(PreflightNotFound);
      }
      var preflight := preflights[q.preflight];
      if preflight.app != q.app || preflight.provider != q.provider { return Err(Invalid); }
      var status := Queued;
      if preflight.status == Denied { status := ExchangeBlocked; }
      if q.mode == ProviderOAuth {
        if preflight.status != Authorized { return Err(ExchangeDenied); }
        status := CredentialReady;
      }
      if q.expected.Some? && q.expected.value != status { return Err(Invalid); }
      if exists k :: k in exchanges && exchanges[k].preflight == q.preflight { return Err(ExchangeRecorded); }
      if q.ref in exchanges || exists k :: k in exchanges && exchanges[k].state == q.state { return Err(Conflict); }
      exchanges := exchanges[q.ref := Exchange(q.ref, q.user, q.intent, q.app, q.provider, q.state, q.preflight, status, q.mode, q.now)];
      return Ok(exchanges[q.ref]);
    }

    method SaveAppInstallCompletion(q: Request) returns (r: Result<Completion, Error>)
      requires q.SaveCompletion?
      modifies this
      ensures Answers(old(State()), State(), Tx(catalog, old(State()), q), r)
      ensures r.Ok? ==> q.ref in completions && r.value == completions[q.ref]
    {
      if q.ref == "" || q.intent == "" || q.exchange == "" || q.app == "" || q.provider == "" || q.user <= 0 { return Err(Invalid); }
      if !(q.exchange in exchanges && q.intent in intents && exchanges[q.exchange].intent == q.intent && exchanges[q.exchange].user == q.user) {
        return Err(ExchangeNotFound);
      }
      var exchange, intent := exchanges[q.exchange], intents[q.intent];
      if intent.app != q.app || exchange.provider != q.provider { return Err(Invalid); }
      if exists k :: k in completions && (completions[k].exchange == q.exchange || (completions[k].intent == q.intent && completions[k].user == q.user)) {
        return Err(CompletionRecorded);
      }
      if intent.status != RequiresExternalAuth { return Err(IntentNotReady); }
      var status := Installed;
      if exchange.status == ExchangeBlocked { status := Blocked; }
      if q.expectedStatus.Some? && q.expectedStatus.value != status { return Err(Invalid); }
      if q.expectedMode.Some? && q.expectedMode.value != exchange.mode { return Err(Invalid); }
      if q.ref in completions || exists k :: k in completions && completions[k].intent == q.intent { return Err(Conflict); }
      completions := completions[q.ref := Completion(q.ref, q.user, q.intent, q.app, q.provider, q.exchange, status, exchange.mode, q.now)];
      if intent.user == q.user { intents := intents[q.intent := intent.(status := status)]; }
      return Ok(completions[q.ref]);
    }

    method SaveAppInstallation(q: Request) returns (r: Result<Installation, Error>)
      requires q.SaveInstallation?
      modifies this
      ensures Answers(old(State()), State(), Tx(catalog, old(State()), q), r)
      ensures r.Ok? ==> q.ref in installations && r.value == installations[q.ref]
    {
      if q.ref == "" || q.intent == "" || q.completion == "" || q.app == "" || q.provider == "" || q.user <= 0 { return Err(Invalid); }
      if !(q.completion in completions && q.intent in intents && intents[q.intent].app in catalog
           && completions[q.completion].intent == q.intent && completions[q.completion].user == q.user) {
        return Err(CompletionNotFound);
      }
      var completion, intent := completions[q.completion], intents[q.intent];
      if intent.app != q.app || catalog[intent.app].provider != q.provider { return Err(Invalid); }
      if intent.status != Installed || completion.status != Installed { return Err(CompletionNotReady); }
      if q.expectedMode.Some? && q.expectedMode.value != completion.mode { return Err(Invalid); }
      if exists k :: k in installations && (installations[k].completion == q.completion || (installations[k].intent == q.intent && installations[k].user == q.user)) {
        return Err(InstallationRecorded);
      }
      if q.ref in installations || exists k :: k in installations && installations[k].intent == q.intent { return Err(Conflict); }
      installations := installations[q.ref := Installation(q.ref, q.user, q.intent, q.app, q.provider, q.completion, completion.mode, q.now)];
      return Ok(installations[q.ref]);
    }
  }
}
