/** Why a call of the install workflow is refused: the error of the first check that fails on the
    stored records, call by call, and the one place where the two forms of the Store name different
    errors. */
module AppRefusals {
  import opened Lib
  import opened AppTables
  import opened AppMemory
  import opened AppGuarantees
  import opened AppRefinement

  // ---------- checks on the stored records ----------

  type Refusal = Option<Error>

  /** One check, and several in turn: the first that fails decides. */
  function Unless(holds: bool, e: Error): Refusal { if holds then None else Some(e) }

  function Then(first: Refusal, second: Refusal): Refusal { if first.Some? then first else second }

  function Named(user: int, refs: seq<string>): Refusal { Unless(user > 0 && "" !in refs, Invalid) }

  predicate Owned(db: Db, user: int, intent: Ref) { intent in db.intents && db.intents[intent].user == user }

  function OpenFor(cat: Catalog, db: Db, user: int, intent: Ref): Refusal {
    if !Owned(db, user, intent) then Some(IntentNotFound)
    else if db.intents[intent].status != RequiresExternalAuth then Some(IntentNotReady)
    else Unless(db.intents[intent].app in cat, AppNotFound)
  }

  function KnownFor(cat: Catalog, db: Db, user: int, intent: Ref): Refusal {
    if !Owned(db, user, intent) then Some(IntentNotFound) else Unless(db.intents[intent].app in cat, AppNotFound)
  }

  function SessionFound(db: Db, user: int, intent: Ref, state: Ref): Refusal {
    Unless(state in db.sessions && db.sessions[state].user == user && db.sessions[state].intent == intent, SessionNotFound)
  }

  predicate Unconsumed(db: Db, state: Ref) { state in db.sessions && db.sessions[state].consumedAt == None }

  predicate Unexpired(db: Db, state: Ref, now: int) { state in db.sessions && now < db.sessions[state].expiresAt }

  predicate PreflightIs(db: Db, user: int, intent: Ref, state: Ref, preflight: Ref) {
    && preflight in db.preflights && db.preflights[preflight].user == user
    && db.preflights[preflight].intent == intent && db.preflights[preflight].state == state
  }

  predicate AuthorizedBy(db: Db, preflight: Ref) { preflight in db.preflights && db.preflights[preflight].status == Authorized }

  ghost predicate Unexchanged(db: Db, preflight: Ref) { forall k :: k in db.exchanges ==> db.exchanges[k].preflight != preflight }

  ghost predicate NoCallback(db: Db, state: Ref) { forall k :: k in db.preflights ==> db.preflights[k].state != state }

  predicate ExchangeIs(db: Db, user: int, intent: Ref, exchange: Ref) {
    exchange in db.exchanges && db.exchanges[exchange].user == user && db.exchanges[exchange].intent == intent
  }

  ghost predicate Uncompleted(db: Db, intent: Ref) { forall k :: k in db.completions ==> db.completions[k].intent != intent }

  predicate CompletionIs(db: Db, user: int, intent: Ref, completion: Ref) {
    completion in db.completions && db.completions[completion].user == user && db.completions[completion].intent == intent
  }

  ghost predicate Uninstalled(db: Db, intent: Ref) { forall k :: k in db.installations ==> db.installations[k].intent != intent }

  function OAuthPasses(db: Db, preflight: Ref, recorded: bool, portOk: bool): Refusal {
    Then(Unless(AuthorizedBy(db, preflight), ExchangeDenied), Then(Unless(!recorded, ExchangeRecorded), Unless(portOk, PortFailed)))
  }

  // ---------- the checks of each call, in their order ----------

  ghost predicate RefusedAs(cat: Catalog, db: Db, call: Call, r: Refusal) {
    match call
    case CreateInstallIntent(user, app, _) => r == Then(Named(user, [app]), Unless(app in cat, AppNotFound))
    case MarkRequiresExternalAuth(user, intent) =>
      r == Then(Named(user, [intent]),
           Then(Unless(Owned(db, user, intent), IntentNotFound),
                Unless(intent in db.intents && db.intents[intent].status in {Pending, RequiresExternalAuth}, IntentNotReady)))
    case ReadDescriptor(user, intent, _, _) => r == Then(Named(user, [intent]), OpenFor(cat, db, user, intent))
    case Consume(user, intent, state, now) =>
      r == Then(Named(user, [intent, state]),
           Then(SessionFound(db, user, intent, state),
           Then(Unless(Unconsumed(db, state), SessionConsumed), Unless(Unexpired(db, state, now), SessionExpired))))
    case PreviewAuthorization(user, intent, state, _, now) =>
      r == Then(Named(user, [intent, state]),
           Then(OpenFor(cat, db, user, intent),
           Then(SessionFound(db, user, intent, state),
           Then(Unless(Unconsumed(db, state), SessionConsumed), Unless(Unexpired(db, state, now), SessionExpired)))))
    case PreflightCallback(user, intent, state, _, _, now) =>
      r == Then(Named(user, [intent, state]),
           Then(OpenFor(cat, db, user, intent),
           Then(SessionFound(db, user, intent, state),
           Then(Unless(Unexpired(db, state, now), SessionExpired), Unless(NoCallback(db, state), PreflightConsumed)))))
    case ExchangeProvider(user, intent, state, preflight, _, _) =>
      r == Then(Named(user, [intent, state, preflight]),
           Then(OpenFor(cat, db, user, intent),
           Then(Unless(PreflightIs(db, user, intent, state, preflight), PreflightNotFound), Unless(Unexchanged(db, preflight), ExchangeRecorded))))
    case ExchangeProviderOAuth(user, intent, state, preflight, code, portOk, _, _) =>
      r == Then(Named(user, [intent, state, preflight, code]),
           Then(OpenFor(cat, db, user, intent),
           Then(Unless(PreflightIs(db, user, intent, state, preflight), PreflightNotFound),
                OAuthPasses(db, preflight, !Unexchanged(db, preflight), portOk))))
    case HandleOAuthCallback(state, code, portOk, _, _) =>
      if "" in [state, code] then r == Some(Invalid)
      else if NoCallback(db, state) then r == Some(PreflightNotFound)
      else forall p :: p in db.preflights && db.preflights[p].state == state ==>
        r == Then(Unless(AuthorizedBy(db, p), ExchangeDenied),
             Then(OpenFor(cat, db, db.preflights[p].user, db.preflights[p].intent), OAuthPasses(db, p, !Unexchanged(db, p), portOk)))
    case CompleteInstall(user, intent, exchange, _, _) =>
      r == Then(Named(user, [intent, exchange]),
           Then(KnownFor(cat, db, user, intent),
           Then(Unless(ExchangeIs(db, user, intent, exchange), ExchangeNotFound),
           Then(Unless(Uncompleted(db, intent), CompletionRecorded),
                Unless(Owned(db, user, intent) && db.intents[intent].status == RequiresExternalAuth, IntentNotReady)))))
    case ActivateInstallation(user, intent, completion, _, _) =>
      r == Then(Named(user, [intent, completion]),
           Then(KnownFor(cat, db, user, intent),
           Then(Unless(CompletionIs(db, user, intent, completion), CompletionNotFound),
           Then(Unless(Owned(db, user, intent) && db.intents[intent].status == Installed, CompletionNotReady),
                Unless(Uninstalled(db, intent), InstallationRecorded)))))
  }

  function ErrorOf<T>(r: Result<T, Error>): Refusal { if r.Err? then Some(r.error) else None }

  // ---------- the repository's Store ----------

  ghost predicate Reached(cat: Catalog, db: Db, call: Call) { CatalogOk(cat) && DbOk(cat, db) && OneShot(db) && Fresh(db, call) }

  lemma HandoffRefused(cat: Catalog, db: Db, call: Call)
    requires Reached(cat, db, call) && Shallow(call)
    ensures RefusedAs(cat, db, call, ErrorOf(SqlStep(cat, db, call)))
  {
  }

  lemma PreviewRefused(cat: Catalog, db: Db, call: Call)
    requires Reached(cat, db, call) && call.PreviewAuthorization?
    ensures RefusedAs(cat, db, call, ErrorOf(SqlStep(cat, db, call)))
  {
    if PreviewedState(db, call.state) { PreviewedWasConsumed(cat, db, call.state); }
  }

  lemma PreflightRefused(cat: Catalog, db: Db, call: Call)
    requires Reached(cat, db, call) && call.PreflightCallback?
    ensures RefusedAs(cat, db, call, ErrorOf(SqlStep(cat, db, call)))
  {
  }

  lemma ExchangeRefused(cat: Catalog, db: Db, call: Call)
    requires Reached(cat, db, call) && call.ExchangeProvider?
    ensures RefusedAs(cat, db, call, ErrorOf(SqlStep(cat, db, call)))
  {
    if call.preflight in db.preflights {
      assert PreflightOk(cat, db, call.preflight, db.preflights[call.preflight]);
      if ExchangedState(db, db.preflights[call.preflight].state) { ExchangedStateIsExchangedPreflight(cat, db, call.preflight); }
    }
  }

  /** The shared part of an OAuth exchange, for a stored and authorized preflight of an open intent. */
  lemma OAuthRefused(cat: Catalog, db: Db, p: Ref, portOk: bool, ref: Ref, now: int)
    requires CatalogOk(cat) && DbOk(cat, db) && OneShot(db) && ref != "" && ref !in db.exchanges && p in db.preflights
    requires OpenFor(cat, db, db.preflights[p].user, db.preflights[p].intent) == None
    ensures ErrorOf(SqlOAuth(cat, db, db.preflights[p], portOk, ref, now)) == OAuthPasses(db, p, !Unexchanged(db, p), portOk)
  {
    var row := db.preflights[p];
    assert PreflightOk(cat, db, p, row);
    if ExchangedState(db, row.state) { ExchangedStateIsExchangedPreflight(cat, db, p); }
    if k :| k in db.exchanges && db.exchanges[k].preflight == p { assert ExchangeOk(db, k, db.exchanges[k]); }
  }

  lemma RequestRefused(cat: Catalog, db: Db, call: Call)
    requires Reached(cat, db, call) && call.ExchangeProviderOAuth?
    ensures RefusedAs(cat, db, call, ErrorOf(SqlStep(cat, db, call)))
  {
    if PreflightIs(db, call.user, call.intent, call.state, call.preflight) && OpenFor(cat, db, call.user, call.intent) == None {
      OAuthRefused(cat, db, call.preflight, call.portOk, call.ref, call.now);
    }
    RequestChecks(cat, db, call);
  }

  lemma RequestChecks(cat: Catalog, db: Db, call: Call)
    requires call.ExchangeProviderOAuth?
    ensures ErrorOf(SqlStep(cat, db, call))
      == Then(Named(call.user, [call.intent, call.state, call.preflight, call.code]),
         Then(OpenFor(cat, db, call.user, call.intent),
         Then(Unless(PreflightIs(db, call.user, call.intent, call.state, call.preflight), PreflightNotFound),
              if call.preflight in db.preflights then ErrorOf(SqlOAuth(cat, db, db.preflights[call.preflight], call.portOk, call.ref, call.now)) else None)))
  {
  }

  lemma CallbackRefused(cat: Catalog, db: Db, call: Call)
    requires Reached(cat, db, call) && call.HandleOAuthCallback?
    ensures RefusedAs(cat, db, call, ErrorOf(SqlStep(cat, db, call)))
  {
    forall p | p in db.preflights && db.preflights[p].state == call.state && "" !in [call.state, call.code]
      ensures ErrorOf(SqlStep(cat, db, call)) == Then(Unless(AuthorizedBy(db, p), ExchangeDenied),
             Then(OpenFor(cat, db, db.preflights[p].user, db.preflights[p].intent), OAuthPasses(db, p, !Unexchanged(db, p), call.portOk)))
    {
      CallbackRow(db, call.state, p);
      if OpenFor(cat, db, db.preflights[p].user, db.preflights[p].intent) == None { OAuthRefused(cat, db, p, call.portOk, call.ref, call.now); }
      CallbackChecks(cat, db, call, db.preflights[p]);
    }
  }

  lemma CallbackRow(db: Db, state: Ref, p: Ref)
    requires OneShot(db) && p in db.preflights && db.preflights[p].state == state
    ensures PreflightByState(db, state) == Some(db.preflights[p])
  {
  }

  lemma CallbackChecks(cat: Catalog, db: Db, call: Call, row: Preflight)
    requires call.HandleOAuthCallback? && "" !in [call.state, call.code] && PreflightByState(db, call.state) == Some(row)
    ensures ErrorOf(SqlStep(cat, db, call))
      == Then(Unless(row.status == Authorized, ExchangeDenied),
         Then(OpenFor(cat, db, row.user, row.intent), ErrorOf(SqlOAuth(cat, db, row, call.portOk, call.ref, call.now))))
  {
  }

  lemma CompleteRefused(cat: Catalog, db: Db, call: Call)
    requires Reached(cat, db, call) && call.CompleteInstall?
    ensures RefusedAs(cat, db, call, ErrorOf(SqlStep(cat, db, call)))
  {
    if call.exchange in db.exchanges { ExchangeNamesItsIntent(cat, db, call.exchange); }
    CompletionsFollow(cat, db, call.user, call.intent, call.exchange);
    CompleteChecks(cat, db, call);
  }

  lemma CompletionOwner(cat: Catalog, db: Db, k: Ref)
    requires DbOk(cat, db) && k in db.completions
    ensures db.completions[k].intent in db.intents && db.intents[db.completions[k].intent].user == db.completions[k].user
  {
    var m := db.completions[k];
    assert CompletionOk(db, k, m);
    var e := db.exchanges[m.exchange];
    assert ExchangeOk(db, m.exchange, e);
    var p := db.preflights[e.preflight];
    assert PreflightOk(cat, db, e.preflight, p);
    assert SessionOk(db, db.sessions[p.state]);
  }

  /** A completion belongs to its intent's user and to an exchange of its intent. */
  lemma CompletionsFollow(cat: Catalog, db: Db, user: int, intent: Ref, exchange: Ref)
    requires DbOk(cat, db)
    ensures Owned(db, user, intent) ==> (CompletedIntentOf(db, intent, user) <==> !Uncompleted(db, intent))
    ensures ExchangeIs(db, user, intent, exchange) && CompletedExchange(db, exchange) ==> !Uncompleted(db, intent)
    ensures CompletedIntent(db, intent) <==> !Uncompleted(db, intent)
  {
    if k :| k in db.completions && db.completions[k].intent == intent { CompletionOwner(cat, db, k); }
    if k :| k in db.completions && db.completions[k].exchange == exchange { assert CompletionOk(db, k, db.completions[k]); }
  }

  lemma CompleteChecks(cat: Catalog, db: Db, call: Call)
    requires CatalogOk(cat) && Fresh(db, call) && call.CompleteInstall?
    requires call.exchange in db.exchanges ==> var e := db.exchanges[call.exchange];
      e.intent in db.intents && e.app == db.intents[e.intent].app && e.app in cat && e.provider == cat[e.app].provider
    requires Owned(db, call.user, call.intent) ==> (CompletedIntentOf(db, call.intent, call.user) <==> !Uncompleted(db, call.intent))
    requires ExchangeIs(db, call.user, call.intent, call.exchange) && CompletedExchange(db, call.exchange) ==> !Uncompleted(db, call.intent)
    requires CompletedIntent(db, call.intent) <==> !Uncompleted(db, call.intent)
    ensures RefusedAs(cat, db, call, ErrorOf(SqlStep(cat, db, call)))
  {
  }

  lemma ActivateRefused(cat: Catalog, db: Db, call: Call)
    requires Reached(cat, db, call) && call.ActivateInstallation?
    ensures RefusedAs(cat, db, call, ErrorOf(SqlStep(cat, db, call)))
  {
    InstallationsFollow(cat, db, call.user, call.intent, call.completion);
    ActivateChecks(cat, db, call);
  }

  lemma InstallationsFollow(cat: Catalog, db: Db, user: int, intent: Ref, completion: Ref)
    requires DbOk(cat, db)
    ensures Owned(db, user, intent) ==> (InstalledIntentOf(db, intent, user) <==> !Uninstalled(db, intent))
    ensures CompletionIs(db, user, intent, completion) ==>
      intent in db.intents && db.intents[intent].status == db.completions[completion].status && (InstalledCompletion(db, completion) ==> !Uninstalled(db, intent))
    ensures InstalledIntent(db, intent) <==> !Uninstalled(db, intent)
  {
    forall k | k in db.installations && db.installations[k].intent == intent ensures Owned(db, user, intent) ==> db.installations[k].user == user {
      ProvenanceHolds(cat, db, k);
    }
    if CompletionIs(db, user, intent, completion) { assert CompletionOk(db, completion, db.completions[completion]); }
    if k :| k in db.installations && db.installations[k].completion == completion { assert InstallationOk(db, k, db.installations[k]); }
  }

  lemma ActivateChecks(cat: Catalog, db: Db, call: Call)
    requires CatalogOk(cat) && Fresh(db, call) && call.ActivateInstallation?
    requires Owned(db, call.user, call.intent) ==> (InstalledIntentOf(db, call.intent, call.user) <==> !Uninstalled(db, call.intent))
    requires CompletionIs(db, call.user, call.intent, call.completion) ==>
      && call.intent in db.intents && db.intents[call.intent].status == db.completions[call.completion].status
      && (InstalledCompletion(db, call.completion) ==> !Uninstalled(db, call.intent))
    requires InstalledIntent(db, call.intent) <==> !Uninstalled(db, call.intent)
    ensures RefusedAs(cat, db, call, ErrorOf(SqlStep(cat, db, call)))
  {
  }

  /** In every reachable state the repository's Store refuses a call exactly for the first of its
      checks that fails, and accepts it if none does. */
  lemma RefusedExactly(cat: Catalog, db: Db, call: Call)
    requires Reached(cat, db, call)
    ensures RefusedAs(cat, db, call, ErrorOf(SqlStep(cat, db, call)))
  {
    match call
    case PreviewAuthorization(_, _, _, _, _) => PreviewRefused(cat, db, call);
    case PreflightCallback(_, _, _, _, _, _) => PreflightRefused(cat, db, call);
    case ExchangeProvider(_, _, _, _, _, _) => ExchangeRefused(cat, db, call);
    case ExchangeProviderOAuth(_, _, _, _, _, _, _, _) => RequestRefused(cat, db, call);
    case HandleOAuthCallback(_, _, _, _, _) => CallbackRefused(cat, db, call);
    case CompleteInstall(_, _, _, _, _) => CompleteRefused(cat, db, call);
    case ActivateInstallation(_, _, _, _, _) => ActivateRefused(cat, db, call);
    case _ => HandoffRefused(cat, db, call);
  }

  // ---------- the Store in memory ----------

  lemma MemHandoffRefused(cat: Catalog, db: Db, m: Mem, call: Call)
    requires db.intents == m.intents && db.sessions == m.sessions && Shallow(call)
    ensures RefusedAs(cat, db, call, ErrorOf(MemStep(cat, m, call)))
  {
  }

  lemma MemPreviewRefused(cat: Catalog, db: Db, m: Mem, call: Call)
    requires db.intents == m.intents && db.sessions == m.sessions && call.PreviewAuthorization?
    ensures RefusedAs(cat, db, call, ErrorOf(MemStep(cat, m, call)))
  {
  }

  lemma MemPreflightRefused(cat: Catalog, db: Db, m: Mem, call: Call)
    requires Same(db, m) && call.PreflightCallback?
    ensures RefusedAs(cat, db, call, ErrorOf(MemStep(cat, m, call)))
  {
    PreflightedByKey(db, m, call.state);
  }

  lemma MemExchangeRefused(cat: Catalog, db: Db, m: Mem, call: Call)
    requires Same(db, m) && call.ExchangeProvider?
    ensures RefusedAs(cat, db, call, ErrorOf(MemStep(cat, m, call)))
  {
    ScanFindsPreflight(db, m, call.user, call.intent, call.state, call.preflight);
    ExchangedByKey(db, m, call.preflight);
  }

  lemma MemOAuthRefused(cat: Catalog, db: Db, m: Mem, p: Ref, app: string, meta: App, portOk: bool, ref: Ref, now: int)
    requires Ready(cat, db, m) && p in db.preflights
    ensures Then(Unless(AuthorizedBy(db, p), ExchangeDenied), ErrorOf(MemExchangeOAuth(m, app, meta, db.preflights[p], portOk, ref, now)))
      == OAuthPasses(db, p, !Unexchanged(db, p), portOk)
  {
    assert PreflightRef(db.preflights[p]) == p;
    HeldExchanges(cat, db, m, db.preflights[p]);
    ExchangedByKey(db, m, p);
  }

  lemma MemRequestChecks(cat: Catalog, db: Db, m: Mem, call: Call)
    requires call.ExchangeProviderOAuth? && db.intents == m.intents
    requires Scan(m.preflights, p => PreflightMatches(p, call.user, call.intent, call.state, call.preflight))
      == PreflightOf(db, call.user, call.intent, call.state, call.preflight)
    ensures ErrorOf(MemStep(cat, m, call))
      == Then(Named(call.user, [call.intent, call.state, call.preflight, call.code]),
         Then(OpenFor(cat, db, call.user, call.intent),
         Then(Unless(PreflightIs(db, call.user, call.intent, call.state, call.preflight), PreflightNotFound),
              if call.preflight in db.preflights && ReadyIntent(cat, m.intents, call.user, call.intent).Ok? then
                var ready := ReadyIntent(cat, m.intents, call.user, call.intent).value;
                Then(Unless(AuthorizedBy(db, call.preflight), ExchangeDenied),
                     ErrorOf(MemExchangeOAuth(m, ready.0, ready.1, db.preflights[call.preflight], call.portOk, call.ref, call.now)))
              else None)))
  {
  }

  lemma MemRequestRefused(cat: Catalog, db: Db, m: Mem, call: Call)
    requires Ready(cat, db, m) && call.ExchangeProviderOAuth?
    ensures RefusedAs(cat, db, call, ErrorOf(MemStep(cat, m, call)))
  {
    ScanFindsPreflight(db, m, call.user, call.intent, call.state, call.preflight);
    MemRequestChecks(cat, db, m, call);
    var ready := ReadyIntent(cat, m.intents, call.user, call.intent);
    if call.preflight in db.preflights && ready.Ok? {
      MemOAuthRefused(cat, db, m, call.preflight, ready.value.0, ready.value.1, call.portOk, call.ref, call.now);
    }
  }

  lemma MemCallbackChecks(cat: Catalog, db: Db, m: Mem, call: Call, row: Preflight)
    requires call.HandleOAuthCallback? && "" !in [call.state, call.code] && db.intents == m.intents
    requires Scan(m.preflights, (p: Preflight) => p.state == call.state) == Some(row)
    ensures ErrorOf(MemStep(cat, m, call))
      == Then(Unless(row.status == Authorized, ExchangeDenied),
         Then(OpenFor(cat, db, row.user, row.intent),
              if ReadyIntent(cat, m.intents, row.user, row.intent).Ok? then
                var ready := ReadyIntent(cat, m.intents, row.user, row.intent).value;
                ErrorOf(MemExchangeOAuth(m, ready.0, ready.1, row, call.portOk, call.ref, call.now))
              else None))
  {
  }

  lemma MemCallbackAs(cat: Catalog, db: Db, m: Mem, call: Call, p: Ref)
    requires Ready(cat, db, m) && call.HandleOAuthCallback? && "" !in [call.state, call.code]
    requires p in db.preflights && db.preflights[p].state == call.state
    ensures ErrorOf(MemStep(cat, m, call)) == Then(Unless(AuthorizedBy(db, p), ExchangeDenied),
             Then(OpenFor(cat, db, db.preflights[p].user, db.preflights[p].intent), OAuthPasses(db, p, !Unexchanged(db, p), call.portOk)))
  {
    ScanFindsByState(db, m, call.state);
    CallbackRow(db, call.state, p);
    var row := db.preflights[p];
    MemCallbackChecks(cat, db, m, call, row);
    var ready := ReadyIntent(cat, m.intents, row.user, row.intent);
    if ready.Ok? { MemOAuthRefused(cat, db, m, p, ready.value.0, ready.value.1, call.portOk, call.ref, call.now); }
  }

  lemma MemNoCallback(cat: Catalog, db: Db, m: Mem, call: Call)
    requires call.HandleOAuthCallback? && Same(db, m) && ("" in [call.state, call.code] || NoCallback(db, call.state))
    ensures ErrorOf(MemStep(cat, m, call)) == Some(if "" in [call.state, call.code] then Invalid else PreflightNotFound)
  {
    ScanFindsByState(db, m, call.state);
  }

  lemma MemCallbackRefused(cat: Catalog, db: Db, m: Mem, call: Call)
    requires Ready(cat, db, m) && call.HandleOAuthCallback?
    ensures RefusedAs(cat, db, call, ErrorOf(MemStep(cat, m, call)))
  {
    if "" in [call.state, call.code] || NoCallback(db, call.state) {
      MemNoCallback(cat, db, m, call);
    } else {
      forall p | p in db.preflights && db.preflights[p].state == call.state
        ensures ErrorOf(MemStep(cat, m, call)) == Then(Unless(AuthorizedBy(db, p), ExchangeDenied),
             Then(OpenFor(cat, db, db.preflights[p].user, db.preflights[p].intent), OAuthPasses(db, p, !Unexchanged(db, p), call.portOk)))
      {
        MemCallbackAs(cat, db, m, call, p);
      }
    }
  }

  /** The exchange has not been completed, but its intent has, through another one. */
  ghost predicate CompletedElsewhere(cat: Catalog, db: Db, call: Call) {
    && call.CompleteInstall? && call.user > 0 && "" !in [call.intent, call.exchange]
    && Owned(db, call.user, call.intent) && db.intents[call.intent].app in cat && ExchangeIs(db, call.user, call.intent, call.exchange)
    && !Uncompleted(db, call.intent) && forall k :: k in db.completions ==> db.completions[k].exchange != call.exchange
  }

  lemma MemCompleteRefused(cat: Catalog, db: Db, m: Mem, call: Call)
    requires Ready(cat, db, m) && call.CompleteInstall?
    ensures if CompletedElsewhere(cat, db, call) then ErrorOf(MemStep(cat, m, call)) == Some(IntentNotReady)
            else RefusedAs(cat, db, call, ErrorOf(MemStep(cat, m, call)))
  {
    ScanFindsExchange(db, m, call.user, call.intent, call.exchange);
    CompletedByKey(db, m, call.exchange);
    CompletionsFollow(cat, db, call.user, call.intent, call.exchange);
    if call.intent in db.intents && db.intents[call.intent].status == RequiresExternalAuth { OpenIntentsAreNotCompleted(cat, db, call.intent); }
    MemCompleteChecks(cat, db, m, call);
  }

  lemma MemCompleteChecks(cat: Catalog, db: Db, m: Mem, call: Call)
    requires call.CompleteInstall? && db.intents == m.intents
    requires var r := Scan(m.exchanges, e => ExchangeMatches(e, call.user, call.intent, call.exchange));
      (r.Some? <==> ExchangeIs(db, call.user, call.intent, call.exchange)) && (r.Some? ==> r.value == db.exchanges[call.exchange])
    requires CompletedExchange(db, call.exchange) <==> call.exchange in m.completions
    requires ExchangeIs(db, call.user, call.intent, call.exchange) && CompletedExchange(db, call.exchange) ==> !Uncompleted(db, call.intent)
    requires call.intent in db.intents && db.intents[call.intent].status == RequiresExternalAuth ==> Uncompleted(db, call.intent)
    ensures if CompletedElsewhere(cat, db, call) then ErrorOf(MemStep(cat, m, call)) == Some(IntentNotReady)
            else RefusedAs(cat, db, call, ErrorOf(MemStep(cat, m, call)))
  {
  }

  lemma MemActivateRefused(cat: Catalog, db: Db, m: Mem, call: Call)
    requires Ready(cat, db, m) && call.ActivateInstallation?
    ensures RefusedAs(cat, db, call, ErrorOf(MemStep(cat, m, call)))
  {
    ScanFindsCompletion(db, m, call.user, call.intent, call.completion);
    InstalledByKey(db, m, call.user, call.intent, call.completion);
    InstallationsFollow(cat, db, call.user, call.intent, call.completion);
    MemActivateChecks(cat, db, m, call);
  }

  lemma MemActivateChecks(cat: Catalog, db: Db, m: Mem, call: Call)
    requires call.ActivateInstallation? && db.intents == m.intents
    requires var r := Scan(m.completions, c => CompletionMatches(c, call.user, call.intent, call.completion));
      (r.Some? <==> CompletionIs(db, call.user, call.intent, call.completion)) && (r.Some? ==> r.value == db.completions[call.completion])
    requires InstalledCompletion(db, call.completion) <==> call.completion in m.installations
    requires InstalledIntentOf(db, call.intent, call.user) <==> InstallationHeld(m, call.user, call.intent)
    requires Owned(db, call.user, call.intent) ==> (InstalledIntentOf(db, call.intent, call.user) <==> !Uninstalled(db, call.intent))
    requires CompletionIs(db, call.user, call.intent, call.completion) ==>
      && call.intent in db.intents && db.intents[call.intent].status == db.completions[call.completion].status
      && (InstalledCompletion(db, call.completion) ==> !Uninstalled(db, call.intent))
    ensures RefusedAs(cat, db, call, ErrorOf(MemStep(cat, m, call)))
  {
  }

  /** In memory the same checks decide in the same order, but for a second exchange of an intent that
      has been completed: only the tables look for the intent's completion, so the maps say that the
      intent is not ready. */
  lemma MemoryRefusedExactly(cat: Catalog, db: Db, m: Mem, call: Call)
    requires Ready(cat, db, m) && Fresh(db, call)
    ensures if CompletedElsewhere(cat, db, call) then ErrorOf(MemStep(cat, m, call)) == Some(IntentNotReady)
            else RefusedAs(cat, db, call, ErrorOf(MemStep(cat, m, call)))
  {
    match call
    case PreviewAuthorization(_, _, _, _, _) => MemPreviewRefused(cat, db, m, call);
    case PreflightCallback(_, _, _, _, _, _) => MemPreflightRefused(cat, db, m, call);
    case ExchangeProvider(_, _, _, _, _, _) => MemExchangeRefused(cat, db, m, call);
    case ExchangeProviderOAuth(_, _, _, _, _, _, _, _) => MemRequestRefused(cat, db, m, call);
    case HandleOAuthCallback(_, _, _, _, _) => MemCallbackRefused(cat, db, m, call);
    case CompleteInstall(_, _, _, _, _) => MemCompleteRefused(cat, db, m, call);
    case ActivateInstallation(_, _, _, _, _) => MemActivateRefused(cat, db, m, call);
    case _ => MemHandoffRefused(cat, db, m, call);
  }

  lemma OneRefusal(cat: Catalog, db: Db, call: Call, a: Refusal, b: Refusal)
    requires RefusedAs(cat, db, call, a) && RefusedAs(cat, db, call, b)
    ensures a == b
  {
    if call.HandleOAuthCallback? && !NoCallback(db, call.state) {
      var p :| p in db.preflights && db.preflights[p].state == call.state;
    }
  }

  lemma ErrorsAgree(cat: Catalog, db: Db, m: Mem, call: Call)
    requires Ready(cat, db, m) && Fresh(db, call)
    ensures ErrorOf(SqlStep(cat, db, call)) == ErrorOf(MemStep(cat, m, call)) <==> !CompletedElsewhere(cat, db, call)
  {
    RefusedExactly(cat, db, call);
    MemoryRefusedExactly(cat, db, m, call);
    if !CompletedElsewhere(cat, db, call) { OneRefusal(cat, db, call, ErrorOf(SqlStep(cat, db, call)), ErrorOf(MemStep(cat, m, call))); }
  }

  /** After any sequence of calls both Stores answer the next with the same error, or both accept it,
      if and only if it does not complete an intent a second time through another exchange. */
  lemma ErrorsAgreeExactlyWhen(cat: Catalog, calls: seq<Call>, next: Call)
    requires CatalogOk(cat) && FreshRun(cat, calls) && Fresh(SqlRun(cat, calls), next)
    ensures ErrorOf(SqlStep(cat, SqlRun(cat, calls), next)) == ErrorOf(MemStep(cat, MemRun(cat, calls), next))
      <==> !CompletedElsewhere(cat, SqlRun(cat, calls), next)
  {
    StoresAgree(cat, calls);
    ErrorsAgree(cat, SqlRun(cat, calls), MemRun(cat, calls), next);
  }
}
