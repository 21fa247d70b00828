/** The SQL repository refines the in-memory Store: one Store over either accepts the same calls
    and reaches the same records. */
module AppRefinement {
  import opened Lib
  import opened AppTables
  import opened AppGuarantees
  import opened AppMemory

  // ---------- the same rows under another key ----------

  /** `keyed` holds exactly the rows of `rows`, each under its own key. */
  ghost predicate Rekeyed<T(!new)>(rows: map<Ref, T>, keyed: map<Ref, T>, ref: T -> Ref, key: T -> Ref) {
    && (forall k :: k in rows ==> ref(rows[k]) == k && key(rows[k]) in keyed && keyed[key(rows[k])] == rows[k])
    && (forall k :: k in keyed ==> key(keyed[k]) == k && ref(keyed[k]) in rows && rows[ref(keyed[k])] == keyed[k])
  }

  lemma RekeyedInsert<T(!new)>(rows: map<Ref, T>, keyed: map<Ref, T>, ref: T -> Ref, key: T -> Ref, row: T)
    requires Rekeyed(rows, keyed, ref, key) && ref(row) !in rows && key(row) !in keyed
    ensures Rekeyed(rows[ref(row) := row], keyed[key(row) := row], ref, key)
  {
  }

  function PreviewRef(p: Preview): Ref { p.ref }
  function PreviewKey(p: Preview): Ref { p.state }
  function PreflightRef(p: Preflight): Ref { p.ref }
  function PreflightKey(p: Preflight): Ref { p.state }
  function ExchangeRef(e: Exchange): Ref { e.ref }
  function ExchangeKey(e: Exchange): Ref { e.preflight }
  function CompletionRef(c: Completion): Ref { c.ref }
  function CompletionKey(c: Completion): Ref { c.exchange }
  function InstallationRef(i: Installation): Ref { i.ref }
  function InstallationKey(i: Installation): Ref { i.completion }

  ghost predicate SamePreviews(rows: map<Ref, Preview>, keyed: map<Ref, Preview>) { Rekeyed(rows, keyed, PreviewRef, PreviewKey) }

  ghost predicate SamePreflights(rows: map<Ref, Preflight>, keyed: map<Ref, Preflight>) { Rekeyed(rows, keyed, PreflightRef, PreflightKey) }

  ghost predicate SameExchanges(rows: map<Ref, Exchange>, keyed: map<Ref, Exchange>) { Rekeyed(rows, keyed, ExchangeRef, ExchangeKey) }

  ghost predicate SameCompletions(rows: map<Ref, Completion>, keyed: map<Ref, Completion>) { Rekeyed(rows, keyed, CompletionRef, CompletionKey) }

  ghost predicate SameInstallations(rows: map<Ref, Installation>, keyed: map<Ref, Installation>) { Rekeyed(rows, keyed, InstallationRef, InstallationKey) }

  /** The database and the maps hold the same records, with the same statuses and modes. */
  ghost predicate Same(db: Db, m: Mem) {
    && db.intents == m.intents && db.sessions == m.sessions
    && SamePreviews(db.previews, m.previews) && SamePreflights(db.preflights, m.preflights)
    && SameExchanges(db.exchanges, m.exchanges) && SameCompletions(db.completions, m.completions)
    && SameInstallations(db.installations, m.installations)
  }

  // ---------- one call ----------

  /** One call on a Store with a repository, alone on its database. */
  ghost function SqlStep(cat: Catalog, db: Db, call: Call): Result<Db, Error> {
    match Plan(cat, db, call)
    case Err(e) => Err(e)
    case Ok(r) => Tx(cat, db, r)
  }

  /** The catalog's rows have no empty field. */
  ghost predicate CatalogOk(cat: Catalog) {
    forall app :: app in cat ==> app != "" && cat[app].provider != "" && cat[app].authType != ""
  }

  /** The random reference a call draws is not empty and not taken. */
  ghost predicate Fresh(db: Db, call: Call) {
    match call
    case CreateInstallIntent(_, _, ref) => ref != "" && ref !in db.intents
    case MarkRequiresExternalAuth(_, _) => true
    case ReadDescriptor(_, _, state, _) => state != "" && state !in db.sessions
    case Consume(_, _, _, _) => true
    case PreviewAuthorization(_, _, _, ref, _) => ref != "" && ref !in db.previews
    case PreflightCallback(_, _, _, _, ref, _) => ref != "" && ref !in db.preflights
    case ExchangeProvider(_, _, _, _, ref, _) => ref != "" && ref !in db.exchanges
    case ExchangeProviderOAuth(_, _, _, _, _, _, ref, _) => ref != "" && ref !in db.exchanges
    case HandleOAuthCallback(_, _, _, ref, _) => ref != "" && ref !in db.exchanges
    case CompleteInstall(_, _, _, ref, _) => ref != "" && ref !in db.completions
    case ActivateInstallation(_, _, _, ref, _) => ref != "" && ref !in db.installations
  }

  ghost predicate Ready(cat: Catalog, db: Db, m: Mem) {
    CatalogOk(cat) && DbOk(cat, db) && OneShot(db) && Same(db, m)
  }

  /** Both accept, and hold the same records afterwards; or both refuse. */
  ghost predicate Agree(r: Result<Db, Error>, r': Result<Mem, Error>) {
    (r.Ok? <==> r'.Ok?) && (r.Ok? ==> Same(r.value, r'.value))
  }

  lemma SameWithCompletion(db: Db, m: Mem, row: Completion, intents: map<Ref, Intent>)
    requires Same(db, m) && row.ref !in db.completions && row.exchange !in m.completions
    ensures Same(db.(intents := intents, completions := db.completions[row.ref := row]),
                 m.(intents := intents, completions := m.completions[row.exchange := row]))
  {
    RekeyedInsert(db.completions, m.completions, CompletionRef, CompletionKey, row);
  }

  lemma SameWithInstallation(db: Db, m: Mem, row: Installation)
    requires Same(db, m) && row.ref !in db.installations && row.completion !in m.installations
    ensures Same(db.(installations := db.installations[row.ref := row]), m.(installations := m.installations[row.completion := row]))
  {
    RekeyedInsert(db.installations, m.installations, InstallationRef, InstallationKey, row);
  }

  lemma PreviewAccepted(cat: Catalog, db: Db, m: Mem, call: Call)
    requires CatalogOk(cat) && Fresh(db, call) && call.PreviewAuthorization?
    requires db.intents == m.intents && db.sessions == m.sessions
    requires PreviewedState(db, call.state) ==> call.state in db.sessions && db.sessions[call.state].consumedAt.Some?
    ensures SqlStep(cat, db, call).Ok? <==> MemStep(cat, m, call).Ok?
    ensures SqlStep(cat, db, call).Ok? ==>
      && !PreviewedState(db, call.state)
      && call.intent in db.intents
      && var db', m', row := SqlStep(cat, db, call).value, MemStep(cat, m, call).value, PreviewRow(db, call);
      && db'.sessions == m'.sessions
      && db' == db.(sessions := db'.sessions, previews := db.previews[row.ref := row])
      && m' == m.(sessions := m'.sessions, previews := m.previews[row.state := row])
  {
  }

  function PreviewRow(db: Db, call: Call): Preview
    requires call.PreviewAuthorization? && call.intent in db.intents
  {
    Preview(call.ref, call.user, call.intent, db.intents[call.intent].app, call.state, call.now)
  }

  /** The preview table needs no check of its own: a previewed state has been consumed. */
  lemma PreviewAgrees(cat: Catalog, db: Db, m: Mem, call: Call)
    requires Ready(cat, db, m) && Fresh(db, call) && call.PreviewAuthorization?
    ensures Agree(SqlStep(cat, db, call), MemStep(cat, m, call))
  {
    if PreviewedState(db, call.state) { PreviewedWasConsumed(cat, db, call.state); }
    PreviewAccepted(cat, db, m, call);
    if SqlStep(cat, db, call).Ok? {
      assert call.state in m.previews ==> m.previews[call.state].ref in db.previews;
      RekeyedInsert(db.previews, m.previews, PreviewRef, PreviewKey, PreviewRow(db, call));
    }
  }

  lemma PreviewedWasConsumed(cat: Catalog, db: Db, state: Ref)
    requires DbOk(cat, db) && PreviewedState(db, state)
    ensures state in db.sessions && db.sessions[state].consumedAt.Some?
  {
    var k :| k in db.previews && db.previews[k].state == state;
    assert PreviewOk(db, k, db.previews[k]);
  }

  /** Whether both accept, from what they look at. */
  lemma PreflightAccepted(cat: Catalog, db: Db, m: Mem, call: Call)
    requires CatalogOk(cat) && Fresh(db, call) && call.PreflightCallback?
    requires db.intents == m.intents && db.sessions == m.sessions && (PreflightedState(db, call.state) <==> call.state in m.preflights)
    ensures SqlStep(cat, db, call).Ok? <==> MemStep(cat, m, call).Ok?
    ensures SqlStep(cat, db, call).Ok? ==>
      && Plan(cat, db, call).Ok? && Plan(cat, db, call).value.SavePreflight?
      && call.state !in m.preflights
      && var db', m', row := SqlStep(cat, db, call).value, MemStep(cat, m, call).value, Plan(cat, db, call).value.row;
      && row.ref == call.ref && row.state == call.state && db'.sessions == m'.sessions
      && db' == db.(sessions := db'.sessions, preflights := db.preflights[row.ref := row])
      && m' == m.(sessions := m'.sessions, preflights := m.preflights[row.state := row])
  {
  }

  lemma PreflightAgrees(cat: Catalog, db: Db, m: Mem, call: Call)
    requires Ready(cat, db, m) && Fresh(db, call) && call.PreflightCallback?
    ensures Agree(SqlStep(cat, db, call), MemStep(cat, m, call))
  {
    PreflightedByKey(db, m, call.state);
    PreflightAccepted(cat, db, m, call);
    if SqlStep(cat, db, call).Ok? {
      RekeyedInsert(db.preflights, m.preflights, PreflightRef, PreflightKey, Plan(cat, db, call).value.row);
    }
  }

  lemma PreflightedByKey(db: Db, m: Mem, state: Ref)
    requires Same(db, m)
    ensures PreflightedState(db, state) <==> state in m.preflights
  {
    if state in m.preflights { assert m.preflights[state].ref in db.preflights; }
  }

  lemma ExchangedByKey(db: Db, m: Mem, preflight: Ref)
    requires Same(db, m)
    ensures ExchangedPreflight(db, preflight) <==> preflight in m.exchanges
  {
    if preflight in m.exchanges { assert m.exchanges[preflight].ref in db.exchanges; }
  }

  /** The column that makes an exchange unique per handoff state adds nothing to the one that
      makes it unique per preflight. */
  lemma ExchangedStateIsExchangedPreflight(cat: Catalog, db: Db, preflight: Ref)
    requires DbOk(cat, db) && OneShot(db) && preflight in db.preflights && ExchangedState(db, db.preflights[preflight].state)
    ensures ExchangedPreflight(db, preflight)
  {
    var k :| k in db.exchanges && db.exchanges[k].state == db.preflights[preflight].state;
    assert ExchangeOk(db, k, db.exchanges[k]);
    assert db.exchanges[k].preflight == preflight;
  }

  /** A scan for a preflight finds the row the database finds by its primary key. */
  lemma ScanFindsPreflight(db: Db, m: Mem, user: int, intent: Ref, state: Ref, preflight: Ref)
    requires Same(db, m)
    ensures Scan(m.preflights, p => PreflightMatches(p, user, intent, state, preflight)) == PreflightOf(db, user, intent, state, preflight)
  {
    var r := Scan(m.preflights, p => PreflightMatches(p, user, intent, state, preflight));
    if r.Some? { assert PreflightMatches(r.value, user, intent, state, preflight); }
    assert preflight in db.preflights ==> m.preflights[PreflightKey(db.preflights[preflight])] == db.preflights[preflight];
  }

  lemma ScanFindsByState(db: Db, m: Mem, state: Ref)
    requires Same(db, m)
    ensures Scan(m.preflights, (p: Preflight) => p.state == state) == PreflightByState(db, state)
    ensures PreflightByState(db, state).Some? ==>
      && PreflightByState(db, state).value.ref in db.preflights
      && db.preflights[PreflightByState(db, state).value.ref] == PreflightByState(db, state).value
  {
    PreflightedByKey(db, m, state);
    var r := Scan(m.preflights, (p: Preflight) => p.state == state);
    if r.Some? { assert r.value == m.preflights[PreflightKey(r.value)]; }
    assert state in m.preflights ==> PreflightKey(m.preflights[state]) == state;
  }

  lemma ExchangeRowsAgree(cat: Catalog, db: Db, m: Mem, row: Exchange)
    requires Ready(cat, db, m) && row.ref !in db.exchanges && row.preflight in db.preflights
    ensures ExchangedPreflight(db, row.preflight) <==> row.preflight in m.exchanges
    ensures row.state == db.preflights[row.preflight].state && ExchangedState(db, row.state) ==> ExchangedPreflight(db, row.preflight)
    ensures row.preflight !in m.exchanges ==> SameExchanges(db.exchanges[row.ref := row], m.exchanges[row.preflight := row])
  {
    ExchangedByKey(db, m, row.preflight);
    if row.state == db.preflights[row.preflight].state && ExchangedState(db, row.state) {
      ExchangedStateIsExchangedPreflight(cat, db, row.preflight);
    }
    if row.preflight !in m.exchanges { RekeyedInsert(db.exchanges, m.exchanges, ExchangeRef, ExchangeKey, row); }
  }

  /** Both save this exchange or neither does, from what they look at. */
  lemma ExchangeAccepted(cat: Catalog, db: Db, m: Mem, call: Call, p: Preflight)
    requires CatalogOk(cat) && Fresh(db, call) && call.ExchangeProvider? && db.intents == m.intents
    requires PreflightOf(db, call.user, call.intent, call.state, call.preflight) == Some(p)
      && Scan(m.preflights, p => PreflightMatches(p, call.user, call.intent, call.state, call.preflight)) == Some(p)
    requires p.intent in db.intents && p.app == db.intents[p.intent].app && p.app in cat && p.provider == cat[p.app].provider
    requires (ExchangedPreflight(db, p.ref) <==> p.ref in m.exchanges) && (ExchangedState(db, p.state) ==> p.ref in m.exchanges)
    requires p.ref == call.preflight
    ensures SqlStep(cat, db, call).Ok? <==> MemStep(cat, m, call).Ok?
    ensures SqlStep(cat, db, call).Ok? ==>
      && p.ref !in m.exchanges
      && var e := SimulatedExchange(p, call.ref, call.now);
      SqlStep(cat, db, call).value == db.(exchanges := db.exchanges[call.ref := e])
      && MemStep(cat, m, call).value == m.(exchanges := m.exchanges[p.ref := e])
  {
  }

  function SimulatedExchange(p: Preflight, ref: Ref, now: int): Exchange {
    Exchange(ref, p.user, p.intent, p.app, p.provider, p.state, p.ref, if p.status == Denied then ExchangeBlocked else Queued, Simulated, now)
  }

  lemma ExchangeAgrees(cat: Catalog, db: Db, m: Mem, call: Call)
    requires Ready(cat, db, m) && Fresh(db, call) && call.ExchangeProvider?
    ensures Agree(SqlStep(cat, db, call), MemStep(cat, m, call))
  {
    ScanFindsPreflight(db, m, call.user, call.intent, call.state, call.preflight);
    var found := PreflightOf(db, call.user, call.intent, call.state, call.preflight);
    if found.Some? {
      var p := found.value;
      assert PreflightOk(cat, db, call.preflight, p);
      ExchangeRowsAgree(cat, db, m, SimulatedExchange(p, call.ref, call.now));
      ExchangeAccepted(cat, db, m, call, p);
    } else {
      NoPreflightNoExchange(cat, db, m, call);
    }
  }

  lemma NoPreflightNoExchange(cat: Catalog, db: Db, m: Mem, call: Call)
    requires call.ExchangeProvider? && db.intents == m.intents
    requires PreflightOf(db, call.user, call.intent, call.state, call.preflight).None?
      && Scan(m.preflights, p => PreflightMatches(p, call.user, call.intent, call.state, call.preflight)).None?
    ensures SqlStep(cat, db, call).Err? && MemStep(cat, m, call).Err?
  {
  }

  function SqlOAuth(cat: Catalog, db: Db, p: Preflight, portOk: bool, ref: Ref, now: int): Result<Db, Error> {
    match PlanOAuth(cat, db, p, portOk, ref, now)
    case Err(e) => Err(e)
    case Ok(r) => Tx(cat, db, r)
  }

  lemma OAuthAccepted(cat: Catalog, db: Db, m: Mem, p: Preflight, portOk: bool, ref: Ref, now: int)
    requires CatalogOk(cat) && ref != "" && ref !in db.exchanges
    requires p.ref in db.preflights && db.preflights[p.ref] == p && p.status == Authorized
    requires p.intent in db.intents && p.app == db.intents[p.intent].app && p.app in cat && p.provider == cat[p.app].provider
    requires !Blank(p.user, [p.ref, p.intent, p.state]) && ReadyIntent(cat, db.intents, p.user, p.intent).Ok?
    requires (ExchangedPreflight(db, p.ref) <==> p.ref in m.exchanges) && (ExchangedState(db, p.state) ==> p.ref in m.exchanges)
    requires HasExchange(db, p.user, p.intent, p.ref) == ExchangeHeld(m, p.user, p.intent, p.ref) == (p.ref in m.exchanges)
    ensures var sql := SqlOAuth(cat, db, p, portOk, ref, now);
      var mem := MemExchangeOAuth(m, p.app, cat[p.app], p, portOk, ref, now);
      var e := Exchange(ref, p.user, p.intent, p.app, p.provider, p.state, p.ref, CredentialReady, ProviderOAuth, now);
      && (sql.Ok? <==> mem.Ok?)
      && (sql.Ok? ==>
        && p.ref !in m.exchanges
        && sql.value == db.(exchanges := db.exchanges[ref := e]) && mem.value == m.(exchanges := m.exchanges[p.ref := e]))
  {
  }

  lemma OAuthAgrees(cat: Catalog, db: Db, m: Mem, p: Preflight, portOk: bool, ref: Ref, now: int)
    requires Ready(cat, db, m) && ref != "" && ref !in db.exchanges
    requires p.ref in db.preflights && db.preflights[p.ref] == p && p.status == Authorized
    requires !Blank(p.user, [p.ref, p.intent, p.state]) && ReadyIntent(cat, db.intents, p.user, p.intent).Ok?
    ensures p.app in cat && ReadyIntent(cat, db.intents, p.user, p.intent).value == (p.app, cat[p.app])
    ensures Agree(SqlOAuth(cat, db, p, portOk, ref, now), MemExchangeOAuth(m, p.app, cat[p.app], p, portOk, ref, now))
  {
    assert PreflightOk(cat, db, p.ref, p);
    HeldExchanges(cat, db, m, p);
    ExchangeRowsAgree(cat, db, m, Exchange(ref, p.user, p.intent, p.app, p.provider, p.state, p.ref, CredentialReady, ProviderOAuth, now));
    OAuthAccepted(cat, db, m, p, portOk, ref, now);
  }

  lemma HeldExchanges(cat: Catalog, db: Db, m: Mem, p: Preflight)
    requires Ready(cat, db, m) && p.ref in db.preflights && db.preflights[p.ref] == p
    ensures HasExchange(db, p.user, p.intent, p.ref) <==> p.ref in m.exchanges
    ensures ExchangeHeld(m, p.user, p.intent, p.ref) <==> p.ref in m.exchanges
  {
    ExchangedByKey(db, m, p.ref);
    if p.ref in m.exchanges {
      var e := m.exchanges[p.ref];
      assert ExchangeKey(e) == p.ref && ExchangeRef(e) in db.exchanges && db.exchanges[ExchangeRef(e)] == e;
      assert ExchangeOk(db, e.ref, e);
    }
    if ExchangeHeld(m, p.user, p.intent, p.ref) {
      var k :| k in m.exchanges && m.exchanges[k].user == p.user && m.exchanges[k].intent == p.intent && m.exchanges[k].preflight == p.ref;
      assert ExchangeKey(m.exchanges[k]) == k;
    }
  }

  /** Both entry points either refuse or come down to the shared part. */
  lemma RequestOAuthUnfolds(cat: Catalog, db: Db, m: Mem, call: Call)
    requires call.ExchangeProviderOAuth? && db.intents == m.intents
    requires Scan(m.preflights, p => PreflightMatches(p, call.user, call.intent, call.state, call.preflight))
      == PreflightOf(db, call.user, call.intent, call.state, call.preflight)
    ensures var found := PreflightOf(db, call.user, call.intent, call.state, call.preflight);
      if found.Some? && found.value.status == Authorized && ReadyIntent(cat, db.intents, call.user, call.intent).Ok?
         && !Blank(call.user, [call.intent, call.state, call.preflight, call.code])
      then
        var ready := ReadyIntent(cat, db.intents, call.user, call.intent).value;
        && SqlStep(cat, db, call) == SqlOAuth(cat, db, found.value, call.portOk, call.ref, call.now)
        && MemStep(cat, m, call) == MemExchangeOAuth(m, ready.0, ready.1, found.value, call.portOk, call.ref, call.now)
      else SqlStep(cat, db, call).Err? && MemStep(cat, m, call).Err?
  {
  }

  lemma CallbackUnfolds(cat: Catalog, db: Db, m: Mem, call: Call)
    requires call.HandleOAuthCallback? && db.intents == m.intents
    requires Scan(m.preflights, (p: Preflight) => p.state == call.state) == PreflightByState(db, call.state)
    ensures var found := PreflightByState(db, call.state);
      if found.Some? && found.value.status == Authorized && ReadyIntent(cat, db.intents, found.value.user, found.value.intent).Ok?
         && "" !in [call.state, call.code]
      then
        var ready := ReadyIntent(cat, db.intents, found.value.user, found.value.intent).value;
        && SqlStep(cat, db, call) == SqlOAuth(cat, db, found.value, call.portOk, call.ref, call.now)
        && MemStep(cat, m, call) == MemExchangeOAuth(m, ready.0, ready.1, found.value, call.portOk, call.ref, call.now)
      else SqlStep(cat, db, call).Err? && MemStep(cat, m, call).Err?
  {
  }

  lemma RequestOAuthAgrees(cat: Catalog, db: Db, m: Mem, call: Call)
    requires Ready(cat, db, m) && Fresh(db, call) && call.ExchangeProviderOAuth?
    ensures Agree(SqlStep(cat, db, call), MemStep(cat, m, call))
  {
    ScanFindsPreflight(db, m, call.user, call.intent, call.state, call.preflight);
    RequestOAuthUnfolds(cat, db, m, call);
    var found := PreflightOf(db, call.user, call.intent, call.state, call.preflight);
    if found.Some? && found.value.status == Authorized && ReadyIntent(cat, db.intents, call.user, call.intent).Ok? {
      assert PreflightOk(cat, db, call.preflight, found.value);
      OAuthAgrees(cat, db, m, found.value, call.portOk, call.ref, call.now);
    }
  }

  lemma CallbackAgrees(cat: Catalog, db: Db, m: Mem, call: Call)
    requires Ready(cat, db, m) && Fresh(db, call) && call.HandleOAuthCallback?
    ensures Agree(SqlStep(cat, db, call), MemStep(cat, m, call))
  {
    ScanFindsByState(db, m, call.state);
    CallbackUnfolds(cat, db, m, call);
    var found := PreflightByState(db, call.state);
    if found.Some? && found.value.status == Authorized && ReadyIntent(cat, db.intents, found.value.user, found.value.intent).Ok? {
      assert PreflightOk(cat, db, found.value.ref, found.value);
      OAuthAgrees(cat, db, m, found.value, call.portOk, call.ref, call.now);
    }
  }

  lemma ScanFindsExchange(db: Db, m: Mem, user: int, intent: Ref, exchange: Ref)
    requires Same(db, m)
    ensures var r := Scan(m.exchanges, e => ExchangeMatches(e, user, intent, exchange));
      && (r.Some? <==> exchange in db.exchanges && db.exchanges[exchange].user == user && db.exchanges[exchange].intent == intent)
      && (r.Some? ==> r.value == db.exchanges[exchange])
  {
    var r := Scan(m.exchanges, e => ExchangeMatches(e, user, intent, exchange));
    if r.Some? {
      assert ExchangeMatches(r.value, user, intent, exchange);
    } else if exchange in db.exchanges {
      var e := db.exchanges[exchange];
      assert ExchangeRef(e) == exchange && ExchangeKey(e) in m.exchanges && m.exchanges[ExchangeKey(e)] == e;
      assert !ExchangeMatches(m.exchanges[ExchangeKey(e)], user, intent, exchange);
    }
  }

  lemma CompletedByKey(db: Db, m: Mem, exchange: Ref)
    requires Same(db, m)
    ensures CompletedExchange(db, exchange) <==> exchange in m.completions
  {
    if exchange in m.completions { assert m.completions[exchange].ref in db.completions; }
  }

  lemma OpenIntentsAreNotCompleted(cat: Catalog, db: Db, intent: Ref)
    requires DbOk(cat, db) && intent in db.intents && db.intents[intent].status == RequiresExternalAuth
    ensures !CompletedIntent(db, intent)
  {
    forall k | k in db.completions ensures db.completions[k].intent != intent { assert CompletionOk(db, k, db.completions[k]); }
  }

  function CompletionRow(e: Exchange, ref: Ref, now: int): Completion {
    Completion(ref, e.user, e.intent, e.app, e.provider, e.ref, CompletionStatus(e.status), e.mode, now)
  }

  lemma CompletionAccepted(cat: Catalog, db: Db, m: Mem, call: Call, e: Exchange)
    requires CatalogOk(cat) && Fresh(db, call) && call.CompleteInstall? && db.intents == m.intents
    requires call.exchange in db.exchanges && db.exchanges[call.exchange] == e && e.ref == call.exchange
    requires e.user == call.user && e.intent == call.intent
    requires Scan(m.exchanges, e => ExchangeMatches(e, call.user, call.intent, call.exchange)) == Some(e)
    requires e.intent in db.intents && e.app == db.intents[e.intent].app && e.app in cat && e.provider == cat[e.app].provider
    requires CompletedExchange(db, e.ref) <==> e.ref in m.completions
    requires db.intents[e.intent].status == RequiresExternalAuth ==> !CompletedIntent(db, e.intent)
    ensures SqlStep(cat, db, call).Ok? <==> MemStep(cat, m, call).Ok?
    ensures SqlStep(cat, db, call).Ok? ==>
      && e.ref !in m.completions
      && var db', m', row := SqlStep(cat, db, call).value, MemStep(cat, m, call).value, CompletionRow(e, call.ref, call.now);
      && db'.intents == m'.intents
      && db' == db.(intents := db'.intents, completions := db.completions[call.ref := row])
      && m' == m.(intents := m'.intents, completions := m.completions[e.ref := row])
  {
  }

  lemma NoExchangeNoCompletion(cat: Catalog, db: Db, m: Mem, call: Call)
    requires call.CompleteInstall? && db.intents == m.intents
    requires !(call.exchange in db.exchanges && db.exchanges[call.exchange].user == call.user && db.exchanges[call.exchange].intent == call.intent)
    requires Scan(m.exchanges, e => ExchangeMatches(e, call.user, call.intent, call.exchange)).None?
    ensures SqlStep(cat, db, call).Err? && MemStep(cat, m, call).Err?
  {
  }

  lemma CompleteAgrees(cat: Catalog, db: Db, m: Mem, call: Call)
    requires Ready(cat, db, m) && Fresh(db, call) && call.CompleteInstall?
    ensures Agree(SqlStep(cat, db, call), MemStep(cat, m, call))
  {
    ScanFindsExchange(db, m, call.user, call.intent, call.exchange);
    if call.exchange in db.exchanges && db.exchanges[call.exchange].user == call.user && db.exchanges[call.exchange].intent == call.intent {
      var e := db.exchanges[call.exchange];
      ExchangeNamesItsIntent(cat, db, call.exchange);
      CompletedByKey(db, m, call.exchange);
      if db.intents[e.intent].status == RequiresExternalAuth { OpenIntentsAreNotCompleted(cat, db, e.intent); }
      CompletionAccepted(cat, db, m, call, e);
      if SqlStep(cat, db, call).Ok? {
        SameWithCompletion(db, m, CompletionRow(e, call.ref, call.now), SqlStep(cat, db, call).value.intents);
      }
    } else {
      NoExchangeNoCompletion(cat, db, m, call);
    }
  }

  lemma ExchangeNamesItsIntent(cat: Catalog, db: Db, exchange: Ref)
    requires DbOk(cat, db) && exchange in db.exchanges
    ensures var e := db.exchanges[exchange];
      e.ref == exchange && e.intent in db.intents && e.app == db.intents[e.intent].app && e.app in cat && e.provider == cat[e.app].provider
  {
    var e := db.exchanges[exchange];
    assert ExchangeOk(db, exchange, e);
    assert PreflightOk(cat, db, e.preflight, db.preflights[e.preflight]);
  }

  lemma ScanFindsCompletion(db: Db, m: Mem, user: int, intent: Ref, completion: Ref)
    requires Same(db, m)
    ensures var r := Scan(m.completions, c => CompletionMatches(c, user, intent, completion));
      && (r.Some? <==> completion in db.completions && db.completions[completion].user == user && db.completions[completion].intent == intent)
      && (r.Some? ==> r.value == db.completions[completion])
  {
    var r := Scan(m.completions, c => CompletionMatches(c, user, intent, completion));
    if r.Some? {
      assert CompletionMatches(r.value, user, intent, completion);
    } else if completion in db.completions {
      var c := db.completions[completion];
      assert CompletionRef(c) == completion && CompletionKey(c) in m.completions && m.completions[CompletionKey(c)] == c;
      assert !CompletionMatches(m.completions[CompletionKey(c)], user, intent, completion);
    }
  }

  lemma InstalledByKey(db: Db, m: Mem, user: int, intent: Ref, completion: Ref)
    requires Same(db, m)
    ensures InstalledCompletion(db, completion) <==> completion in m.installations
    ensures InstalledIntentOf(db, intent, user) <==> InstallationHeld(m, user, intent)
  {
    if completion in m.installations { assert m.installations[completion].ref in db.installations; }
    if InstallationHeld(m, user, intent) {
      var k :| k in m.installations && m.installations[k].user == user && m.installations[k].intent == intent;
      assert m.installations[k].ref in db.installations;
    }
    if InstalledIntentOf(db, intent, user) {
      var k :| k in db.installations && db.installations[k].intent == intent && db.installations[k].user == user;
      assert m.installations[InstallationKey(db.installations[k])] == db.installations[k];
    }
  }

  /** Every installation of an intent belongs to the intent's user. */
  lemma InstallationsHaveOneOwner(cat: Catalog, db: Db, user: int, intent: Ref)
    requires DbOk(cat, db) && intent in db.intents && db.intents[intent].user == user && InstalledIntent(db, intent)
    ensures InstalledIntentOf(db, intent, user)
  {
    var k :| k in db.installations && db.installations[k].intent == intent;
    ProvenanceHolds(cat, db, k);
  }

  function InstallationRow(c: Completion, ref: Ref, now: int): Installation {
    Installation(ref, c.user, c.intent, c.app, c.provider, c.ref, c.mode, now)
  }

  lemma InstallationAccepted(cat: Catalog, db: Db, m: Mem, call: Call, c: Completion)
    requires CatalogOk(cat) && Fresh(db, call) && call.ActivateInstallation? && db.intents == m.intents
    requires call.completion in db.completions && db.completions[call.completion] == c && c.ref == call.completion
    requires c.user == call.user && c.intent == call.intent
    requires Scan(m.completions, c => CompletionMatches(c, call.user, call.intent, call.completion)) == Some(c)
    requires c.intent in db.intents && c.app == db.intents[c.intent].app && c.app in cat && c.provider == cat[c.app].provider
    requires InstalledCompletion(db, c.ref) <==> c.ref in m.installations
    requires InstalledIntentOf(db, c.intent, c.user) <==> InstallationHeld(m, c.user, c.intent)
    requires db.intents[c.intent].user == c.user && InstalledIntent(db, c.intent) ==> InstalledIntentOf(db, c.intent, c.user)
    ensures SqlStep(cat, db, call).Ok? <==> MemStep(cat, m, call).Ok?
    ensures SqlStep(cat, db, call).Ok? ==>
      && c.ref !in m.installations
      && var row := InstallationRow(c, call.ref, call.now);
      && SqlStep(cat, db, call).value == db.(installations := db.installations[call.ref := row])
      && MemStep(cat, m, call).value == m.(installations := m.installations[c.ref := row])
  {
  }

  lemma NoCompletionNoInstallation(cat: Catalog, db: Db, m: Mem, call: Call)
    requires call.ActivateInstallation? && db.intents == m.intents
    requires !(call.completion in db.completions && db.completions[call.completion].user == call.user && db.completions[call.completion].intent == call.intent)
    requires Scan(m.completions, c => CompletionMatches(c, call.user, call.intent, call.completion)).None?
    ensures SqlStep(cat, db, call).Err? && MemStep(cat, m, call).Err?
  {
  }

  lemma CompletionNamesItsIntent(cat: Catalog, db: Db, completion: Ref)
    requires DbOk(cat, db) && completion in db.completions
    ensures var c := db.completions[completion];
      c.ref == completion && c.intent in db.intents && c.app == db.intents[c.intent].app && c.app in cat && c.provider == cat[c.app].provider
  {
    var c := db.completions[completion];
    assert CompletionOk(db, completion, c);
    ExchangeNamesItsIntent(cat, db, c.exchange);
  }

  lemma ActivateAgrees(cat: Catalog, db: Db, m: Mem, call: Call)
    requires Ready(cat, db, m) && Fresh(db, call) && call.ActivateInstallation?
    ensures Agree(SqlStep(cat, db, call), MemStep(cat, m, call))
  {
    ScanFindsCompletion(db, m, call.user, call.intent, call.completion);
    if call.completion in db.completions && db.completions[call.completion].user == call.user && db.completions[call.completion].intent == call.intent {
      var c := db.completions[call.completion];
      CompletionNamesItsIntent(cat, db, call.completion);
      InstalledByKey(db, m, call.user, call.intent, call.completion);
      if db.intents[c.intent].user == c.user && InstalledIntent(db, c.intent) { InstallationsHaveOneOwner(cat, db, c.user, c.intent); }
      InstallationAccepted(cat, db, m, call, c);
      if c.ref !in m.installations { SameWithInstallation(db, m, InstallationRow(c, call.ref, call.now)); }
    } else {
      NoCompletionNoInstallation(cat, db, m, call);
    }
  }

  // ---------- every call, and every run ----------

  /** The calls that touch only the intents and the sessions. */
  predicate Shallow(call: Call) {
    call.CreateInstallIntent? || call.MarkRequiresExternalAuth? || call.ReadDescriptor? || call.Consume?
  }

  lemma ShallowAccepted(cat: Catalog, db: Db, m: Mem, call: Call)
    requires CatalogOk(cat) && Fresh(db, call) && Shallow(call) && db.intents == m.intents && db.sessions == m.sessions
    ensures SqlStep(cat, db, call).Ok? <==> MemStep(cat, m, call).Ok?
    ensures SqlStep(cat, db, call).Ok? ==>
      && var db', m' := SqlStep(cat, db, call).value, MemStep(cat, m, call).value;
      && db' == db.(intents := db'.intents, sessions := db'.sessions)
      && m' == m.(intents := db'.intents, sessions := db'.sessions)
  {
  }

  lemma ShallowCallsAgree(cat: Catalog, db: Db, m: Mem, call: Call)
    requires CatalogOk(cat) && Same(db, m) && Fresh(db, call) && Shallow(call)
    ensures Agree(SqlStep(cat, db, call), MemStep(cat, m, call))
  {
    ShallowAccepted(cat, db, m, call);
  }

  /** Started from the same records, the two accept the same calls and reach the same records. */
  lemma CallsAgree(cat: Catalog, db: Db, m: Mem, call: Call)
    requires Ready(cat, db, m) && Fresh(db, call)
    ensures Agree(SqlStep(cat, db, call), MemStep(cat, m, call))
  {
    match call
    case PreviewAuthorization(_, _, _, _, _) => PreviewAgrees(cat, db, m, call);
    case PreflightCallback(_, _, _, _, _, _) => PreflightAgrees(cat, db, m, call);
    case ExchangeProvider(_, _, _, _, _, _) => ExchangeAgrees(cat, db, m, call);
    case ExchangeProviderOAuth(_, _, _, _, _, _, _, _) => RequestOAuthAgrees(cat, db, m, call);
    case HandleOAuthCallback(_, _, _, _, _) => CallbackAgrees(cat, db, m, call);
    case CompleteInstall(_, _, _, _, _) => CompleteAgrees(cat, db, m, call);
    case ActivateInstallation(_, _, _, _, _) => ActivateAgrees(cat, db, m, call);
    case _ => ShallowCallsAgree(cat, db, m, call);
  }

  /** A Store's state after a sequence of calls; a refused call changes nothing. */
  ghost function SqlRun(cat: Catalog, calls: seq<Call>): Db
    decreases |calls|
  {
    if calls == [] then EMPTY_DB
    else
      var db := SqlRun(cat, calls[..|calls| - 1]);
      var r := SqlStep(cat, db, calls[|calls| - 1]);
      if r.Ok? then r.value else db
  }

  ghost function MemRun(cat: Catalog, calls: seq<Call>): Mem
    decreases |calls|
  {
    if calls == [] then EMPTY_MEM
    else
      var m := MemRun(cat, calls[..|calls| - 1]);
      var r := MemStep(cat, m, calls[|calls| - 1]);
      if r.Ok? then r.value else m
  }

  /** Every call draws references nobody has drawn before. */
  ghost predicate FreshRun(cat: Catalog, calls: seq<Call>) {
    forall i :: 0 <= i < |calls| ==> Fresh(SqlRun(cat, calls[..i]), calls[i])
  }

  lemma SqlStepKeeps(cat: Catalog, db: Db, call: Call)
    requires DbOk(cat, db) && OneShot(db) && SqlStep(cat, db, call).Ok?
    ensures DbOk(cat, SqlStep(cat, db, call).value) && OneShot(SqlStep(cat, db, call).value)
  {
    PlannedRequestsOk(cat, db, call);
    TxKeepsDb(cat, db, Plan(cat, db, call).value);
    TxKeepsOneShot(cat, db, Plan(cat, db, call).value);
  }

  /** After any sequence of calls on one Store the repository and the maps hold the same
      records, and whatever the next call, both accept it or both refuse it. */
  lemma {:induction false} StoresAgree(cat: Catalog, calls: seq<Call>)
    requires CatalogOk(cat) && FreshRun(cat, calls)
    ensures Ready(cat, SqlRun(cat, calls), MemRun(cat, calls))
    ensures forall next ::
      Fresh(SqlRun(cat, calls), next) ==> (SqlStep(cat, SqlRun(cat, calls), next).Ok? <==> MemStep(cat, MemRun(cat, calls), next).Ok?)
    decreases |calls|
  {
    if calls != [] {
      var init, last := calls[..|calls| - 1], calls[|calls| - 1];
      forall i | 0 <= i < |init| ensures Fresh(SqlRun(cat, init[..i]), init[i]) { assert init[..i] == calls[..i]; }
      StoresAgree(cat, init);
      StepReady(cat, SqlRun(cat, init), MemRun(cat, init), last);
    }
    forall next | Fresh(SqlRun(cat, calls), next)
      ensures SqlStep(cat, SqlRun(cat, calls), next).Ok? <==> MemStep(cat, MemRun(cat, calls), next).Ok?
    {
      CallsAgree(cat, SqlRun(cat, calls), MemRun(cat, calls), next);
    }
  }

  lemma StepReady(cat: Catalog, db: Db, m: Mem, call: Call)
    requires Ready(cat, db, m) && Fresh(db, call)
    ensures SqlStep(cat, db, call).Ok? <==> MemStep(cat, m, call).Ok?
    ensures SqlStep(cat, db, call).Ok? ==> Ready(cat, SqlStep(cat, db, call).value, MemStep(cat, m, call).value)
  {
    CallsAgree(cat, db, m, call);
    if SqlStep(cat, db, call).Ok? { SqlStepKeeps(cat, db, call); }
  }

  /** So the in-memory Store's installations have the same provenance. */
  lemma MemoryInstallationsHaveProvenance(cat: Catalog, calls: seq<Call>, completion: Ref)
    requires CatalogOk(cat) && FreshRun(cat, calls) && completion in MemRun(cat, calls).installations
    ensures var m, i := MemRun(cat, calls), MemRun(cat, calls).installations[completion];
      && i.completion == completion && i.intent in m.intents && m.intents[i.intent].user == i.user && m.intents[i.intent].status == Installed
      && exists e, p, s: Session ::
        && e in m.completions && m.completions[e].ref == completion && m.completions[e].status == Installed
        && p in m.exchanges && m.exchanges[p].ref == e && m.exchanges[p].status != ExchangeBlocked
        && m.exchanges[p].state in m.preflights && m.preflights[m.exchanges[p].state].ref == p
        && m.preflights[m.exchanges[p].state].status == Authorized
        && m.exchanges[p].state in m.sessions && m.sessions[m.exchanges[p].state] == s
        && s.user == i.user && s.intent == i.intent && s.consumedAt.Some? && s.consumedAt.value < s.expiresAt
        && m.preflights[m.exchanges[p].state].receivedAt < s.expiresAt
  {
    StoresAgree(cat, calls);
    var db, m := SqlRun(cat, calls), MemRun(cat, calls);
    var i := m.installations[completion];
    assert InstallationKey(i) == completion && db.installations[InstallationRef(i)] == i;
    ProvenanceHolds(cat, db, i.ref);
    var c := db.completions[completion];
    assert CompletionRef(c) == completion && m.completions[CompletionKey(c)] == c;
    var e := db.exchanges[c.exchange];
    assert ExchangeRef(e) == c.exchange && m.exchanges[ExchangeKey(e)] == e;
    var p := db.preflights[e.preflight];
    assert ExchangeOk(db, c.exchange, e);
    assert PreflightRef(p) == e.preflight && m.preflights[PreflightKey(p)] == p;
    assert c.exchange in m.completions && e.preflight in m.exchanges && m.sessions[e.state] == db.sessions[p.state];
  }
}
