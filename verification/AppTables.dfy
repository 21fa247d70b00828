/** The app-install workflow in the database: one table per kind of record, keyed by its
    primary key, and each repository transaction as a function from tables to tables.

    References are opaque strings, already trimmed; times are instants of the wire
    resolution. Unique columns besides the primary key follow the migrations. */
module AppTables {
  import opened Lib

  type Ref = string

  datatype App = App(provider: string, authType: string)

  type Catalog = map<string, App>

  datatype Error =
    | Invalid | AppNotFound | IntentNotFound | IntentNotReady
    | SessionNotFound | SessionConsumed | SessionExpired
    | PreflightConsumed | PreflightNotFound
    | ExchangeRecorded | ExchangeNotFound | ExchangeDenied | PortFailed
    | CompletionRecorded | CompletionNotFound | CompletionNotReady
    | InstallationRecorded | Conflict

  datatype IntentStatus = Pending | RequiresExternalAuth | Installed | Blocked
  datatype CallbackStatus = Authorized | Denied
  datatype ExchangeStatus = Queued | ExchangeBlocked | CredentialReady
  datatype Mode = Simulated | ProviderOAuth

  datatype Intent = Intent(user: int, app: string, status: IntentStatus)
  datatype Session = Session(user: int, intent: Ref, expiresAt: int, consumedAt: Option<int>)
  datatype Preview = Preview(ref: Ref, user: int, intent: Ref, app: string, state: Ref, requestedAt: int)
  datatype Preflight = Preflight(ref: Ref, user: int, intent: Ref, app: string, provider: string, state: Ref, status: CallbackStatus, receivedAt: int)
  datatype Exchange = Exchange(ref: Ref, user: int, intent: Ref, app: string, provider: string, state: Ref, preflight: Ref,
    status: ExchangeStatus, mode: Mode, recordedAt: int)
  datatype Completion = Completion(ref: Ref, user: int, intent: Ref, app: string, provider: string, exchange: Ref,
    status: IntentStatus, mode: Mode, completedAt: int)
  datatype Installation = Installation(ref: Ref, user: int, intent: Ref, app: string, provider: string, completion: Ref,
    mode: Mode, activatedAt: int)

  datatype Db = Db(
    intents: map<Ref, Intent>,
    sessions: map<Ref, Session>,
    previews: map<Ref, Preview>,
    preflights: map<Ref, Preflight>,
    exchanges: map<Ref, Exchange>,
    completions: map<Ref, Completion>,
    installations: map<Ref, Installation>)

  const EMPTY_DB := Db(map[], map[], map[], map[], map[], map[], map[])

  /** What a repository transaction is asked to do. An exchange, completion or installation may
      name the status or mode it expects; the transaction works out the real one. */
  datatype Request =
    | SaveIntent(ref: Ref, user: int, app: string)
    | MarkExternalAuth(user: int, intent: Ref)
    | SaveSession(state: Ref, intent: Ref, user: int, expiresAt: int)
    | ConsumeSession(user: int, intent: Ref, state: Ref, now: int)
    | SavePreview(ref: Ref, user: int, intent: Ref, app: string, provider: string, authType: string, state: Ref, now: int)
    | SavePreflight(row: Preflight)
    | SaveExchange(ref: Ref, user: int, intent: Ref, app: string, provider: string, state: Ref, preflight: Ref,
        expected: Option<ExchangeStatus>, mode: Mode, now: int)
    | SaveCompletion(ref: Ref, user: int, intent: Ref, app: string, provider: string, exchange: Ref,
        expectedStatus: Option<IntentStatus>, expectedMode: Option<Mode>, now: int)
    | SaveInstallation(ref: Ref, user: int, intent: Ref, app: string, provider: string, completion: Ref,
        expectedMode: Option<Mode>, now: int)

  predicate Blank(user: int, refs: seq<string>) { user <= 0 || "" in refs }

  predicate SessionOf(db: Db, state: Ref, intent: Ref, user: int) {
    state in db.sessions && db.sessions[state].intent == intent && db.sessions[state].user == user
  }

  function TxSaveIntent(cat: Catalog, db: Db, ref: Ref, user: int, app: string): Result<Db, Error> {
    if Blank(user, [ref, app]) then Err(Invalid)
    else if ref in db.intents || app !in cat then Err(Conflict)
    else Ok(db.(intents := db.intents[ref := Intent(user, app, Pending)]))
  }

  function TxMark(db: Db, user: int, intent: Ref): Result<Db, Error> {
    if Blank(user, [intent]) then Err(Invalid)
    else if intent !in db.intents || db.intents[intent].user != user then Err(IntentNotFound)
    else if db.intents[intent].status != Pending && db.intents[intent].status != RequiresExternalAuth then Err(IntentNotReady)
    else Ok(db.(intents := db.intents[intent := db.intents[intent].(status := RequiresExternalAuth)]))
  }

  function TxSaveSession(db: Db, state: Ref, intent: Ref, user: int, expiresAt: int): Result<Db, Error> {
    if Blank(user, [state, intent]) then Err(Invalid)
    else if state in db.sessions || intent !in db.intents then Err(Conflict)
    else Ok(db.(sessions := db.sessions[state := Session(user, intent, expiresAt, None)]))
  }

  /** The conditional update that consumes a session once and before its expiry. */
  function TxConsume(db: Db, user: int, intent: Ref, state: Ref, now: int): Result<Db, Error> {
    if Blank(user, [intent, state]) then Err(Invalid)
    else if !SessionOf(db, state, intent, user) then Err(SessionNotFound)
    else if db.sessions[state].consumedAt.Some? then Err(SessionConsumed)
    else if db.sessions[state].expiresAt <= now then Err(SessionExpired)
    else Ok(db.(sessions := db.sessions[state := db.sessions[state].(consumedAt := Some(now))]))
  }

  predicate PreviewedState(db: Db, state: Ref) {
    exists k :: k in db.previews && db.previews[k].state == state
  }

  function TxSavePreview(db: Db, ref: Ref, user: int, intent: Ref, app: string, provider: string, authType: string, state: Ref, now: int): Result<Db, Error> {
    if Blank(user, [intent, app, provider, authType, state]) then Err(Invalid)
    else
      match TxConsume(db, user, intent, state, now)
      case Err(e) => Err(e)
      case Ok(consumed) =>
        if PreviewedState(db, state) then Err(SessionConsumed)
        else if ref in db.previews then Err(Conflict)
        else Ok(consumed.(previews := db.previews[ref := Preview(ref, user, intent, app, state, now)]))
  }

  predicate PreflightedState(db: Db, state: Ref) {
    exists k :: k in db.preflights && db.preflights[k].state == state
  }

  function TxSavePreflight(db: Db, row: Preflight): Result<Db, Error> {
    if Blank(row.user, [row.ref, row.intent, row.state, row.app, row.provider]) then Err(Invalid)
    else if !SessionOf(db, row.state, row.intent, row.user) then Err(SessionNotFound)
    else if db.sessions[row.state].expiresAt <= row.receivedAt then Err(SessionExpired)
    else if PreflightedState(db, row.state) then Err(PreflightConsumed)
    else if row.ref in db.preflights then Err(Conflict)
    else
      var session := db.sessions[row.state];
      Ok(db.(preflights := db.preflights[row.ref := row],
             sessions := if session.consumedAt.Some? then db.sessions
                         else db.sessions[row.state := session.(consumedAt := Some(row.receivedAt))]))
  }

  /** The status an exchange must have, given its mode and the provider's callback. */
  function ExpectedExchange(status: CallbackStatus, mode: Mode): Option<ExchangeStatus> {
    match mode
    case Simulated => Some(if status == Denied then ExchangeBlocked else Queued)
    case ProviderOAuth => if status == Authorized then Some(CredentialReady) else None
  }

  predicate ExchangedPreflight(db: Db, preflight: Ref) {
    exists k :: k in db.exchanges && db.exchanges[k].preflight == preflight
  }

  predicate ExchangedState(db: Db, state: Ref) {
    exists k :: k in db.exchanges && db.exchanges[k].state == state
  }

  function TxSaveExchange(db: Db, r: Request): Result<Db, Error>
    requires r.SaveExchange?
  {
    if Blank(r.user, [r.ref, r.intent, r.state, r.preflight, r.app, r.provider]) then Err(Invalid)
    else if r.preflight !in db.preflights then Err(PreflightNotFound)
    else
      var p := db.preflights[r.preflight];
      if p.state != r.state || p.intent != r.intent || p.user != r.user then Err(PreflightNotFound)
      else if p.app != r.app || p.provider != r.provider then Err(Invalid)
      else
        var status := ExpectedExchange(p.status, r.mode);
        if status.None? then Err(ExchangeDenied)
        else if r.expected.Some? && r.expected != status then Err(Invalid)
        else if ExchangedPreflight(db, r.preflight) then Err(ExchangeRecorded)
        else if r.ref in db.exchanges || ExchangedState(db, r.state) then Err(Conflict)
        else Ok(db.(exchanges := db.exchanges[r.ref :=
          Exchange(r.ref, r.user, r.intent, r.app, r.provider, r.state, r.preflight, status.value, r.mode, r.now)]))
  }

  predicate CompletedExchange(db: Db, exchange: Ref) {
    exists k :: k in db.completions && db.completions[k].exchange == exchange
  }

  predicate CompletedIntent(db: Db, intent: Ref) {
    exists k :: k in db.completions && db.completions[k].intent == intent
  }

  predicate CompletedIntentOf(db: Db, intent: Ref, user: int) {
    exists k :: k in db.completions && db.completions[k].intent == intent && db.completions[k].user == user
  }

  function CompletionStatus(status: ExchangeStatus): IntentStatus {
    if status == ExchangeBlocked then Blocked else Installed
  }

  function TxSaveCompletion(db: Db, r: Request): Result<Db, Error>
    requires r.SaveCompletion?
  {
    if Blank(r.user, [r.ref, r.intent, r.exchange, r.app, r.provider]) then Err(Invalid)
    else if r.exchange !in db.exchanges || r.intent !in db.intents then Err(ExchangeNotFound)
    else
      var e, i := db.exchanges[r.exchange], db.intents[r.intent];
      if e.intent != r.intent || e.user != r.user then Err(ExchangeNotFound)
      else if i.app != r.app || e.provider != r.provider then Err(Invalid)
      else if CompletedExchange(db, r.exchange) || CompletedIntentOf(db, r.intent, r.user) then Err(CompletionRecorded)
      else if i.status != RequiresExternalAuth then Err(IntentNotReady)
      else
        var status := CompletionStatus(e.status);
        if r.expectedStatus.Some? && r.expectedStatus != Some(status) then Err(Invalid)
        else if r.expectedMode.Some? && r.expectedMode != Some(e.mode) then Err(Invalid)
        else if r.ref in db.completions || CompletedIntent(db, r.intent) then Err(Conflict)
        else Ok(db.(
          completions := db.completions[r.ref :=
            Completion(r.ref, r.user, r.intent, r.app, r.provider, r.exchange, status, e.mode, r.now)],
          intents := if i.user == r.user then db.intents[r.intent := i.(status := status)] else db.intents))
  }

  predicate InstalledCompletion(db: Db, completion: Ref) {
    exists k :: k in db.installations && db.installations[k].completion == completion
  }

  predicate InstalledIntent(db: Db, intent: Ref) {
    exists k :: k in db.installations && db.installations[k].intent == intent
  }

  predicate InstalledIntentOf(db: Db, intent: Ref, user: int) {
    exists k :: k in db.installations && db.installations[k].intent == intent && db.installations[k].user == user
  }

  function TxSaveInstallation(cat: Catalog, db: Db, r: Request): Result<Db, Error>
    requires r.SaveInstallation?
  {
    if Blank(r.user, [r.ref, r.intent, r.completion, r.app, r.provider]) then Err(Invalid)
    else if r.completion !in db.completions || r.intent !in db.intents || db.intents[r.intent].app !in cat then Err(CompletionNotFound)
    else
      var m, i := db.completions[r.completion], db.intents[r.intent];
      if m.intent != r.intent || m.user != r.user then Err(CompletionNotFound)
      else if i.app != r.app || cat[i.app].provider != r.provider then Err(Invalid)
      else if i.status != Installed || m.status != Installed then Err(CompletionNotReady)
      else if r.expectedMode.Some? && r.expectedMode != Some(m.mode) then Err(Invalid)
      else if InstalledCompletion(db, r.completion) || InstalledIntentOf(db, r.intent, r.user) then Err(InstallationRecorded)
      else if r.ref in db.installations || InstalledIntent(db, r.intent) then Err(Conflict)
      else Ok(db.(installations := db.installations[r.ref :=
        Installation(r.ref, r.user, r.intent, r.app, r.provider, r.completion, m.mode, r.now)]))
  }

  /** One repository transaction. */
  function Tx(cat: Catalog, db: Db, r: Request): Result<Db, Error> {
    match r
    case SaveIntent(ref, user, app) => TxSaveIntent(cat, db, ref, user, app)
    case MarkExternalAuth(user, intent) => TxMark(db, user, intent)
    case SaveSession(state, intent, user, expiresAt) => TxSaveSession(db, state, intent, user, expiresAt)
    case ConsumeSession(user, intent, state, now) => TxConsume(db, user, intent, state, now)
    case SavePreview(ref, user, intent, app, provider, authType, state, now) => TxSavePreview(db, ref, user, intent, app, provider, authType, state, now)
    case SavePreflight(row) => TxSavePreflight(db, row)
    case SaveExchange(_, _, _, _, _, _, _, _, _, _) => TxSaveExchange(db, r)
    case SaveCompletion(_, _, _, _, _, _, _, _, _) => TxSaveCompletion(db, r)
    case SaveInstallation(_, _, _, _, _, _, _, _) => TxSaveInstallation(cat, db, r)
  }

  // ---------- what the Store asks the repository to do ----------

  datatype Call =
    | CreateInstallIntent(user: int, app: string, ref: Ref)
    | MarkRequiresExternalAuth(user: int, intent: Ref)
    | ReadDescriptor(user: int, intent: Ref, state: Ref, now: int)
    | Consume(user: int, intent: Ref, state: Ref, now: int)
    | PreviewAuthorization(user: int, intent: Ref, state: Ref, ref: Ref, now: int)
    | PreflightCallback(user: int, intent: Ref, state: Ref, status: CallbackStatus, ref: Ref, now: int)
    | ExchangeProvider(user: int, intent: Ref, state: Ref, preflight: Ref, ref: Ref, now: int)
    | ExchangeProviderOAuth(user: int, intent: Ref, state: Ref, preflight: Ref, code: string, portOk: bool, ref: Ref, now: int)
    | HandleOAuthCallback(state: Ref, code: string, portOk: bool, ref: Ref, now: int)
    | CompleteInstall(user: int, intent: Ref, exchange: Ref, ref: Ref, now: int)
    | ActivateInstallation(user: int, intent: Ref, completion: Ref, ref: Ref, now: int)

  /** Milliseconds a handoff session lives. */
  const SESSION_TTL := 600_000

  /** The intent of this user, as read before and outside the repository's transaction. */
  function FindIntent(intents: map<Ref, Intent>, user: int, intent: Ref): Option<Intent> {
    if intent in intents && intents[intent].user == user then Some(intents[intent]) else None
  }

  /** The intent and its app, when the workflow is open for external authorization. */
  function ReadyIntent(cat: Catalog, intents: map<Ref, Intent>, user: int, intent: Ref): Result<(string, App), Error> {
    match FindIntent(intents, user, intent)
    case None => Err(IntentNotFound)
    case Some(i) =>
      if i.status != RequiresExternalAuth then Err(IntentNotReady)
      else if i.app !in cat then Err(AppNotFound)
      else Ok((i.app, cat[i.app]))
  }

  function PreflightOf(db: Db, user: int, intent: Ref, state: Ref, preflight: Ref): Option<Preflight> {
    if preflight in db.preflights && db.preflights[preflight].state == state
       && db.preflights[preflight].intent == intent && db.preflights[preflight].user == user
    then Some(db.preflights[preflight]) else None
  }

  predicate HasExchange(db: Db, user: int, intent: Ref, preflight: Ref) {
    exists k :: k in db.exchanges && db.exchanges[k].preflight == preflight && db.exchanges[k].intent == intent && db.exchanges[k].user == user
  }

  /** The request for a provider exchange through OAuth, after the provider and the credential
      store have been called. */
  function PlanOAuth(cat: Catalog, db: Db, p: Preflight, portOk: bool, ref: Ref, now: int): Result<Request, Error> {
    match ReadyIntent(cat, db.intents, p.user, p.intent)
    case Err(e) => Err(e)
    case Ok((app, meta)) =>
      if p.status != Authorized then Err(ExchangeDenied)
      else if HasExchange(db, p.user, p.intent, p.ref) then Err(ExchangeRecorded)
      else if !portOk then Err(PortFailed)
      else Ok(SaveExchange(ref, p.user, p.intent, app, meta.provider, p.state, p.ref, Some(CredentialReady), ProviderOAuth, now))
  }

  /** The preflight with this state; the column is unique. */
  ghost function PreflightByState(db: Db, state: Ref): Option<Preflight> {
    if PreflightedState(db, state) then
      var k :| k in db.preflights && db.preflights[k].state == state;
      Some(db.preflights[k])
    else None
  }

  /** What the Store does before a transaction: validate, read, and build the request. */
  ghost function Plan(cat: Catalog, db: Db, c: Call): Result<Request, Error> {
    match c
    case CreateInstallIntent(user, app, ref) =>
      if Blank(user, [app]) then Err(Invalid)
      else if app !in cat then Err(AppNotFound)
      else Ok(SaveIntent(ref, user, app))
    case MarkRequiresExternalAuth(user, intent) =>
      if Blank(user, [intent]) then Err(Invalid) else Ok(MarkExternalAuth(user, intent))
    case ReadDescriptor(user, intent, state, now) =>
      if Blank(user, [intent]) then Err(Invalid)
      else
        (match ReadyIntent(cat, db.intents, user, intent)
         case Err(e) => Err(e)
         case Ok(_) => Ok(SaveSession(state, intent, user, now + SESSION_TTL)))
    case Consume(user, intent, state, now) =>
      if Blank(user, [intent, state]) then Err(Invalid) else Ok(ConsumeSession(user, intent, state, now))
    case PreviewAuthorization(user, intent, state, ref, now) =>
      if Blank(user, [intent, state]) then Err(Invalid)
      else
        (match ReadyIntent(cat, db.intents, user, intent)
         case Err(e) => Err(e)
         case Ok((app, meta)) => Ok(SavePreview(ref, user, intent, app, meta.provider, meta.authType, state, now)))
    case PreflightCallback(user, intent, state, status, ref, now) =>
      if Blank(user, [intent, state]) then Err(Invalid)
      else
        (match ReadyIntent(cat, db.intents, user, intent)
         case Err(e) => Err(e)
         case Ok((app, meta)) => Ok(SavePreflight(Preflight(ref, user, intent, app, meta.provider, state, status, now))))
    case ExchangeProvider(user, intent, state, preflight, ref, now) =>
      if Blank(user, [intent, state, preflight]) then Err(Invalid)
      else
        (match ReadyIntent(cat, db.intents, user, intent)
         case Err(e) => Err(e)
         case Ok((app, meta)) => Ok(SaveExchange(ref, user, intent, app, meta.provider, state, preflight, None, Simulated, now)))
    case ExchangeProviderOAuth(user, intent, state, preflight, code, portOk, ref, now) =>
      if Blank(user, [intent, state, preflight, code]) then Err(Invalid)
      else
        (match ReadyIntent(cat, db.intents, user, intent)
         case Err(e) => Err(e)
         case Ok(_) =>
           match PreflightOf(db, user, intent, state, preflight)
           case None => Err(PreflightNotFound)
           case Some(p) => PlanOAuth(cat, db, p, portOk, ref, now))
    case HandleOAuthCallback(state, code, portOk, ref, now) =>
      if "" in [state, code] then Err(Invalid)
      else
        (match PreflightByState(db, state)
         case None => Err(PreflightNotFound)
         case Some(p) => if p.status != Authorized then Err(ExchangeDenied) else PlanOAuth(cat, db, p, portOk, ref, now))
    case CompleteInstall(user, intent, exchange, ref, now) =>
      if Blank(user, [intent, exchange]) then Err(Invalid)
      else
        (match FindIntent(db.intents, user, intent)
         case None => Err(IntentNotFound)
         case Some(i) =>
           if i.app !in cat then Err(AppNotFound)
           else Ok(SaveCompletion(ref, user, intent, i.app, cat[i.app].provider, exchange, None, None, now)))
    case ActivateInstallation(user, intent, completion, ref, now) =>
      if Blank(user, [intent, completion]) then Err(Invalid)
      else
        (match FindIntent(db.intents, user, intent)
         case None => Err(IntentNotFound)
         case Some(i) =>
           if i.app !in cat then Err(AppNotFound)
           else Ok(SaveInstallation(ref, user, intent, i.app, cat[i.app].provider, completion, None, now)))
  }
}
