/** The install workflow as the in-memory Store keeps it: the same rows in maps keyed by the
    predecessor's reference, so that a second record overwrites nothing only because the
    method looked first. */
module AppMemory {
  import opened Lib
  import opened AppTables

  /** Previews and preflights are keyed by handoff state, exchanges by preflight, completions by
      exchange, installations by completion. */
  datatype Mem = Mem(
    intents: map<Ref, Intent>,
    sessions: map<Ref, Session>,
    previews: map<Ref, Preview>,
    preflights: map<Ref, Preflight>,
    exchanges: map<Ref, Exchange>,
    completions: map<Ref, Completion>,
    installations: map<Ref, Installation>)

  const EMPTY_MEM := Mem(map[], map[], map[], map[], map[], map[], map[])

  predicate SessionHeld(m: Mem, state: Ref, intent: Ref, user: int) {
    state in m.sessions && m.sessions[state].user == user && m.sessions[state].intent == intent
  }

  predicate PreflightMatches(p: Preflight, user: int, intent: Ref, state: Ref, ref: Ref) {
    p.user == user && p.intent == intent && p.state == state && p.ref == ref
  }

  predicate ExchangeMatches(e: Exchange, user: int, intent: Ref, ref: Ref) {
    e.user == user && e.intent == intent && e.ref == ref
  }

  predicate CompletionMatches(c: Completion, user: int, intent: Ref, ref: Ref) {
    c.user == user && c.intent == intent && c.ref == ref
  }

  /** The result of a scan: some row that matches, whichever the iteration meets first. */
  ghost function Scan<T(!new)>(rows: map<Ref, T>, matches: T -> bool): (r: Option<T>)
    ensures r.Some? ==> matches(r.value) && exists k :: k in rows && rows[k] == r.value
    ensures r.None? ==> forall k :: k in rows ==> !matches(rows[k])
  {
    if exists k :: k in rows && matches(rows[k]) then
      var k :| k in rows && matches(rows[k]);
      Some(rows[k])
    else None
  }

  predicate ExchangeHeld(m: Mem, user: int, intent: Ref, preflight: Ref) {
    exists k :: k in m.exchanges && m.exchanges[k].user == user && m.exchanges[k].intent == intent && m.exchanges[k].preflight == preflight
  }

  predicate InstallationHeld(m: Mem, user: int, intent: Ref) {
    exists k :: k in m.installations && m.installations[k].user == user && m.installations[k].intent == intent
  }

  function MemConsume(m: Mem, user: int, intent: Ref, state: Ref, now: int): Result<Mem, Error> {
    if Blank(user, [intent, state]) then Err(Invalid)
    else if !SessionHeld(m, state, intent, user) then Err(SessionNotFound)
    else if m.sessions[state].consumedAt.Some? then Err(SessionConsumed)
    else if m.sessions[state].expiresAt <= now then Err(SessionExpired)
    else Ok(m.(sessions := m.sessions[state := m.sessions[state].(consumedAt := Some(now))]))
  }

  function MemPreview(cat: Catalog, m: Mem, user: int, intent: Ref, state: Ref, ref: Ref, now: int): Result<Mem, Error> {
    if Blank(user, [intent, state]) then Err(Invalid)
    else
      match ReadyIntent(cat, m.intents, user, intent)
      case Err(e) => Err(e)
      case Ok((app, meta)) =>
        match MemConsume(m, user, intent, state, now)
        case Err(e) => Err(e)
        case Ok(consumed) => Ok(consumed.(previews := m.previews[state := Preview(ref, user, intent, app, state, now)]))
  }

  function MemPreflight(cat: Catalog, m: Mem, user: int, intent: Ref, state: Ref, status: CallbackStatus, ref: Ref, now: int): Result<Mem, Error> {
    if Blank(user, [intent, state]) then Err(Invalid)
    else
      match ReadyIntent(cat, m.intents, user, intent)
      case Err(e) => Err(e)
      case Ok((app, meta)) =>
        if !SessionHeld(m, state, intent, user) then Err(SessionNotFound)
        else if m.sessions[state].expiresAt <= now then Err(SessionExpired)
        else if state in m.preflights then Err(PreflightConsumed)
        else
          var session := m.sessions[state];
          Ok(m.(preflights := m.preflights[state := Preflight(ref, user, intent, app, meta.provider, state, status, now)],
                sessions := m.sessions[state := if session.consumedAt.Some? then session else session.(consumedAt := Some(now))]))
  }

  ghost function MemExchange(cat: Catalog, m: Mem, user: int, intent: Ref, state: Ref, preflight: Ref, ref: Ref, now: int): Result<Mem, Error> {
    if Blank(user, [intent, state, preflight]) then Err(Invalid)
    else
      match ReadyIntent(cat, m.intents, user, intent)
      case Err(e) => Err(e)
      case Ok((app, meta)) =>
        match Scan(m.preflights, p => PreflightMatches(p, user, intent, state, preflight))
        case None => Err(PreflightNotFound)
        case Some(p) =>
          if preflight in m.exchanges then Err(ExchangeRecorded)
          else Ok(m.(exchanges := m.exchanges[preflight :=
            Exchange(ref, user, intent, app, meta.provider, p.state, p.ref,
                     if p.status == Denied then ExchangeBlocked else Queued, Simulated, now)]))
  }

  /** The part of an OAuth exchange that both entry points share. */
  function MemExchangeOAuth(m: Mem, app: string, meta: App, p: Preflight, portOk: bool, ref: Ref, now: int): Result<Mem, Error> {
    if ExchangeHeld(m, p.user, p.intent, p.ref) then Err(ExchangeRecorded)
    else if !portOk then Err(PortFailed)
    else Ok(m.(exchanges := m.exchanges[p.ref :=
      Exchange(ref, p.user, p.intent, app, meta.provider, p.state, p.ref, CredentialReady, ProviderOAuth, now)]))
  }

  ghost function MemRequestOAuth(cat: Catalog, m: Mem, user: int, intent: Ref, state: Ref, preflight: Ref, code: string,
                                 portOk: bool, ref: Ref, now: int): Result<Mem, Error> {
    if Blank(user, [intent, state, preflight, code]) then Err(Invalid)
    else
      match ReadyIntent(cat, m.intents, user, intent)
      case Err(e) => Err(e)
      case Ok((app, meta)) =>
        match Scan(m.preflights, p => PreflightMatches(p, user, intent, state, preflight))
        case None => Err(PreflightNotFound)
        case Some(p) => if p.status != Authorized then Err(ExchangeDenied) else MemExchangeOAuth(m, app, meta, p, portOk, ref, now)
  }

  ghost function MemCallback(cat: Catalog, m: Mem, state: Ref, code: string, portOk: bool, ref: Ref, now: int): Result<Mem, Error> {
    if "" in [state, code] then Err(Invalid)
    else
      match Scan(m.preflights, (p: Preflight) => p.state == state)
      case None => Err(PreflightNotFound)
      case Some(p) =>
        if p.status != Authorized then Err(ExchangeDenied)
        else
          match ReadyIntent(cat, m.intents, p.user, p.intent)
          case Err(e) => Err(e)
          case Ok((app, meta)) => MemExchangeOAuth(m, app, meta, p, portOk, ref, now)
  }

  ghost function MemComplete(cat: Catalog, m: Mem, user: int, intent: Ref, exchange: Ref, ref: Ref, now: int): Result<Mem, Error> {
    if Blank(user, [intent, exchange]) then Err(Invalid)
    else
      match FindIntent(m.intents, user, intent)
      case None => Err(IntentNotFound)
      case Some(i) =>
        if i.app !in cat then Err(AppNotFound)
        else
          match Scan(m.exchanges, e => ExchangeMatches(e, user, intent, exchange))
          case None => Err(ExchangeNotFound)
          case Some(e) =>
            if exchange in m.completions then Err(CompletionRecorded)
            else if i.status != RequiresExternalAuth then Err(IntentNotReady)
            else
              var row := Completion(ref, user, intent, i.app, cat[i.app].provider, exchange, CompletionStatus(e.status), e.mode, now);
              Ok(m.(completions := m.completions[exchange := row],
                    intents := m.intents[intent := i.(status := row.status)]))
  }

  ghost function MemActivate(cat: Catalog, m: Mem, user: int, intent: Ref, completion: Ref, ref: Ref, now: int): Result<Mem, Error> {
    if Blank(user, [intent, completion]) then Err(Invalid)
    else
      match FindIntent(m.intents, user, intent)
      case None => Err(IntentNotFound)
      case Some(i) =>
        if i.app !in cat then Err(AppNotFound)
        else
          match Scan(m.completions, c => CompletionMatches(c, user, intent, completion))
          case None => Err(CompletionNotFound)
          case Some(c) =>
            if c.status != Installed || i.status != Installed then Err(CompletionNotReady)
            else if completion in m.installations || InstallationHeld(m, user, intent) then Err(InstallationRecorded)
            else Ok(m.(installations := m.installations[completion :=
              Installation(ref, user, intent, i.app, cat[i.app].provider, completion, c.mode, now)]))
  }

  /** One call on a Store without a repository. */
  ghost function MemStep(cat: Catalog, m: Mem, call: Call): Result<Mem, Error> {
    match call
    case CreateInstallIntent(user, app, ref) =>
      if Blank(user, [app]) then Err(Invalid)
      else if app !in cat then Err(AppNotFound)
      else Ok(m.(intents := m.intents[ref := Intent(user, app, Pending)]))
    case MarkRequiresExternalAuth(user, intent) =>
      if Blank(user, [intent]) then Err(Invalid)
      else
        (match FindIntent(m.intents, user, intent)
         case None => Err(IntentNotFound)
         case Some(i) =>
           if i.status != Pending && i.status != RequiresExternalAuth then Err(IntentNotReady)
           else Ok(m.(intents := m.intents[intent := i.(status := RequiresExternalAuth)])))
    case ReadDescriptor(user, intent, state, now) =>
      if Blank(user, [intent]) then Err(Invalid)
      else
        (match ReadyIntent(cat, m.intents, user, intent)
         case Err(e) => Err(e)
         case Ok(_) => Ok(m.(sessions := m.sessions[state := Session(user, intent, now + SESSION_TTL, None)])))
    case Consume(user, intent, state, now) => MemConsume(m, user, intent, state, now)
    case PreviewAuthorization(user, intent, state, ref, now) => MemPreview(cat, m, user, intent, state, ref, now)
    case PreflightCallback(user, intent, state, status, ref, now) => MemPreflight(cat, m, user, intent, state, status, ref, now)
    case ExchangeProvider(user, intent, state, preflight, ref, now) => MemExchange(cat, m, user, intent, state, preflight, ref, now)
    case ExchangeProviderOAuth(user, intent, state, preflight, code, portOk, ref, now) =>
      MemRequestOAuth(cat, m, user, intent, state, preflight, code, portOk, ref, now)
    case HandleOAuthCallback(state, code, portOk, ref, now) => MemCallback(cat, m, state, code, portOk, ref, now)
    case CompleteInstall(user, intent, exchange, ref, now) => MemComplete(cat, m, user, intent, exchange, ref, now)
    case ActivateInstallation(user, intent, completion, ref, now) => MemActivate(cat, m, user, intent, completion, ref, now)
  }
}
