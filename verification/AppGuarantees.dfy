/** The install workflow under any interleaving of any number of processes. A process reads and
    plans at one moment (`Begin`) and commits its transaction at a later one (`Commit`); the
    database may have moved on in between. */
module AppGuarantees {
  import opened Lib
  import opened AppTables

  // ---------- the invariant of the tables ----------

  ghost predicate SessionOk(db: Db, s: Session) {
    && s.intent in db.intents && db.intents[s.intent].user == s.user
    && (s.consumedAt.Some? ==> s.consumedAt.value < s.expiresAt)
  }

  ghost predicate PreviewOk(db: Db, k: Ref, p: Preview) {
    && p.ref == k && SessionOf(db, p.state, p.intent, p.user) && db.sessions[p.state].consumedAt.Some?
    && p.intent in db.intents && p.app == db.intents[p.intent].app
  }

  ghost predicate PreflightOk(cat: Catalog, db: Db, k: Ref, p: Preflight) {
    && p.ref == k && !Blank(p.user, [p.ref, p.intent, p.state])
    && SessionOf(db, p.state, p.intent, p.user)
    && db.sessions[p.state].consumedAt.Some?
    && db.sessions[p.state].expiresAt > p.receivedAt
    && p.intent in db.intents && p.app == db.intents[p.intent].app
    && p.app in cat && p.provider == cat[p.app].provider
  }

  ghost predicate ExchangeOk(db: Db, k: Ref, e: Exchange) {
    && e.ref == k && e.preflight in db.preflights
    && var p := db.preflights[e.preflight];
      && p.user == e.user && p.intent == e.intent && p.app == e.app && p.provider == e.provider && p.state == e.state
      && ExpectedExchange(p.status, e.mode) == Some(e.status)
  }

  ghost predicate CompletionOk(db: Db, k: Ref, m: Completion) {
    && m.ref == k && m.exchange in db.exchanges && m.intent in db.intents
    && db.intents[m.intent].status == m.status
    && var e := db.exchanges[m.exchange];
      && e.user == m.user && e.intent == m.intent && e.app == m.app && e.provider == m.provider
      && m.status == CompletionStatus(e.status) && m.mode == e.mode
  }

  ghost predicate InstallationOk(db: Db, k: Ref, i: Installation) {
    && i.ref == k && i.completion in db.completions
    && var m := db.completions[i.completion];
      && m.user == i.user && m.intent == i.intent && m.app == i.app && m.provider == i.provider
      && m.status == Installed && m.mode == i.mode
  }

  ghost predicate DbOk(cat: Catalog, db: Db) {
    && (forall k :: k in db.sessions ==> SessionOk(db, db.sessions[k]))
    && (forall k :: k in db.previews ==> PreviewOk(db, k, db.previews[k]))
    && (forall k :: k in db.preflights ==> PreflightOk(cat, db, k, db.preflights[k]))
    && (forall k :: k in db.exchanges ==> ExchangeOk(db, k, db.exchanges[k]))
    && (forall k :: k in db.completions ==> CompletionOk(db, k, db.completions[k]))
    && (forall k :: k in db.installations ==> InstallationOk(db, k, db.installations[k]))
  }

  ghost predicate OnePreviewPerState(t: map<Ref, Preview>) {
    forall j, k :: j in t && k in t && t[j].state == t[k].state ==> j == k
  }

  ghost predicate OnePreflightPerState(t: map<Ref, Preflight>) {
    forall j, k :: j in t && k in t && t[j].state == t[k].state ==> j == k
  }

  ghost predicate OneExchangePerPreflight(t: map<Ref, Exchange>) {
    forall j, k :: j in t && k in t && t[j].preflight == t[k].preflight ==> j == k
  }

  ghost predicate OneCompletionPerIntent(t: map<Ref, Completion>) {
    forall j, k :: j in t && k in t && t[j].intent == t[k].intent ==> j == k
  }

  ghost predicate OneInstallationPerIntent(t: map<Ref, Installation>) {
    forall j, k :: j in t && k in t && t[j].intent == t[k].intent ==> j == k
  }

  /** One record per predecessor. */
  ghost predicate OneShot(db: Db) {
    && OnePreviewPerState(db.previews)
    && OnePreflightPerState(db.preflights)
    && OneExchangePerPreflight(db.exchanges)
    && OneCompletionPerIntent(db.completions)
    && OneInstallationPerIntent(db.installations)
  }

  /** What a planned request knows for ever: intents never change owner or app. */
  ghost predicate RequestOk(cat: Catalog, db: Db, r: Request) {
    match r
    case SaveSession(state, intent, user, expiresAt) => intent in db.intents && db.intents[intent].user == user
    case SavePreview(_, _, intent, app, _, _, _, _) => intent in db.intents && app == db.intents[intent].app
    case SavePreflight(row) =>
      row.intent in db.intents && row.app == db.intents[row.intent].app && row.app in cat && row.provider == cat[row.app].provider
    case _ => true
  }

  // ---------- what no transaction undoes ----------

  predicate StatusStep(a: IntentStatus, b: IntentStatus) {
    a == b || (a == Pending && b == RequiresExternalAuth) || (a == RequiresExternalAuth && (b == Installed || b == Blocked))
  }

  predicate StatusPath(a: IntentStatus, b: IntentStatus) {
    StatusStep(a, b) || (a == Pending && (b == Installed || b == Blocked))
  }

  ghost predicate Grows<T(!new)>(m: map<Ref, T>, m': map<Ref, T>) {
    forall k :: k in m ==> k in m' && m'[k] == m[k]
  }

  ghost predicate IntentsEvolve(t: map<Ref, Intent>, t': map<Ref, Intent>) {
    forall k :: k in t ==>
      k in t' && t'[k].user == t[k].user && t'[k].app == t[k].app && StatusPath(t[k].status, t'[k].status)
  }

  ghost predicate SessionsEvolve(t: map<Ref, Session>, t': map<Ref, Session>) {
    forall k :: k in t ==>
      && k in t'
      && t'[k].(consumedAt := None) == t[k].(consumedAt := None)
      && (t[k].consumedAt.Some? ==> t'[k] == t[k])
      && (t[k].consumedAt.None? && t'[k].consumedAt.Some? ==> t'[k].consumedAt.value < t'[k].expiresAt)
  }

  /** Rows are never deleted; apart from an intent's status and a session's first consumption
      they are never changed either. */
  ghost predicate Evolves(db: Db, db': Db) {
    && IntentsEvolve(db.intents, db'.intents)
    && SessionsEvolve(db.sessions, db'.sessions)
    && Grows(db.previews, db'.previews) && Grows(db.preflights, db'.preflights) && Grows(db.exchanges, db'.exchanges)
    && Grows(db.completions, db'.completions) && Grows(db.installations, db'.installations)
  }

  lemma TxMovesIntentsForward(cat: Catalog, db: Db, r: Request)
    requires Tx(cat, db, r).Ok?
    ensures forall k :: k in db.intents ==>
      && k in Tx(cat, db, r).value.intents
      && Tx(cat, db, r).value.intents[k].user == db.intents[k].user && Tx(cat, db, r).value.intents[k].app == db.intents[k].app
      && StatusStep(db.intents[k].status, Tx(cat, db, r).value.intents[k].status)
  {
  }

  lemma TxConsumesOnce(cat: Catalog, db: Db, r: Request)
    requires Tx(cat, db, r).Ok?
    ensures SessionsEvolve(db.sessions, Tx(cat, db, r).value.sessions)
  {
  }

  lemma TxOnlyAdds(cat: Catalog, db: Db, r: Request)
    requires Tx(cat, db, r).Ok?
    ensures var db' := Tx(cat, db, r).value;
      && Grows(db.previews, db'.previews) && Grows(db.preflights, db'.preflights) && Grows(db.exchanges, db'.exchanges)
      && Grows(db.completions, db'.completions) && Grows(db.installations, db'.installations)
  {
  }

  lemma TxEvolves(cat: Catalog, db: Db, r: Request)
    requires Tx(cat, db, r).Ok?
    ensures Evolves(db, Tx(cat, db, r).value)
  {
    TxMovesIntentsForward(cat, db, r);
    TxConsumesOnce(cat, db, r);
    TxOnlyAdds(cat, db, r);
  }

  lemma EvolvesTransitive(a: Db, b: Db, c: Db)
    requires Evolves(a, b) && Evolves(b, c)
    ensures Evolves(a, c)
  {
  }

  lemma OldRowsStayOk(cat: Catalog, db: Db, db': Db)
    requires DbOk(cat, db) && Evolves(db, db')
    ensures forall k :: k in db.sessions ==> SessionOk(db', db'.sessions[k])
    ensures forall k :: k in db.previews ==> PreviewOk(db', k, db'.previews[k])
    ensures forall k :: k in db.preflights ==> PreflightOk(cat, db', k, db'.preflights[k])
    ensures forall k :: k in db.exchanges ==> ExchangeOk(db', k, db'.exchanges[k])
    ensures forall k :: k in db.completions ==> CompletionOk(db', k, db'.completions[k])
    ensures forall k :: k in db.installations ==> InstallationOk(db', k, db'.installations[k])
  {
    forall k | k in db.previews ensures PreviewOk(db', k, db'.previews[k]) { assert PreviewOk(db, k, db.previews[k]); }
    forall k | k in db.preflights ensures PreflightOk(cat, db', k, db'.preflights[k]) { assert PreflightOk(cat, db, k, db.preflights[k]); }
    forall k | k in db.exchanges ensures ExchangeOk(db', k, db'.exchanges[k]) { assert ExchangeOk(db, k, db.exchanges[k]); }
    forall k | k in db.completions ensures CompletionOk(db', k, db'.completions[k]) { assert CompletionOk(db, k, db.completions[k]); }
    forall k | k in db.installations ensures InstallationOk(db', k, db'.installations[k]) { assert InstallationOk(db, k, db.installations[k]); }
  }

  /** A transaction adds at most one row, to the table its request names. */
  ghost predicate AddsOnly(db: Db, db': Db, r: Request) {
    && db'.sessions.Keys == db.sessions.Keys + (if r.SaveSession? then {r.state} else {})
    && db'.previews.Keys == db.previews.Keys + (if r.SavePreview? then {r.ref} else {})
    && db'.preflights.Keys == db.preflights.Keys + (if r.SavePreflight? then {r.row.ref} else {})
    && db'.exchanges.Keys == db.exchanges.Keys + (if r.SaveExchange? then {r.ref} else {})
    && db'.completions.Keys == db.completions.Keys + (if r.SaveCompletion? then {r.ref} else {})
    && db'.installations.Keys == db.installations.Keys + (if r.SaveInstallation? then {r.ref} else {})
  }

  lemma TxAddsHandoffRows(cat: Catalog, db: Db, r: Request)
    requires Tx(cat, db, r).Ok? && (r.SaveSession? || r.SavePreview?)
    ensures AddsOnly(db, Tx(cat, db, r).value, r)
  {
  }

  lemma TxAddsCallbackRows(cat: Catalog, db: Db, r: Request)
    requires Tx(cat, db, r).Ok? && (r.SavePreflight? || r.SaveExchange?)
    ensures AddsOnly(db, Tx(cat, db, r).value, r)
  {
  }

  lemma TxAddsTerminalRows(cat: Catalog, db: Db, r: Request)
    requires Tx(cat, db, r).Ok? && (r.SaveCompletion? || r.SaveInstallation?)
    ensures AddsOnly(db, Tx(cat, db, r).value, r)
  {
  }

  lemma TxAddsNothing(cat: Catalog, db: Db, r: Request)
    requires Tx(cat, db, r).Ok? && (r.SaveIntent? || r.MarkExternalAuth? || r.ConsumeSession?)
    ensures AddsOnly(db, Tx(cat, db, r).value, r)
  {
  }

  lemma NewPreviewOk(cat: Catalog, db: Db, r: Request)
    requires r.SavePreview? && RequestOk(cat, db, r) && Tx(cat, db, r).Ok?
    ensures PreviewOk(Tx(cat, db, r).value, r.ref, Tx(cat, db, r).value.previews[r.ref])
  {
  }

  lemma NewPreflightOk(cat: Catalog, db: Db, r: Request)
    requires r.SavePreflight? && RequestOk(cat, db, r) && Tx(cat, db, r).Ok?
    ensures PreflightOk(cat, Tx(cat, db, r).value, r.row.ref, Tx(cat, db, r).value.preflights[r.row.ref])
  {
  }

  lemma NewExchangeOk(cat: Catalog, db: Db, r: Request)
    requires r.SaveExchange? && Tx(cat, db, r).Ok?
    ensures ExchangeOk(Tx(cat, db, r).value, r.ref, Tx(cat, db, r).value.exchanges[r.ref])
  {
  }

  lemma NewInstallationOk(cat: Catalog, db: Db, r: Request)
    requires DbOk(cat, db) && r.SaveInstallation? && Tx(cat, db, r).Ok?
    ensures InstallationOk(Tx(cat, db, r).value, r.ref, Tx(cat, db, r).value.installations[r.ref])
  {
    assert CompletionOk(db, r.completion, db.completions[r.completion]);
    assert ExchangeOk(db, db.completions[r.completion].exchange, db.exchanges[db.completions[r.completion].exchange]);
    var e := db.exchanges[db.completions[r.completion].exchange];
    assert PreflightOk(cat, db, e.preflight, db.preflights[e.preflight]);
  }

  lemma RowsKeepDb(cat: Catalog, db: Db, db': Db, r: Request)
    requires DbOk(cat, db) && Evolves(db, db') && AddsOnly(db, db', r)
    requires r.SaveSession? ==> SessionOk(db', db'.sessions[r.state])
    requires r.SavePreview? ==> PreviewOk(db', r.ref, db'.previews[r.ref])
    requires r.SavePreflight? ==> PreflightOk(cat, db', r.row.ref, db'.preflights[r.row.ref])
    requires r.SaveExchange? ==> ExchangeOk(db', r.ref, db'.exchanges[r.ref])
    requires r.SaveCompletion? ==> CompletionOk(db', r.ref, db'.completions[r.ref])
    requires r.SaveInstallation? ==> InstallationOk(db', r.ref, db'.installations[r.ref])
    ensures DbOk(cat, db')
  {
    OldRowsStayOk(cat, db, db');
  }

  lemma TxKeepsDb(cat: Catalog, db: Db, r: Request)
    requires DbOk(cat, db) && RequestOk(cat, db, r) && Tx(cat, db, r).Ok?
    ensures DbOk(cat, Tx(cat, db, r).value)
  {
    TxEvolves(cat, db, r);
    if r.SaveSession? || r.SavePreview? {
      TxAddsHandoffRows(cat, db, r);
    } else if r.SavePreflight? || r.SaveExchange? {
      TxAddsCallbackRows(cat, db, r);
    } else if r.SaveCompletion? || r.SaveInstallation? {
      TxAddsTerminalRows(cat, db, r);
    } else {
      TxAddsNothing(cat, db, r);
    }
    match r {
      case SavePreview(_, _, _, _, _, _, _, _) => NewPreviewOk(cat, db, r);
      case SavePreflight(_) => NewPreflightOk(cat, db, r);
      case SaveExchange(_, _, _, _, _, _, _, _, _, _) => NewExchangeOk(cat, db, r);
      case SaveCompletion(_, _, _, _, _, _, _, _, _) => NewCompletionOk(cat, db, r);
      case SaveInstallation(_, _, _, _, _, _, _, _) => NewInstallationOk(cat, db, r);
      case _ =>
    }
    RowsKeepDb(cat, db, Tx(cat, db, r).value, r);
  }

  /** The completed intent belongs to the exchange's user, so its status is really updated. */
  lemma NewCompletionOk(cat: Catalog, db: Db, r: Request)
    requires DbOk(cat, db) && r.SaveCompletion? && Tx(cat, db, r).Ok?
    ensures CompletionOk(Tx(cat, db, r).value, r.ref, Tx(cat, db, r).value.completions[r.ref])
  {
    var e := db.exchanges[r.exchange];
    assert ExchangeOk(db, r.exchange, e);
    assert PreflightOk(cat, db, e.preflight, db.preflights[e.preflight]);
    assert SessionOk(db, db.sessions[e.state]);
  }

  lemma TxLeavesOtherTables(cat: Catalog, db: Db, r: Request)
    requires Tx(cat, db, r).Ok?
    ensures var db' := Tx(cat, db, r).value;
      && (!r.SavePreview? ==> db'.previews == db.previews)
      && (!r.SavePreflight? ==> db'.preflights == db.preflights)
      && (!r.SaveExchange? ==> db'.exchanges == db.exchanges)
      && (!r.SaveCompletion? ==> db'.completions == db.completions)
      && (!r.SaveInstallation? ==> db'.installations == db.installations)
  {
  }

  lemma FirstPreview(db: Db, r: Request)
    requires OnePreviewPerState(db.previews) && r.SavePreview?
    requires TxSavePreview(db, r.ref, r.user, r.intent, r.app, r.provider, r.authType, r.state, r.now).Ok?
    ensures OnePreviewPerState(TxSavePreview(db, r.ref, r.user, r.intent, r.app, r.provider, r.authType, r.state, r.now).value.previews)
  {
  }

  lemma FirstPreflight(db: Db, row: Preflight)
    requires OnePreflightPerState(db.preflights) && TxSavePreflight(db, row).Ok?
    ensures OnePreflightPerState(TxSavePreflight(db, row).value.preflights)
  {
  }

  lemma FirstExchange(db: Db, r: Request)
    requires OneExchangePerPreflight(db.exchanges) && r.SaveExchange? && TxSaveExchange(db, r).Ok?
    ensures OneExchangePerPreflight(TxSaveExchange(db, r).value.exchanges)
  {
  }

  lemma FirstCompletion(db: Db, r: Request)
    requires OneCompletionPerIntent(db.completions) && r.SaveCompletion? && TxSaveCompletion(db, r).Ok?
    ensures OneCompletionPerIntent(TxSaveCompletion(db, r).value.completions)
  {
  }

  lemma FirstInstallation(cat: Catalog, db: Db, r: Request)
    requires OneInstallationPerIntent(db.installations) && r.SaveInstallation? && TxSaveInstallation(cat, db, r).Ok?
    ensures OneInstallationPerIntent(TxSaveInstallation(cat, db, r).value.installations)
  {
  }

  lemma TxKeepsOneShot(cat: Catalog, db: Db, r: Request)
    requires OneShot(db) && Tx(cat, db, r).Ok?
    ensures OneShot(Tx(cat, db, r).value)
  {
    TxLeavesOtherTables(cat, db, r);
    match r
    case SavePreview(_, _, _, _, _, _, _, _) => FirstPreview(db, r);
    case SavePreflight(row) => FirstPreflight(db, row);
    case SaveExchange(_, _, _, _, _, _, _, _, _, _) => FirstExchange(db, r);
    case SaveCompletion(_, _, _, _, _, _, _, _, _) => FirstCompletion(db, r);
    case SaveInstallation(_, _, _, _, _, _, _, _) => FirstInstallation(cat, db, r);
    case _ =>
  }

  // ---------- processes ----------

  /** Requests planned by processes and not yet committed. */
  datatype World = World(db: Db, pending: map<nat, Request>)

  datatype Label = Begin(process: nat, call: Call) | Commit(process: nat) | Abort(process: nat)

  const START := World(EMPTY_DB, map[])

  ghost function Step(cat: Catalog, s: World, l: Label): Option<World> {
    match l
    case Begin(p, call) =>
      if p in s.pending then None
      else
        (match Plan(cat, s.db, call)
         case Err(_) => Some(s)
         case Ok(r) => Some(s.(pending := s.pending[p := r])))
    case Commit(p) =>
      if p !in s.pending then None
      else
        (match Tx(cat, s.db, s.pending[p])
         case Err(_) => Some(s.(pending := s.pending - {p}))
         case Ok(db) => Some(World(db, s.pending - {p})))
    case Abort(p) => Some(s.(pending := s.pending - {p}))
  }

  ghost function Exec(cat: Catalog, trace: seq<Label>): Option<World> {
    if trace == [] then Some(START)
    else
      match Exec(cat, trace[..|trace| - 1])
      case None => None
      case Some(s) => Step(cat, s, trace[|trace| - 1])
  }

  ghost predicate Inv(cat: Catalog, s: World) {
    DbOk(cat, s.db) && OneShot(s.db) && forall p :: p in s.pending ==> RequestOk(cat, s.db, s.pending[p])
  }

  lemma PlannedRequestsOk(cat: Catalog, db: Db, call: Call)
    requires Plan(cat, db, call).Ok?
    ensures RequestOk(cat, db, Plan(cat, db, call).value)
  {
  }

  /** However late a request commits, what it knows about its intent is still true. */
  lemma RequestsStayOk(cat: Catalog, db: Db, db': Db, r: Request)
    requires RequestOk(cat, db, r) && Evolves(db, db')
    ensures RequestOk(cat, db', r)
  {
  }

  lemma StepKeeps(cat: Catalog, s: World, l: Label)
    requires Inv(cat, s) && Step(cat, s, l).Some?
    ensures Inv(cat, Step(cat, s, l).value)
    ensures Evolves(s.db, Step(cat, s, l).value.db)
  {
    if l.Begin? {
      if Plan(cat, s.db, l.call).Ok? { PlannedRequestsOk(cat, s.db, l.call); }
    } else if l.Commit? && Tx(cat, s.db, s.pending[l.process]).Ok? {
      var r := s.pending[l.process];
      var db' := Tx(cat, s.db, r).value;
      TxEvolves(cat, s.db, r);
      TxKeepsDb(cat, s.db, r);
      TxKeepsOneShot(cat, s.db, r);
      forall p | p in s.pending ensures RequestOk(cat, db', s.pending[p]) { RequestsStayOk(cat, s.db, db', s.pending[p]); }
    }
  }

  lemma {:induction false} InvHolds(cat: Catalog, trace: seq<Label>)
    requires Exec(cat, trace).Some?
    ensures Inv(cat, Exec(cat, trace).value)
  {
    if trace != [] {
      InvHolds(cat, trace[..|trace| - 1]);
      StepKeeps(cat, Exec(cat, trace[..|trace| - 1]).value, trace[|trace| - 1]);
    }
  }

  /** Along every run rows only accumulate, an intent's status only moves forward, and the
      moment a session was consumed, once set, is never set again. */
  lemma {:induction false} RunsEvolve(cat: Catalog, trace: seq<Label>, more: seq<Label>)
    requires Exec(cat, trace + more).Some?
    ensures Exec(cat, trace).Some? && Evolves(Exec(cat, trace).value.db, Exec(cat, trace + more).value.db)
    decreases |more|
  {
    if more == [] {
      assert trace + more == trace;
    } else {
      var init := more[..|more| - 1];
      assert (trace + more)[..|trace + more| - 1] == trace + init;
      RunsEvolve(cat, trace, init);
      InvHolds(cat, trace + init);
      StepKeeps(cat, Exec(cat, trace + init).value, more[|more| - 1]);
      EvolvesTransitive(Exec(cat, trace).value.db, Exec(cat, trace + init).value.db, Exec(cat, trace + more).value.db);
    }
  }

  /** Under any interleaving there is at most one preview and one preflight per handoff state,
      one exchange per preflight, one completion and one installation per intent. */
  lemma RecordsAreOneShot(cat: Catalog, trace: seq<Label>)
    requires Exec(cat, trace).Some?
    ensures OneShot(Exec(cat, trace).value.db)
  {
    InvHolds(cat, trace);
  }

  /** The whole chain behind an installation. */
  ghost predicate Provenance(db: Db, i: Installation) {
    && i.intent in db.intents && db.intents[i.intent].user == i.user && db.intents[i.intent].app == i.app
    && db.intents[i.intent].status == Installed
    && i.completion in db.completions
    && var m := db.completions[i.completion];
    && m.user == i.user && m.intent == i.intent && m.status == Installed && m.mode == i.mode
    && m.exchange in db.exchanges
    && var e := db.exchanges[m.exchange];
    && e.user == i.user && e.intent == i.intent && e.mode == i.mode
    && e.status == (if i.mode == ProviderOAuth then CredentialReady else Queued)
    && e.preflight in db.preflights
    && var p := db.preflights[e.preflight];
    && p.user == i.user && p.intent == i.intent && p.status == Authorized
    && p.state in db.sessions
    && var s := db.sessions[p.state];
    && s.user == i.user && s.intent == i.intent
    && s.consumedAt.Some? && s.consumedAt.value < s.expiresAt && p.receivedAt < s.expiresAt
  }

  lemma ProvenanceHolds(cat: Catalog, db: Db, k: Ref)
    requires DbOk(cat, db) && k in db.installations
    ensures Provenance(db, db.installations[k])
  {
    var i := db.installations[k];
    assert InstallationOk(db, k, i);
    var m := db.completions[i.completion];
    assert CompletionOk(db, i.completion, m);
    var e := db.exchanges[m.exchange];
    assert ExchangeOk(db, m.exchange, e);
    var p := db.preflights[e.preflight];
    assert PreflightOk(cat, db, e.preflight, p);
    assert SessionOk(db, db.sessions[p.state]);
  }

  /** In every reachable state each installation goes back, for the same user and intent, to an
      installed completion, a provider exchange that was not blocked, an authorized callback
      preflight, and a session consumed before its expiry and still open at the callback; and
      the chain is still there at every later moment. */
  lemma InstallationsHaveProvenance(cat: Catalog, trace: seq<Label>, more: seq<Label>, k: Ref)
    requires Exec(cat, trace + more).Some? && Exec(cat, trace).Some? && k in Exec(cat, trace).value.db.installations
    ensures k in Exec(cat, trace + more).value.db.installations
    ensures Exec(cat, trace + more).value.db.installations[k] == Exec(cat, trace).value.db.installations[k]
    ensures Provenance(Exec(cat, trace + more).value.db, Exec(cat, trace).value.db.installations[k])
  {
    RunsEvolve(cat, trace, more);
    InvHolds(cat, trace + more);
    ProvenanceHolds(cat, Exec(cat, trace + more).value.db, k);
  }
}
