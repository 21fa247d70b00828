/** Where the records of an install come from: every row holds what the call that wrote it said, so
    an installation goes back to the user's own calls and to an authorized callback. */
module AppOrigins {
  import opened Lib
  import opened AppTables
  import opened AppMemory
  import opened AppGuarantees
  import opened AppRefinement

  // ---------- rows and calls, field by field ----------

  ghost predicate IntentCalled(ref: Ref, i: Intent, calls: set<Call>) { CreateInstallIntent(i.user, i.app, ref) in calls }

  /** A session was asked for ten minutes before it expires. */
  ghost predicate SessionCalled(state: Ref, s: Session, calls: set<Call>) { ReadDescriptor(s.user, s.intent, state, s.expiresAt - 600_000) in calls }

  /** Whatever consumed a session did so at the time it says. */
  ghost predicate ConsumptionCalled(state: Ref, s: Session, calls: set<Call>) {
    s.consumedAt.Some? ==>
      || Consume(s.user, s.intent, state, s.consumedAt.value) in calls
      || (exists ref :: PreviewAuthorization(s.user, s.intent, state, ref, s.consumedAt.value) in calls)
      || exists status, ref :: PreflightCallback(s.user, s.intent, state, status, ref, s.consumedAt.value) in calls
  }

  ghost predicate PreviewCalled(p: Preview, calls: set<Call>) { PreviewAuthorization(p.user, p.intent, p.state, p.ref, p.requestedAt) in calls }

  ghost predicate PreflightCalled(p: Preflight, calls: set<Call>) {
    PreflightCallback(p.user, p.intent, p.state, p.status, p.ref, p.receivedAt) in calls
  }

  /** A simulated exchange was asked for; an OAuth exchange was asked for or came back to the
      callback, with a code, and the provider answered. */
  ghost predicate ExchangeCalled(e: Exchange, calls: set<Call>) {
    match e.mode
    case Simulated => ExchangeProvider(e.user, e.intent, e.state, e.preflight, e.ref, e.recordedAt) in calls
    case ProviderOAuth =>
      exists code :: (code != "" && ExchangeProviderOAuth(e.user, e.intent, e.state, e.preflight, code, true, e.ref, e.recordedAt) in calls)
        || (code != "" && HandleOAuthCallback(e.state, code, true, e.ref, e.recordedAt) in calls)
  }

  ghost predicate CompletionCalled(m: Completion, calls: set<Call>) { CompleteInstall(m.user, m.intent, m.exchange, m.ref, m.completedAt) in calls }

  ghost predicate InstallationCalled(i: Installation, calls: set<Call>) {
    ActivateInstallation(i.user, i.intent, i.completion, i.ref, i.activatedAt) in calls
  }

  ghost predicate HandoffCalled(db: Db, calls: set<Call>) {
    && (forall k :: k in db.intents ==> IntentCalled(k, db.intents[k], calls))
    && (forall k :: k in db.sessions ==> SessionCalled(k, db.sessions[k], calls) && ConsumptionCalled(k, db.sessions[k], calls))
    && (forall k :: k in db.previews ==> PreviewCalled(db.previews[k], calls))
  }

  ghost predicate RestCalled(db: Db, calls: set<Call>) {
    && (forall k :: k in db.preflights ==> PreflightCalled(db.preflights[k], calls))
    && (forall k :: k in db.exchanges ==> ExchangeCalled(db.exchanges[k], calls))
    && (forall k :: k in db.completions ==> CompletionCalled(db.completions[k], calls))
    && (forall k :: k in db.installations ==> InstallationCalled(db.installations[k], calls))
  }

  /** Every row was written by one of these calls. */
  ghost predicate Called(db: Db, calls: set<Call>) { HandoffCalled(db, calls) && RestCalled(db, calls) }

  /** A planned request says what one of these calls said. */
  ghost predicate RequestCalled(r: Request, calls: set<Call>) {
    match r
    case SaveIntent(ref, user, app) => CreateInstallIntent(user, app, ref) in calls
    case MarkExternalAuth(user, intent) => true
    case SaveSession(state, intent, user, expiresAt) => ReadDescriptor(user, intent, state, expiresAt - 600_000) in calls
    case ConsumeSession(user, intent, state, now) => Consume(user, intent, state, now) in calls
    case SavePreview(ref, user, intent, _, _, _, state, now) => PreviewAuthorization(user, intent, state, ref, now) in calls
    case SavePreflight(row) => PreflightCalled(row, calls)
    case SaveExchange(ref, user, intent, app, provider, state, preflight, _, mode, now) =>
      ExchangeCalled(Exchange(ref, user, intent, app, provider, state, preflight, Queued, mode, now), calls)
    case SaveCompletion(ref, user, intent, _, _, exchange, _, _, now) => CompleteInstall(user, intent, exchange, ref, now) in calls
    case SaveInstallation(ref, user, intent, _, _, completion, _, now) => ActivateInstallation(user, intent, completion, ref, now) in calls
  }

  lemma PlansAreCalled(cat: Catalog, db: Db, call: Call)
    requires DbOk(cat, db) && Plan(cat, db, call).Ok?
    ensures RequestCalled(Plan(cat, db, call).value, {call})
  {
    match call
    case ExchangeProviderOAuth(user, intent, state, preflight, code, portOk, ref, now) =>
      assert PreflightOk(cat, db, preflight, db.preflights[preflight]);
      assert code != "" && ExchangeProviderOAuth(user, intent, state, preflight, code, true, ref, now) in {call};
    case HandleOAuthCallback(state, code, portOk, ref, now) =>
      assert code != "" && HandleOAuthCallback(state, code, true, ref, now) in {call};
    case _ =>
  }

  lemma MoreCalls(r: Request, calls: set<Call>, more: set<Call>)
    requires RequestCalled(r, calls) && calls <= more
    ensures RequestCalled(r, more)
  {
    if r.SaveExchange? && r.mode == ProviderOAuth {
      var code :| (code != "" && ExchangeProviderOAuth(r.user, r.intent, r.state, r.preflight, code, true, r.ref, r.now) in calls)
        || (code != "" && HandleOAuthCallback(r.state, code, true, r.ref, r.now) in calls);
    }
  }

  lemma MoreCallsKeepRows(db: Db, calls: set<Call>, more: set<Call>)
    requires Called(db, calls) && calls <= more
    ensures Called(db, more)
  {
    forall k | k in db.sessions ensures SessionCalled(k, db.sessions[k], more) && ConsumptionCalled(k, db.sessions[k], more) {
      assert SessionCalled(k, db.sessions[k], calls) && ConsumptionCalled(k, db.sessions[k], calls);
    }
    forall k | k in db.exchanges ensures ExchangeCalled(db.exchanges[k], more) { assert ExchangeCalled(db.exchanges[k], calls); }
  }

  lemma TxKeepsHandoffCalled(cat: Catalog, db: Db, r: Request, calls: set<Call>)
    requires HandoffCalled(db, calls) && RequestCalled(r, calls) && Tx(cat, db, r).Ok?
    ensures HandoffCalled(Tx(cat, db, r).value, calls)
  {
    var db' := Tx(cat, db, r).value;
    forall k | k in db'.sessions ensures SessionCalled(k, db'.sessions[k], calls) && ConsumptionCalled(k, db'.sessions[k], calls) {
      if k in db.sessions { assert SessionCalled(k, db.sessions[k], calls) && ConsumptionCalled(k, db.sessions[k], calls); }
    }
    forall k | k in db'.intents ensures IntentCalled(k, db'.intents[k], calls) {
      if k in db.intents { assert IntentCalled(k, db.intents[k], calls); }
    }
  }

  lemma TxKeepsRestCalled(cat: Catalog, db: Db, r: Request, calls: set<Call>)
    requires RestCalled(db, calls) && RequestCalled(r, calls) && Tx(cat, db, r).Ok?
    ensures RestCalled(Tx(cat, db, r).value, calls)
  {
    var db' := Tx(cat, db, r).value;
    TxLeavesOtherTables(cat, db, r);
    forall k | k in db'.exchanges ensures ExchangeCalled(db'.exchanges[k], calls) {
      if k in db.exchanges && db'.exchanges[k] == db.exchanges[k] { assert ExchangeCalled(db.exchanges[k], calls); }
    }
  }

  // ---------- every interleaving ----------

  function CallsOf(trace: seq<Label>): set<Call> {
    if trace == [] then {}
    else CallsOf(trace[..|trace| - 1]) + if trace[|trace| - 1].Begin? then {trace[|trace| - 1].call} else {}
  }

  /** Under any interleaving every stored row, and every request still to be committed, says what a
      call begun before it said: user, intent, state, callback status, references and time. */
  lemma {:induction false} RowsComeFromCalls(cat: Catalog, trace: seq<Label>)
    requires Exec(cat, trace).Some?
    ensures Called(Exec(cat, trace).value.db, CallsOf(trace))
    ensures forall p :: p in Exec(cat, trace).value.pending ==> RequestCalled(Exec(cat, trace).value.pending[p], CallsOf(trace))
  {
    if trace != [] {
      var init, l := trace[..|trace| - 1], trace[|trace| - 1];
      RowsComeFromCalls(cat, init);
      InvHolds(cat, init);
      OneStepCalled(cat, Exec(cat, init).value, l, CallsOf(init), CallsOf(trace));
    }
  }

  lemma OneStepCalled(cat: Catalog, s: World, l: Label, before: set<Call>, after: set<Call>)
    requires DbOk(cat, s.db) && Called(s.db, before) && (forall p :: p in s.pending ==> RequestCalled(s.pending[p], before))
    requires Step(cat, s, l).Some? && after == before + if l.Begin? then {l.call} else {}
    ensures Called(Step(cat, s, l).value.db, after)
    ensures forall p :: p in Step(cat, s, l).value.pending ==> RequestCalled(Step(cat, s, l).value.pending[p], after)
  {
    MoreCallsKeepRows(s.db, before, after);
    forall p | p in s.pending ensures RequestCalled(s.pending[p], after) { MoreCalls(s.pending[p], before, after); }
    if l.Begin? && Plan(cat, s.db, l.call).Ok? {
      PlansAreCalled(cat, s.db, l.call);
      MoreCalls(Plan(cat, s.db, l.call).value, {l.call}, after);
    }
    if l.Commit? && Tx(cat, s.db, s.pending[l.process]).Ok? {
      TxKeepsHandoffCalled(cat, s.db, s.pending[l.process], after);
      TxKeepsRestCalled(cat, s.db, s.pending[l.process], after);
    }
  }

  // ---------- what an installation goes back to ----------

  /** The calls behind an installation, one per step of the workflow. */
  ghost predicate CalledProvenance(db: Db, calls: set<Call>, i: Installation) {
    && Provenance(db, i)
    && CreateInstallIntent(i.user, i.app, i.intent) in calls
    && ActivateInstallation(i.user, i.intent, i.completion, i.ref, i.activatedAt) in calls
    && var m := db.completions[i.completion];
    && CompleteInstall(i.user, i.intent, m.exchange, i.completion, m.completedAt) in calls
    && var e := db.exchanges[m.exchange];
    && ExchangeCalled(e, calls)
    && var p := db.preflights[e.preflight];
    && PreflightCallback(i.user, i.intent, e.state, Authorized, e.preflight, p.receivedAt) in calls
    && e.state in db.sessions
    && var asked := db.sessions[e.state].expiresAt - 600_000;
    && ReadDescriptor(i.user, i.intent, e.state, asked) in calls && p.receivedAt < asked + 600_000
  }

  lemma CalledProvenanceHolds(cat: Catalog, db: Db, calls: set<Call>, k: Ref)
    requires DbOk(cat, db) && Called(db, calls) && k in db.installations
    ensures CalledProvenance(db, calls, db.installations[k])
  {
    var i := db.installations[k];
    ProvenanceHolds(cat, db, k);
    assert InstallationOk(db, k, i) && InstallationCalled(i, calls);
    var m := db.completions[i.completion];
    assert CompletionOk(db, i.completion, m) && CompletionCalled(m, calls);
    var e := db.exchanges[m.exchange];
    assert ExchangeOk(db, m.exchange, e) && ExchangeCalled(e, calls);
    var p := db.preflights[e.preflight];
    assert PreflightOk(cat, db, e.preflight, p) && PreflightCalled(p, calls);
    assert SessionCalled(p.state, db.sessions[p.state], calls) && IntentCalled(i.intent, db.intents[i.intent], calls);
  }

  /** In every reachable state an installation goes back, for its user and intent, to the calls that
      created the intent, opened the session, brought an authorized callback before its expiry,
      exchanged, completed and activated. */
  lemma InstallationsComeFromCalls(cat: Catalog, trace: seq<Label>, k: Ref)
    requires Exec(cat, trace).Some? && k in Exec(cat, trace).value.db.installations
    ensures CalledProvenance(Exec(cat, trace).value.db, CallsOf(trace), Exec(cat, trace).value.db.installations[k])
  {
    InvHolds(cat, trace);
    RowsComeFromCalls(cat, trace);
    CalledProvenanceHolds(cat, Exec(cat, trace).value.db, CallsOf(trace), k);
  }

  /** The handoff state an installation went through. */
  function StateBehind(db: Db, i: Installation): Option<Ref> {
    if i.completion in db.completions && db.completions[i.completion].exchange in db.exchanges
    then Some(db.exchanges[db.completions[i.completion].exchange].state) else None
  }

  /** A state whose recorded callback was denied never leads to an installation, however the run
      goes on. */
  lemma DeniedStatesNeverInstall(cat: Catalog, trace: seq<Label>, more: seq<Label>, denied: Ref, k: Ref)
    requires Exec(cat, trace + more).Some? && Exec(cat, trace).Some?
    requires denied in Exec(cat, trace).value.db.preflights && Exec(cat, trace).value.db.preflights[denied].status == Denied
    requires k in Exec(cat, trace + more).value.db.installations
    ensures var db := Exec(cat, trace + more).value.db;
      StateBehind(db, db.installations[k]).Some? && StateBehind(db, db.installations[k]) != Some(Exec(cat, trace).value.db.preflights[denied].state)
  {
    RunsEvolve(cat, trace, more);
    InvHolds(cat, trace + more);
    RowsComeFromCalls(cat, trace + more);
    var db := Exec(cat, trace + more).value.db;
    CalledProvenanceHolds(cat, db, CallsOf(trace + more), k);
    var e := db.exchanges[db.completions[db.installations[k].completion].exchange];
    assert ExchangeOk(db, db.completions[db.installations[k].completion].exchange, e);
  }

  /** And an intent none of whose callbacks was authorized is never installed. */
  lemma NoInstallWithoutAuthorization(cat: Catalog, trace: seq<Label>, user: int, intent: Ref, k: Ref)
    requires Exec(cat, trace).Some? && k in Exec(cat, trace).value.db.installations
    requires forall state, ref, now :: PreflightCallback(user, intent, state, Authorized, ref, now) !in CallsOf(trace)
    ensures var i := Exec(cat, trace).value.db.installations[k]; i.user != user || i.intent != intent
  {
    InstallationsComeFromCalls(cat, trace, k);
  }

  /** What the outcome of each step is: a denied callback blocks the exchange, a blocked exchange
      blocks the completion, and the intent and nothing else takes the completion's status. */
  ghost predicate Outcomes(db: Db) {
    && (forall k :: k in db.exchanges ==>
          var e := db.exchanges[k];
          && e.preflight in db.preflights
          && (e.status == ExchangeBlocked <==> db.preflights[e.preflight].status == Denied)
          && (e.status == CredentialReady <==> e.mode == ProviderOAuth))
    && (forall k :: k in db.completions ==>
          var m := db.completions[k];
          && m.exchange in db.exchanges && m.intent in db.intents
          && (m.status == Blocked <==> db.exchanges[m.exchange].status == ExchangeBlocked)
          && (m.status == Installed <==> db.exchanges[m.exchange].status != ExchangeBlocked)
          && db.intents[m.intent].status == m.status)
  }

  lemma OutcomesHold(cat: Catalog, trace: seq<Label>)
    requires Exec(cat, trace).Some?
    ensures Outcomes(Exec(cat, trace).value.db)
  {
    InvHolds(cat, trace);
    DbOutcomes(cat, Exec(cat, trace).value.db);
  }

  lemma DbOutcomes(cat: Catalog, db: Db)
    requires DbOk(cat, db)
    ensures Outcomes(db)
  {
    forall k | k in db.exchanges ensures var e := db.exchanges[k];
      && e.preflight in db.preflights
      && (e.status == ExchangeBlocked <==> db.preflights[e.preflight].status == Denied)
      && (e.status == CredentialReady <==> e.mode == ProviderOAuth) { assert ExchangeOk(db, k, db.exchanges[k]); }
    forall k | k in db.completions ensures CompletionOk(db, k, db.completions[k]) {}
  }

  // ---------- what an accepted call writes ----------

  /** The rows of one table but for one key. */
  ghost predicate OnlyAt<T(!new)>(t: map<Ref, T>, t': map<Ref, T>, key: Ref) {
    forall k :: k != key ==> (k in t <==> k in t') && (k in t ==> t'[k] == t[k])
  }

  /** The row an accepted call leaves says what the call said. */
  ghost predicate Written(db': Db, call: Call) {
    match call
    case CreateInstallIntent(user, app, ref) => ref in db'.intents && db'.intents[ref] == Intent(user, app, Pending)
    case MarkRequiresExternalAuth(user, intent) => intent in db'.intents && db'.intents[intent].status == RequiresExternalAuth
    case ReadDescriptor(user, intent, state, now) => state in db'.sessions && db'.sessions[state] == Session(user, intent, now + 600_000, None)
    case Consume(user, intent, state, now) => state in db'.sessions && db'.sessions[state].consumedAt == Some(now)
    case PreviewAuthorization(user, intent, state, ref, now) =>
      && ref in db'.previews && PreviewCalled(db'.previews[ref], {call})
      && state in db'.sessions && db'.sessions[state].consumedAt == Some(now)
    case PreflightCallback(user, intent, state, status, ref, now) =>
      && ref in db'.preflights && PreflightCalled(db'.preflights[ref], {call})
      && state in db'.sessions && db'.sessions[state].consumedAt.Some?
    case CompleteInstall(user, intent, exchange, ref, now) =>
      && ref in db'.completions && CompletionCalled(db'.completions[ref], {call})
      && intent in db'.intents && db'.intents[intent].status == db'.completions[ref].status
    case ActivateInstallation(user, intent, completion, ref, now) => ref in db'.installations && InstallationCalled(db'.installations[ref], {call})
    case _ => call.ref in db'.exchanges && ExchangeCalled(db'.exchanges[call.ref], {call})
  }

  /** And nothing else changes. */
  ghost predicate OnlyWritten(db: Db, db': Db, call: Call) {
    && (if call.CreateInstallIntent? then OnlyAt(db.intents, db'.intents, call.ref)
        else if call.MarkRequiresExternalAuth? || call.CompleteInstall? then OnlyAt(db.intents, db'.intents, call.intent) else db'.intents == db.intents)
    && (if call.ReadDescriptor? || call.Consume? || call.PreviewAuthorization? || call.PreflightCallback?
        then OnlyAt(db.sessions, db'.sessions, call.state) else db'.sessions == db.sessions)
    && (if call.PreviewAuthorization? then OnlyAt(db.previews, db'.previews, call.ref) else db'.previews == db.previews)
    && (if call.PreflightCallback? then OnlyAt(db.preflights, db'.preflights, call.ref) else db'.preflights == db.preflights)
    && (if call.ExchangeProvider? || call.ExchangeProviderOAuth? || call.HandleOAuthCallback?
        then OnlyAt(db.exchanges, db'.exchanges, call.ref) else db'.exchanges == db.exchanges)
    && (if call.CompleteInstall? then OnlyAt(db.completions, db'.completions, call.ref) else db'.completions == db.completions)
    && (if call.ActivateInstallation? then OnlyAt(db.installations, db'.installations, call.ref) else db'.installations == db.installations)
  }

  lemma IntentWrites(cat: Catalog, db: Db, call: Call)
    requires SqlStep(cat, db, call).Ok? && (call.CreateInstallIntent? || call.MarkRequiresExternalAuth?)
    ensures Written(SqlStep(cat, db, call).value, call) && OnlyWritten(db, SqlStep(cat, db, call).value, call)
  {
  }

  lemma SessionWrites(cat: Catalog, db: Db, call: Call)
    requires SqlStep(cat, db, call).Ok? && (call.ReadDescriptor? || call.Consume?)
    ensures Written(SqlStep(cat, db, call).value, call) && OnlyWritten(db, SqlStep(cat, db, call).value, call)
  {
  }

  lemma PreviewWrites(cat: Catalog, db: Db, call: Call)
    requires SqlStep(cat, db, call).Ok? && (call.PreviewAuthorization?)
    ensures Written(SqlStep(cat, db, call).value, call) && OnlyWritten(db, SqlStep(cat, db, call).value, call)
  {
  }

  lemma PreflightWrites(cat: Catalog, db: Db, call: Call)
    requires SqlStep(cat, db, call).Ok? && (call.PreflightCallback?)
    ensures Written(SqlStep(cat, db, call).value, call) && OnlyWritten(db, SqlStep(cat, db, call).value, call)
  {
  }

  /** A request for an exchange writes that exchange and nothing else. */
  lemma ExchangeTxWrites(cat: Catalog, db: Db, r: Request)
    requires r.SaveExchange? && Tx(cat, db, r).Ok?
    ensures var db' := Tx(cat, db, r).value;
      && db' == db.(exchanges := db'.exchanges) && OnlyAt(db.exchanges, db'.exchanges, r.ref)
      && r.ref in db'.exchanges
      && db'.exchanges[r.ref] == Exchange(r.ref, r.user, r.intent, r.app, r.provider, r.state, r.preflight, db'.exchanges[r.ref].status, r.mode, r.now)
  {
  }

  lemma PlansAnExchange(cat: Catalog, db: Db, call: Call)
    requires Plan(cat, db, call).Ok? && (call.ExchangeProvider? || call.ExchangeProviderOAuth? || call.HandleOAuthCallback?)
    ensures Plan(cat, db, call).value.SaveExchange? && Plan(cat, db, call).value.ref == call.ref
  {
  }

  lemma ExchangeWrites(cat: Catalog, db: Db, call: Call)
    requires DbOk(cat, db) && SqlStep(cat, db, call).Ok? && (call.ExchangeProvider? || call.ExchangeProviderOAuth? || call.HandleOAuthCallback?)
    ensures Written(SqlStep(cat, db, call).value, call) && OnlyWritten(db, SqlStep(cat, db, call).value, call)
  {
    PlansAreCalled(cat, db, call);
    PlansAnExchange(cat, db, call);
    ExchangeRequestWrites(cat, db, call, Plan(cat, db, call).value);
  }

  lemma ExchangeRequestWrites(cat: Catalog, db: Db, call: Call, r: Request)
    requires (call.ExchangeProvider? || call.ExchangeProviderOAuth? || call.HandleOAuthCallback?)
    requires r.SaveExchange? && r.ref == call.ref && Tx(cat, db, r).Ok? && RequestCalled(r, {call})
    ensures Written(Tx(cat, db, r).value, call) && OnlyWritten(db, Tx(cat, db, r).value, call)
  {
    ExchangeTxWrites(cat, db, r);
    var e := Tx(cat, db, r).value.exchanges[r.ref];
    var asked := Exchange(r.ref, r.user, r.intent, r.app, r.provider, r.state, r.preflight, Queued, r.mode, r.now);
    assert ExchangeCalled(asked, {call});
    assert e.(status := Queued) == asked;
  }

  lemma CompleteWrites(cat: Catalog, db: Db, call: Call)
    requires SqlStep(cat, db, call).Ok? && (call.CompleteInstall?)
    ensures Written(SqlStep(cat, db, call).value, call) && OnlyWritten(db, SqlStep(cat, db, call).value, call)
  {
  }

  lemma ActivateWrites(cat: Catalog, db: Db, call: Call)
    requires SqlStep(cat, db, call).Ok? && (call.ActivateInstallation?)
    ensures Written(SqlStep(cat, db, call).value, call) && OnlyWritten(db, SqlStep(cat, db, call).value, call)
  {
  }

  /** An accepted call of the repository's Store, and so of the in-memory Store that holds the same
      records, leaves the row that says what it said and changes no other. */
  lemma AcceptedCallsWrite(cat: Catalog, db: Db, call: Call)
    requires DbOk(cat, db) && SqlStep(cat, db, call).Ok?
    ensures Written(SqlStep(cat, db, call).value, call) && OnlyWritten(db, SqlStep(cat, db, call).value, call)
  {
    match call
    case ExchangeProvider(_, _, _, _, _, _) => ExchangeWrites(cat, db, call);
    case ExchangeProviderOAuth(_, _, _, _, _, _, _, _) => ExchangeWrites(cat, db, call);
    case HandleOAuthCallback(_, _, _, _, _) => ExchangeWrites(cat, db, call);
    case CompleteInstall(_, _, _, _, _) =>
      CompleteWrites(cat, db, call);
    case ActivateInstallation(_, _, _, _, _) => ActivateWrites(cat, db, call);
    case PreviewAuthorization(_, _, _, _, _) => PreviewWrites(cat, db, call);
    case PreflightCallback(_, _, _, _, _, _) => PreflightWrites(cat, db, call);
    case ReadDescriptor(_, _, _, _) => SessionWrites(cat, db, call);
    case Consume(_, _, _, _) => SessionWrites(cat, db, call);
    case _ => IntentWrites(cat, db, call);
  }

  // ---------- one Store after the other: rows and maps ----------

  function AsSet(calls: seq<Call>): set<Call> { set c | c in calls }

  lemma {:induction false} SqlRowsComeFromCalls(cat: Catalog, calls: seq<Call>)
    ensures Called(SqlRun(cat, calls), AsSet(calls)) && DbOk(cat, SqlRun(cat, calls)) && OneShot(SqlRun(cat, calls))
    decreases |calls|
  {
    if calls != [] {
      var init, last := calls[..|calls| - 1], calls[|calls| - 1];
      SqlRowsComeFromCalls(cat, init);
      var all := AsSet(calls);
      assert calls == init + [last];
      MoreCallsKeepRows(SqlRun(cat, init), AsSet(init), all);
      if SqlStep(cat, SqlRun(cat, init), last).Ok? {
        var r := Plan(cat, SqlRun(cat, init), last).value;
        PlansAreCalled(cat, SqlRun(cat, init), last);
        MoreCalls(r, {last}, all);
        SqlStepKeeps(cat, SqlRun(cat, init), last);
        TxKeepsHandoffCalled(cat, SqlRun(cat, init), r, all);
        TxKeepsRestCalled(cat, SqlRun(cat, init), r, all);
      }
    }
  }

  /** In memory too: the stored callback is the one that was received, and so are all other rows. */
  lemma MemoryRowsComeFromCalls(cat: Catalog, calls: seq<Call>)
    requires CatalogOk(cat) && FreshRun(cat, calls)
    ensures var m, all := MemRun(cat, calls), AsSet(calls);
      && (forall k :: k in m.intents ==> IntentCalled(k, m.intents[k], all))
      && (forall k :: k in m.sessions ==> SessionCalled(k, m.sessions[k], all) && ConsumptionCalled(k, m.sessions[k], all))
      && (forall k :: k in m.previews ==> PreviewCalled(m.previews[k], all))
      && (forall k :: k in m.preflights ==> PreflightCalled(m.preflights[k], all) && m.preflights[k].state == k)
      && (forall k :: k in m.exchanges ==> ExchangeCalled(m.exchanges[k], all) && m.exchanges[k].preflight == k)
      && (forall k :: k in m.completions ==> CompletionCalled(m.completions[k], all) && m.completions[k].exchange == k)
      && (forall k :: k in m.installations ==> InstallationCalled(m.installations[k], all) && m.installations[k].completion == k)
  {
    StoresAgree(cat, calls);
    SqlRowsComeFromCalls(cat, calls);
    var db, m := SqlRun(cat, calls), MemRun(cat, calls);
    forall k | k in m.previews ensures db.previews[m.previews[k].ref] == m.previews[k] { assert db.previews[PreviewRef(m.previews[k])] == m.previews[k]; }
    forall k | k in m.preflights ensures db.preflights[m.preflights[k].ref] == m.preflights[k] && m.preflights[k].state == k {
      assert db.preflights[PreflightRef(m.preflights[k])] == m.preflights[k] && PreflightKey(m.preflights[k]) == k;
    }
    forall k | k in m.exchanges ensures db.exchanges[m.exchanges[k].ref] == m.exchanges[k] && m.exchanges[k].preflight == k {
      assert db.exchanges[ExchangeRef(m.exchanges[k])] == m.exchanges[k] && ExchangeKey(m.exchanges[k]) == k;
    }
    forall k | k in m.completions ensures db.completions[m.completions[k].ref] == m.completions[k] && m.completions[k].exchange == k {
      assert db.completions[CompletionRef(m.completions[k])] == m.completions[k] && CompletionKey(m.completions[k]) == k;
    }
    forall k | k in m.installations ensures db.installations[m.installations[k].ref] == m.installations[k] && m.installations[k].completion == k {
      assert db.installations[InstallationRef(m.installations[k])] == m.installations[k] && InstallationKey(m.installations[k]) == k;
    }
  }

  /** So in memory no intent is installed without an authorized callback for it either, and no
      installation goes through a state whose callback was denied. */
  lemma MemoryInstallationsComeFromCalls(cat: Catalog, calls: seq<Call>, completion: Ref)
    requires CatalogOk(cat) && FreshRun(cat, calls) && completion in MemRun(cat, calls).installations
    ensures var m, i := MemRun(cat, calls), MemRun(cat, calls).installations[completion];
      && CreateInstallIntent(i.user, i.app, i.intent) in calls
      && ActivateInstallation(i.user, i.intent, completion, i.ref, i.activatedAt) in calls
      && exists e: Exchange, now: int ::
        && e.preflight in m.exchanges && m.exchanges[e.preflight] == e && e.user == i.user && e.intent == i.intent
        && e.state in m.preflights && m.preflights[e.state].status == Authorized
        && PreflightCallback(i.user, i.intent, e.state, Authorized, e.preflight, now) in calls
  {
    StoresAgree(cat, calls);
    SqlRowsComeFromCalls(cat, calls);
    MemoryRowsComeFromCalls(cat, calls);
    var db, m := SqlRun(cat, calls), MemRun(cat, calls);
    var i := m.installations[completion];
    assert InstallationKey(i) == completion && db.installations[InstallationRef(i)] == i;
    CalledProvenanceHolds(cat, db, AsSet(calls), i.ref);
    var e := db.exchanges[db.completions[completion].exchange];
    assert ExchangeOk(db, db.completions[completion].exchange, e);
    assert m.exchanges[ExchangeKey(e)] == e;
    var p := db.preflights[e.preflight];
    assert m.preflights[PreflightKey(p)] == p;
    assert PreflightCallback(i.user, i.intent, e.state, Authorized, e.preflight, p.receivedAt) in calls;
  }
}
