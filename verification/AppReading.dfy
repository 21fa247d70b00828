/** Reading the progress of an install from the in-memory Store: six scans for the latest records
    and the summary of what they find. */
module AppReading {
  import opened Lib
  import opened AppTables
  import opened AppGuarantees
  import opened AppMemory
  import opened AppRefinement
  import opened AppStore
  import opened AppProgress
  import opened WireTimes

  /** How instants are written, and when each intent and each session was last touched. */
  datatype Clock = Clock(wire: int -> string, intentAt: Ref -> int, sessionAt: Ref -> int)

  function MyHandoff(user: int, intent: Ref): Handoff -> bool { (h: Handoff) => h.session.user == user && h.session.intent == intent }
  function MyPreview(user: int, intent: Ref): Preview -> bool { (p: Preview) => p.user == user && p.intent == intent }
  function MyPreflight(user: int, intent: Ref): Preflight -> bool { (p: Preflight) => p.user == user && p.intent == intent }
  function MyExchange(user: int, intent: Ref): Exchange -> bool { (e: Exchange) => e.user == user && e.intent == intent }
  function MyCompletion(user: int, intent: Ref): Completion -> bool { (c: Completion) => c.user == user && c.intent == intent }
  function MyInstallation(user: int, intent: Ref): Installation -> bool { (i: Installation) => i.user == user && i.intent == intent }

  function HandoffState(h: Handoff): Ref { h.state }
  function HandoffAt(h: Handoff): int { h.session.expiresAt - SESSION_TTL }
  function PreviewAt(p: Preview): int { p.requestedAt }
  function PreflightAt(p: Preflight): int { p.receivedAt }
  function ExchangeAt(e: Exchange): int { e.recordedAt }
  function CompletionAt(c: Completion): int { c.completedAt }
  function InstallationAt(i: Installation): int { i.activatedAt }

  function Handoffs(sessions: map<Ref, Session>): map<Ref, Handoff> { map k | k in sessions :: Handoff(k, sessions[k]) }

  /** What a scan comes back with: the latest of these rows by the wire string of its time, stamped
      with the wire string of its last update; nothing only if there is no such row. */
  ghost predicate Scanned<T(!new)>(rows: map<Ref, T>, mine: T -> bool, time: T -> int, touched: T -> int, ref: T -> Ref, wire: int -> string,
                                   found: Option<Latest<T>>) {
    match found
    case None => forall k :: k in rows ==> !mine(rows[k])
    case Some(l) => l.updatedAt == wire(touched(l.row)) && IsLatest(rows, mine, x => wire(time(x)), ref, l.row)
  }

  /** The records are the intent and what the six scans come back with. */
  ghost predicate ReadFromMemory(m: Mem, user: int, intent: Ref, c: Clock, r: Records) {
    && intent in m.intents && r.intent == Latest(m.intents[intent], c.wire(c.intentAt(intent))) && r.intent.row.user == user
    && Scanned(Handoffs(m.sessions), MyHandoff(user, intent), HandoffAt, (h: Handoff) => c.sessionAt(h.state), HandoffState, c.wire, r.session)
    && Scanned(m.previews, MyPreview(user, intent), PreviewAt, PreviewAt, PreviewRef, c.wire, r.preview)
    && Scanned(m.preflights, MyPreflight(user, intent), PreflightAt, PreflightAt, PreflightRef, c.wire, r.preflight)
    && Scanned(m.exchanges, MyExchange(user, intent), ExchangeAt, ExchangeAt, ExchangeRef, c.wire, r.exchange)
    && Scanned(m.completions, MyCompletion(user, intent), CompletionAt, CompletionAt, CompletionRef, c.wire, r.completion)
    && Scanned(m.installations, MyInstallation(user, intent), InstallationAt, InstallationAt, InstallationRef, c.wire, r.installation)
  }

  /** References are never drawn twice, for previews and installations too. */
  ghost predicate RefsDistinct(m: Mem) {
    && DistinctRefs(m.previews, PreviewRef) && DistinctRefs(m.preflights, PreflightRef) && DistinctRefs(m.exchanges, ExchangeRef)
    && DistinctRefs(m.completions, CompletionRef) && DistinctRefs(m.installations, InstallationRef)
  }

  method ScanLatest<T(!new)>(rows: map<Ref, T>, mine: T -> bool, time: T -> int, touched: T -> int, ref: T -> Ref, wire: int -> string)
    returns (found: Option<Latest<T>>)
    requires DistinctRefs(rows, ref)
    ensures Scanned(rows, mine, time, touched, ref, wire, found)
  {
    var row := LatestRow(rows, mine, x => wire(time(x)), ref);
    if row.None? { return None; }
    return Some(Latest(row.value, wire(touched(row.value))));
  }

  /** The six scans. */
  method ReadRecords(s: Store, user: int, ref: Ref, c: Clock) returns (r: Records)
    requires RefsDistinct(s.State()) && FindIntent(s.installIntents, user, ref).Some?
    ensures ReadFromMemory(s.State(), user, ref, c, r)
  {
    var session := ScanLatest(Handoffs(s.externalAuthSessions), MyHandoff(user, ref), HandoffAt, (h: Handoff) => c.sessionAt(h.state), HandoffState, c.wire);
    var preview := ScanLatest(s.authorizationPreviews, MyPreview(user, ref), PreviewAt, PreviewAt, PreviewRef, c.wire);
    var preflight := ScanLatest(s.callbackPreflights, MyPreflight(user, ref), PreflightAt, PreflightAt, PreflightRef, c.wire);
    var exchange := ScanLatest(s.providerExchanges, MyExchange(user, ref), ExchangeAt, ExchangeAt, ExchangeRef, c.wire);
    var completion := ScanLatest(s.installCompletions, MyCompletion(user, ref), CompletionAt, CompletionAt, CompletionRef, c.wire);
    var installation := ScanLatest(s.appInstallations, MyInstallation(user, ref), InstallationAt, InstallationAt, InstallationRef, c.wire);
    r := Records(Latest(s.installIntents[ref], c.wire(c.intentAt(ref))), session, preview, preflight, exchange, completion, installation);
  }

  method ReadInstallProgress(s: Store, user: int, ref: Ref, now: int, c: Clock) returns (p: Result<Progress, Error>, ghost r: Option<Records>)
    requires RefsDistinct(s.State())
    ensures p.Ok? <==> user > 0 && ref != "" && FindIntent(s.installIntents, user, ref).Some? && s.installIntents[ref].app in s.catalog
    ensures p.Ok? ==> r.Some? && ReadFromMemory(s.State(), user, ref, c, r.value) && p.value.status == StatusOf(r.value, now)
    ensures p.Ok? ==> StatusMeans(r.value, now, p.value.status)
    ensures p.Ok? ==> IsGreatest(p.value.updatedAt, Times(r.value)) && Refs(r.value, p.value)
    ensures p.Ok? && Renders(c.wire) && AllInYears(Instants(r.value, ref, c)) ==>
      exists t :: t in Instants(r.value, ref, c) && p.value.updatedAt == c.wire(t) && forall u :: u in Instants(r.value, ref, c) ==> u <= t
  {
    r := None;
    if user <= 0 || ref == "" { return Err(Invalid), r; }
    if ref !in s.installIntents || s.installIntents[ref].user != user { return Err(IntentNotFound), r; }
    if s.installIntents[ref].app !in s.catalog { return Err(AppNotFound), r; }
    var records := ReadRecords(s, user, ref, c);
    var progress := NewAppInstallProgress(records, now);
    TimesAreWritten(s.State(), user, ref, c, records);
    if Renders(c.wire) && AllInYears(Instants(records, ref, c)) {
      var latest := UpdatedAtIsTheLatestInstant(progress.updatedAt, Times(records), Instants(records, ref, c), c.wire);
    }
    return Ok(progress), Some(records);
  }

  // ---------- the instants behind the wire times ----------

  function InstantOf<T>(r: Option<Latest<T>>, touched: T -> int): seq<int> { if r.Some? then [touched(r.value.row)] else [] }

  /** When the intent and each of the chosen records were last touched. */
  function Instants(r: Records, intent: Ref, c: Clock): seq<int> {
    [c.intentAt(intent)] + InstantOf(r.session, (h: Handoff) => c.sessionAt(h.state)) + InstantOf(r.preview, PreviewAt)
    + InstantOf(r.preflight, PreflightAt) + InstantOf(r.exchange, ExchangeAt) + InstantOf(r.completion, CompletionAt)
    + InstantOf(r.installation, InstallationAt)
  }

  lemma WrittenAppend<T(!new)>(times: seq<string>, instants: seq<int>, c: Clock, rows: map<Ref, T>, mine: T -> bool, time: T -> int, touched: T -> int,
                               ref: T -> Ref, found: Option<Latest<T>>)
    requires Written(times, instants, c.wire) && Scanned(rows, mine, time, touched, ref, c.wire, found)
    ensures Written(times + Time(found), instants + InstantOf(found, touched), c.wire)
  {
  }

  lemma TimesAreWritten(m: Mem, user: int, intent: Ref, c: Clock, r: Records)
    requires ReadFromMemory(m, user, intent, c, r)
    ensures Written(Times(r), Instants(r, intent, c), c.wire)
  {
    var times, instants := [r.intent.updatedAt], [c.intentAt(intent)];
    var sessionAt := (h: Handoff) => c.sessionAt(h.state);
    WrittenAppend(times, instants, c, Handoffs(m.sessions), MyHandoff(user, intent), HandoffAt, sessionAt, HandoffState, r.session);
    times, instants := times + Time(r.session), instants + InstantOf(r.session, sessionAt);
    WrittenAppend(times, instants, c, m.previews, MyPreview(user, intent), PreviewAt, PreviewAt, PreviewRef, r.preview);
    times, instants := times + Time(r.preview), instants + InstantOf(r.preview, PreviewAt);
    WrittenAppend(times, instants, c, m.preflights, MyPreflight(user, intent), PreflightAt, PreflightAt, PreflightRef, r.preflight);
    times, instants := times + Time(r.preflight), instants + InstantOf(r.preflight, PreflightAt);
    WrittenAppend(times, instants, c, m.exchanges, MyExchange(user, intent), ExchangeAt, ExchangeAt, ExchangeRef, r.exchange);
    times, instants := times + Time(r.exchange), instants + InstantOf(r.exchange, ExchangeAt);
    WrittenAppend(times, instants, c, m.completions, MyCompletion(user, intent), CompletionAt, CompletionAt, CompletionRef, r.completion);
    times, instants := times + Time(r.completion), instants + InstantOf(r.completion, CompletionAt);
    WrittenAppend(times, instants, c, m.installations, MyInstallation(user, intent), InstallationAt, InstallationAt, InstallationRef, r.installation);
  }

  // ---------- progress never goes back in memory either ----------

  lemma {:induction false} SqlRunEvolves(cat: Catalog, calls: seq<Call>, n: nat)
    requires n <= |calls|
    ensures Evolves(SqlRun(cat, calls[..n]), SqlRun(cat, calls))
    decreases |calls|
  {
    if n == |calls| {
      assert calls[..n] == calls;
    } else {
      var init, last := calls[..|calls| - 1], calls[|calls| - 1];
      assert init[..n] == calls[..n];
      SqlRunEvolves(cat, init, n);
      OneCallEvolves(cat, SqlRun(cat, init), last);
      var db, r := SqlRun(cat, init), SqlStep(cat, SqlRun(cat, init), last);
      EvolvesTransitive(SqlRun(cat, calls[..n]), db, if r.Ok? then r.value else db);
    }
  }

  lemma OneCallEvolves(cat: Catalog, db: Db, call: Call)
    ensures var r := SqlStep(cat, db, call); Evolves(db, if r.Ok? then r.value else db)
  {
    if SqlStep(cat, db, call).Ok? { TxEvolves(cat, db, Plan(cat, db, call).value); }
  }

  // ---------- the tables read the same ----------

  /** What `order by time desc, ref desc limit 1` returns. */
  ghost predicate Newest<T(!new)>(rows: map<Ref, T>, mine: T -> bool, time: T -> int, ref: T -> Ref, found: Option<T>) {
    match found
    case None => forall k :: k in rows ==> !mine(rows[k])
    case Some(x) =>
      && mine(x) && (exists k :: k in rows && rows[k] == x)
      && forall k :: k in rows && mine(rows[k]) && ref(rows[k]) != ref(x) ==>
           time(rows[k]) < time(x) || (time(rows[k]) == time(x) && Less(ref(rows[k]), ref(x)))
  }

  function Row<T>(l: Option<Latest<T>>): Option<T> { if l.Some? then Some(l.value.row) else None }

  /** The records are the rows the repository's queries return. */
  ghost predicate ReadFromTables(db: Db, user: int, intent: Ref, r: Records) {
    && intent in db.intents && r.intent.row == db.intents[intent] && r.intent.row.user == user
    && Newest(Handoffs(db.sessions), MyHandoff(user, intent), HandoffAt, HandoffState, Row(r.session))
    && Newest(db.previews, MyPreview(user, intent), PreviewAt, PreviewRef, Row(r.preview))
    && Newest(db.preflights, MyPreflight(user, intent), PreflightAt, PreflightRef, Row(r.preflight))
    && Newest(db.exchanges, MyExchange(user, intent), ExchangeAt, ExchangeRef, Row(r.exchange))
    && Newest(db.completions, MyCompletion(user, intent), CompletionAt, CompletionRef, Row(r.completion))
    && Newest(db.installations, MyInstallation(user, intent), InstallationAt, InstallationRef, Row(r.installation))
  }

  ghost predicate RowsInYears<T(!new)>(rows: map<Ref, T>, time: T -> int) { forall k :: k in rows ==> InYears(time(rows[k])) }

  ghost predicate MemInYears(m: Mem) {
    && RowsInYears(Handoffs(m.sessions), HandoffAt) && RowsInYears(m.previews, PreviewAt) && RowsInYears(m.preflights, PreflightAt)
    && RowsInYears(m.exchanges, ExchangeAt) && RowsInYears(m.completions, CompletionAt) && RowsInYears(m.installations, InstallationAt)
  }

  /** A scan by wire strings finds the row a query by instants returns. */
  lemma ScanIsNewest<T(!new)>(rows: map<Ref, T>, keyed: map<Ref, T>, ref: T -> Ref, key: T -> Ref, mine: T -> bool, time: T -> int, touched: T -> int,
                              wire: int -> string, found: Option<Latest<T>>)
    requires Rekeyed(rows, keyed, ref, key) && Renders(wire) && RowsInYears(keyed, time)
    requires Scanned(keyed, mine, time, touched, ref, wire, found)
    ensures Newest(rows, mine, time, ref, Row(found))
  {
    match found
    case None =>
      forall k | k in rows ensures !mine(rows[k]) { assert keyed[key(rows[k])] == rows[k]; }
    case Some(l) =>
      var at :| at in keyed && keyed[at] == l.row;
      assert rows[ref(keyed[at])] == l.row;
      forall k | k in rows && mine(rows[k]) && ref(rows[k]) != ref(l.row)
        ensures time(rows[k]) < time(l.row) || (time(rows[k]) == time(l.row) && Less(ref(rows[k]), ref(l.row))) {
        assert keyed[key(rows[k])] == rows[k];
        RenderedCompare(wire, time(rows[k]), time(l.row));
      }
  }

  lemma NewestIsUnique<T(!new)>(rows: map<Ref, T>, mine: T -> bool, time: T -> int, ref: T -> Ref, a: Option<T>, b: Option<T>)
    requires KeyedByRef(rows, ref)
    requires Newest(rows, mine, time, ref, a) && Newest(rows, mine, time, ref, b)
    ensures a == b
  {
    if a.Some? && b.Some? && ref(a.value) != ref(b.value) && Less(ref(a.value), ref(b.value)) { LessIsAsymmetric(ref(a.value), ref(b.value)); }
  }

  /** Within the years of the layout, what memory reads is what the queries over the same records
      return. */
  lemma MemoryReadsAsTables(db: Db, m: Mem, user: int, intent: Ref, c: Clock, r: Records)
    requires Same(db, m) && ReadFromMemory(m, user, intent, c, r) && Renders(c.wire) && MemInYears(m)
    ensures ReadFromTables(db, user, intent, r)
  {
    ScanIsNewest(Handoffs(db.sessions), Handoffs(m.sessions), HandoffState, HandoffState, MyHandoff(user, intent), HandoffAt,
                 (h: Handoff) => c.sessionAt(h.state), c.wire, r.session);
    ScanIsNewest(db.previews, m.previews, PreviewRef, PreviewKey, MyPreview(user, intent), PreviewAt, PreviewAt, c.wire, r.preview);
    ScanIsNewest(db.preflights, m.preflights, PreflightRef, PreflightKey, MyPreflight(user, intent), PreflightAt, PreflightAt, c.wire, r.preflight);
    ScanIsNewest(db.exchanges, m.exchanges, ExchangeRef, ExchangeKey, MyExchange(user, intent), ExchangeAt, ExchangeAt, c.wire, r.exchange);
    ScanIsNewest(db.completions, m.completions, CompletionRef, CompletionKey, MyCompletion(user, intent), CompletionAt, CompletionAt, c.wire, r.completion);
    ScanIsNewest(db.installations, m.installations, InstallationRef, InstallationKey, MyInstallation(user, intent), InstallationAt, InstallationAt, c.wire,
                 r.installation);
  }

  ghost predicate SameRows(r: Records, r': Records) {
    && r.intent.row == r'.intent.row
    && Row(r.session) == Row(r'.session) && Row(r.preview) == Row(r'.preview) && Row(r.preflight) == Row(r'.preflight)
    && Row(r.exchange) == Row(r'.exchange) && Row(r.completion) == Row(r'.completion) && Row(r.installation) == Row(r'.installation)
  }

  ghost predicate KeyedByRef<T(!new)>(rows: map<Ref, T>, ref: T -> Ref) { forall k :: k in rows ==> ref(rows[k]) == k }

  ghost predicate TablesKeyed(db: Db) {
    && KeyedByRef(db.previews, PreviewRef) && KeyedByRef(db.preflights, PreflightRef) && KeyedByRef(db.exchanges, ExchangeRef)
    && KeyedByRef(db.completions, CompletionRef) && KeyedByRef(db.installations, InstallationRef)
  }

  /** The queries have one answer. */
  lemma TablesReadOnce(db: Db, user: int, intent: Ref, r: Records, r': Records)
    requires TablesKeyed(db) && ReadFromTables(db, user, intent, r) && ReadFromTables(db, user, intent, r')
    ensures SameRows(r, r')
  {
    NewestIsUnique(Handoffs(db.sessions), MyHandoff(user, intent), HandoffAt, HandoffState, Row(r.session), Row(r'.session));
    NewestIsUnique(db.previews, MyPreview(user, intent), PreviewAt, PreviewRef, Row(r.preview), Row(r'.preview));
    NewestIsUnique(db.preflights, MyPreflight(user, intent), PreflightAt, PreflightRef, Row(r.preflight), Row(r'.preflight));
    NewestIsUnique(db.exchanges, MyExchange(user, intent), ExchangeAt, ExchangeRef, Row(r.exchange), Row(r'.exchange));
    NewestIsUnique(db.completions, MyCompletion(user, intent), CompletionAt, CompletionRef, Row(r.completion), Row(r'.completion));
    NewestIsUnique(db.installations, MyInstallation(user, intent), InstallationAt, InstallationRef, Row(r.installation), Row(r'.installation));
  }

  lemma SameRowsSameStatus(r: Records, r': Records, now: int)
    requires SameRows(r, r')
    ensures StatusOf(r, now) == StatusOf(r', now) && DeniedCallback(r) == DeniedCallback(r')
  {
  }

  /** So both forms give the same progress: the same rows, hence the same status and next action. */
  lemma ProgressAgrees(db: Db, m: Mem, user: int, intent: Ref, c: Clock, r: Records, r': Records, now: int)
    requires Same(db, m) && ReadFromMemory(m, user, intent, c, r) && Renders(c.wire) && MemInYears(m)
    requires ReadFromTables(db, user, intent, r')
    ensures SameRows(r, r') && StatusOf(r, now) == StatusOf(r', now) && DeniedCallback(r) == DeniedCallback(r')
  {
    MemoryReadsAsTables(db, m, user, intent, c, r);
    TablesReadOnce(db, user, intent, r, r');
    SameRowsSameStatus(r, r', now);
  }

  lemma ScanFindsIfAny<T(!new)>(rows: map<Ref, T>, keyed: map<Ref, T>, ref: T -> Ref, key: T -> Ref, mine: T -> bool, time: T -> int, touched: T -> int,
                                wire: int -> string, found: Option<Latest<T>>)
    requires Rekeyed(rows, keyed, ref, key) && Scanned(keyed, mine, time, touched, ref, wire, found)
    ensures found.Some? <==> exists k :: k in rows && mine(rows[k])
  {
    if k :| k in rows && mine(rows[k]) { assert keyed[key(rows[k])] == rows[k]; }
    if found.Some? {
      var k :| k in keyed && keyed[k] == found.value.row;
      assert rows[ref(keyed[k])] == keyed[k];
    }
  }

  lemma HandoffFoundIfAny(db: Db, user: int, intent: Ref, c: Clock, found: Option<Latest<Handoff>>)
    requires Scanned(Handoffs(db.sessions), MyHandoff(user, intent), HandoffAt, (h: Handoff) => c.sessionAt(h.state), HandoffState, c.wire, found)
    ensures found.Some? <==> exists k :: k in db.sessions && db.sessions[k].intent == intent && db.sessions[k].user == user
  {
    var handoffs := Handoffs(db.sessions);
    if k :| k in db.sessions && db.sessions[k].intent == intent && db.sessions[k].user == user { assert MyHandoff(user, intent)(handoffs[k]); }
  }

  lemma EarlyRowsFound(db: Db, m: Mem, user: int, intent: Ref, c: Clock, r: Records)
    requires Same(db, m) && ReadFromMemory(m, user, intent, c, r)
    ensures r.preview.Some? <==> exists k :: k in db.previews && db.previews[k].intent == intent && db.previews[k].user == user
    ensures r.preflight.Some? <==> exists k :: k in db.preflights && db.preflights[k].intent == intent && db.preflights[k].user == user
  {
    ScanFindsIfAny(db.previews, m.previews, PreviewRef, PreviewKey, MyPreview(user, intent), PreviewAt, PreviewAt, c.wire, r.preview);
    ScanFindsIfAny(db.preflights, m.preflights, PreflightRef, PreflightKey, MyPreflight(user, intent), PreflightAt, PreflightAt, c.wire, r.preflight);
  }

  lemma LateRowsFound(db: Db, m: Mem, user: int, intent: Ref, c: Clock, r: Records)
    requires Same(db, m) && ReadFromMemory(m, user, intent, c, r)
    ensures r.exchange.Some? <==> exists k :: k in db.exchanges && db.exchanges[k].intent == intent && db.exchanges[k].user == user
    ensures r.completion.Some? <==> exists k :: k in db.completions && db.completions[k].intent == intent && db.completions[k].user == user
    ensures r.installation.Some? <==> exists k :: k in db.installations && db.installations[k].intent == intent && db.installations[k].user == user
  {
    ScanFindsIfAny(db.exchanges, m.exchanges, ExchangeRef, ExchangeKey, MyExchange(user, intent), ExchangeAt, ExchangeAt, c.wire, r.exchange);
    ScanFindsIfAny(db.completions, m.completions, CompletionRef, CompletionKey, MyCompletion(user, intent), CompletionAt, CompletionAt, c.wire, r.completion);
    ScanFindsIfAny(db.installations, m.installations, InstallationRef, InstallationKey, MyInstallation(user, intent), InstallationAt, InstallationAt, c.wire,
                   r.installation);
  }

  /** Whatever the years, memory finds a record of a kind exactly when the tables hold one. */
  lemma MemoryFindsAsTables(db: Db, m: Mem, user: int, intent: Ref, c: Clock, r: Records)
    requires Same(db, m) && ReadFromMemory(m, user, intent, c, r)
    ensures ReadFrom(db, user, intent, r)
  {
    HandoffFoundIfAny(db, user, intent, c, r.session);
    EarlyRowsFound(db, m, user, intent, c, r);
    LateRowsFound(db, m, user, intent, c, r);
  }

  lemma AgreeBefore(cat: Catalog, calls: seq<Call>, n: nat)
    requires CatalogOk(cat) && FreshRun(cat, calls) && n <= |calls|
    ensures Same(SqlRun(cat, calls[..n]), MemRun(cat, calls[..n]))
  {
    forall i | 0 <= i < n ensures Fresh(SqlRun(cat, calls[..n][..i]), calls[..n][i]) { assert calls[..n][..i] == calls[..i]; }
    StoresAgree(cat, calls[..n]);
  }

  /** Whatever calls come between two readings of the in-memory Store, the later one is at no
      earlier stage. */
  lemma MemoryProgressNeverGoesBack(cat: Catalog, calls: seq<Call>, n: nat, user: int, intent: Ref, c: Clock, c': Clock, r: Records, r': Records,
                                    now: int, now': int)
    requires CatalogOk(cat) && FreshRun(cat, calls) && n <= |calls|
    requires ReadFromMemory(MemRun(cat, calls[..n]), user, intent, c, r) && ReadFromMemory(MemRun(cat, calls), user, intent, c', r')
    ensures Rank(StatusOf(r, now)) <= Rank(StatusOf(r', now'))
  {
    AgreeBefore(cat, calls, n);
    StoresAgree(cat, calls);
    SqlRunEvolves(cat, calls, n);
    var db, db' := SqlRun(cat, calls[..n]), SqlRun(cat, calls);
    MemoryFindsAsTables(db, MemRun(cat, calls[..n]), user, intent, c, r);
    MemoryFindsAsTables(db', MemRun(cat, calls), user, intent, c', r');
    RecordsAccumulate(db, db', user, intent, r, r');
    MoreRecordsHigherRank(r, r', now, now');
  }
}
