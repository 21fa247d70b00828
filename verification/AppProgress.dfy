/** The progress summary of an install: assembled field by field from the latest record of each
    kind, and never going back however the processes interleave. */
module AppProgress {
  import opened Lib
  import opened AppTables
  import opened AppGuarantees
  import opened WireTimes

  datatype ProgressStatus =
    | StillPending | AuthReady | HandoffReady | HandoffConsumed | HandoffExpired | PreviewRecorded
    | CallbackRecorded | ExchangeQueued | ExchangeRefused | CredentialHeld | InstallDone | InstallRefused | Active

  datatype NextAction =
    | StartExternalAuth | ReadTheDescriptor | PreviewAuth | RecordCallback | AwaitExchange
    | RestartExternalAuth | CompleteTheInstall | CreateNewIntent | NothingToDo

  /** A chosen record with the wire time of its last update. */
  datatype Latest<T> = Latest(row: T, updatedAt: string)

  /** A handoff session with the state it stands under. */
  datatype Handoff = Handoff(state: Ref, session: Session)

  datatype Records = Records(
    intent: Latest<Intent>,
    session: Option<Latest<Handoff>>,
    preview: Option<Latest<Preview>>,
    preflight: Option<Latest<Preflight>>,
    exchange: Option<Latest<Exchange>>,
    completion: Option<Latest<Completion>>,
    installation: Option<Latest<Installation>>)

  datatype Progress = Progress(
    status: ProgressStatus, next: NextAction, descriptorAvailable: bool, updatedAt: string,
    handoff: Option<Ref>, preview: Option<Ref>, preflight: Option<Ref>, exchange: Option<Ref>, completion: Option<Ref>, installation: Option<Ref>)

  /** Neither activated, nor completed, nor ended by its own status. */
  predicate Unended(r: Records) { r.installation.None? && r.completion.None? && r.intent.row.status in {Pending, RequiresExternalAuth} }

  /** Of the handoff only, and nothing after it. */
  predicate InHandoff(r: Records) { Unended(r) && r.exchange.None? && r.preflight.None? && r.preview.None? }

  /** When a summary has each status, told from the records and the clock. */
  predicate StatusMeans(r: Records, now: int, s: ProgressStatus) {
    match s
    case Active => r.installation.Some?
    case InstallDone =>
      r.installation.None? && (if r.completion.Some? then r.completion.value.row.status != Blocked else r.intent.row.status == Installed)
    case InstallRefused =>
      r.installation.None? && (if r.completion.Some? then r.completion.value.row.status == Blocked else r.intent.row.status == Blocked)
    case ExchangeQueued => Unended(r) && r.exchange.Some? && r.exchange.value.row.status == Queued
    case ExchangeRefused => Unended(r) && r.exchange.Some? && r.exchange.value.row.status == ExchangeBlocked
    case CredentialHeld => Unended(r) && r.exchange.Some? && r.exchange.value.row.status == CredentialReady
    case CallbackRecorded => Unended(r) && r.exchange.None? && r.preflight.Some?
    case PreviewRecorded => Unended(r) && r.exchange.None? && r.preflight.None? && r.preview.Some?
    case HandoffConsumed => InHandoff(r) && r.session.Some? && r.session.value.row.session.consumedAt.Some?
    case HandoffReady =>
      InHandoff(r) && r.session.Some? && r.session.value.row.session.consumedAt.None? && now < r.session.value.row.session.expiresAt
    case HandoffExpired =>
      InHandoff(r) && r.session.Some? && r.session.value.row.session.consumedAt.None? && r.session.value.row.session.expiresAt <= now
    case AuthReady => InHandoff(r) && r.session.None? && r.intent.row.status == RequiresExternalAuth
    case StillPending => InHandoff(r) && r.session.None? && r.intent.row.status == Pending
  }

  /** What a summary asks for, told from its status and the callback. */
  predicate ActionMeans(s: ProgressStatus, denied: bool, a: NextAction) {
    match a
    case StartExternalAuth => s == StillPending
    case ReadTheDescriptor => s in {AuthReady, HandoffExpired}
    case PreviewAuth => s == HandoffReady
    case RecordCallback => s in {HandoffConsumed, PreviewRecorded}
    case AwaitExchange => s == ExchangeQueued || (s == CallbackRecorded && !denied)
    case RestartExternalAuth => s == ExchangeRefused || (s == CallbackRecorded && denied)
    case CompleteTheInstall => s == CredentialHeld
    case CreateNewIntent => s == InstallRefused
    case NothingToDo => s in {InstallDone, Active}
  }

  /** How far a status is: the order of the workflow. */
  function Rank(s: ProgressStatus): nat {
    match s
    case StillPending => 0
    case AuthReady => 1
    case HandoffReady => 2 case HandoffConsumed => 2 case HandoffExpired => 2
    case PreviewRecorded => 3
    case CallbackRecorded => 4
    case ExchangeQueued => 5 case ExchangeRefused => 5 case CredentialHeld => 5
    case InstallDone => 6 case InstallRefused => 6
    case Active => 7
  }

  /** Before the install ends the furthest record decides, whatever the earlier ones say. */
  function OpenStatus(r: Records, now: int): ProgressStatus {
    if r.exchange.Some? then
      (match r.exchange.value.row.status case Queued => ExchangeQueued case ExchangeBlocked => ExchangeRefused case CredentialReady => CredentialHeld)
    else if r.preflight.Some? then CallbackRecorded
    else HandoffStatus(r, now)
  }

  function HandoffStatus(r: Records, now: int): ProgressStatus {
    if r.preview.Some? then PreviewRecorded
    else if r.session.Some? then
      (if r.session.value.row.session.consumedAt.Some? then HandoffConsumed
       else if r.session.value.row.session.expiresAt <= now then HandoffExpired else HandoffReady)
    else
      match r.intent.row.status
      case Pending => StillPending
      case RequiresExternalAuth => AuthReady
      case Installed => InstallDone
      case Blocked => InstallRefused
  }

  function StatusOf(r: Records, now: int): ProgressStatus { if r.installation.Some? then Active else EndStatus(r, now) }

  function EndStatus(r: Records, now: int): ProgressStatus {
    if r.completion.Some? then (if r.completion.value.row.status == Blocked then InstallRefused else InstallDone)
    else if r.intent.row.status == Installed then InstallDone
    else if r.intent.row.status == Blocked then InstallRefused
    else OpenStatus(r, now)
  }

  /** The status is the one whose condition holds, and only one does. */
  lemma StatusExactlyWhen(r: Records, now: int, s: ProgressStatus)
    ensures StatusOf(r, now) == s <==> StatusMeans(r, now, s)
  {
  }

  /** What each status asks for next; only a denied callback makes a difference of its own. */
  function NextOf(s: ProgressStatus, denied: bool): NextAction {
    match s
    case StillPending => StartExternalAuth
    case AuthReady => ReadTheDescriptor case HandoffExpired => ReadTheDescriptor
    case HandoffReady => PreviewAuth
    case HandoffConsumed => RecordCallback case PreviewRecorded => RecordCallback
    case CallbackRecorded => if denied then RestartExternalAuth else AwaitExchange
    case ExchangeQueued => AwaitExchange
    case ExchangeRefused => RestartExternalAuth
    case CredentialHeld => CompleteTheInstall
    case InstallDone => NothingToDo case Active => NothingToDo
    case InstallRefused => CreateNewIntent
  }

  lemma ActionExactlyWhen(s: ProgressStatus, denied: bool, a: NextAction)
    ensures NextOf(s, denied) == a <==> ActionMeans(s, denied, a)
  {
  }

  function Time<T>(r: Option<Latest<T>>): seq<string> { if r.Some? then [r.value.updatedAt] else [] }

  function Times(r: Records): seq<string> {
    [r.intent.updatedAt] + Time(r.session) + Time(r.preview) + Time(r.preflight) + Time(r.exchange) + Time(r.completion) + Time(r.installation)
  }

  /** One of the times, and none is greater. */
  ghost predicate IsGreatest(t: string, times: seq<string>) {
    t in times && forall u :: u in times ==> !Less(t, u)
  }

  function Later<T>(t: string, r: Option<Latest<T>>): string { if r.Some? then LaterWireTime(t, r.value.updatedAt) else t }

  lemma LaterIsGreatest<T>(t: string, times: seq<string>, r: Option<Latest<T>>)
    requires IsGreatest(t, times)
    ensures IsGreatest(Later(t, r), times + Time(r))
  {
    if r.Some? {
      var u := r.value.updatedAt;
      NotLessSelf(u);
      forall v | v in times && Less(t, u) ensures !Less(u, v) {
        if Less(u, v) { LessIsTransitive(t, u, v); }
      }
    }
  }

  function HandoffUpdate(r: Records): string { Later(Later(r.intent.updatedAt, r.session), r.preview) }

  function ExchangeUpdate(r: Records): string { Later(Later(HandoffUpdate(r), r.preflight), r.exchange) }

  function LastUpdate(r: Records): string { Later(Later(ExchangeUpdate(r), r.completion), r.installation) }

  lemma LastUpdateIsGreatest(r: Records)
    ensures IsGreatest(LastUpdate(r), Times(r))
  {
    var t, times := r.intent.updatedAt, [r.intent.updatedAt];
    NotLessSelf(t);
    LaterIsGreatest(t, times, r.session);
    t, times := Later(t, r.session), times + Time(r.session);
    LaterIsGreatest(t, times, r.preview);
    t, times := Later(t, r.preview), times + Time(r.preview);
    LaterIsGreatest(t, times, r.preflight);
    t, times := Later(t, r.preflight), times + Time(r.preflight);
    LaterIsGreatest(t, times, r.exchange);
    t, times := Later(t, r.exchange), times + Time(r.exchange);
    LaterIsGreatest(t, times, r.completion);
    t, times := Later(t, r.completion), times + Time(r.completion);
    LaterIsGreatest(t, times, r.installation);
  }

  ghost predicate HandoffRefs(r: Records, p: Progress) {
    && p.handoff == (if r.session.Some? then Some(r.session.value.row.state) else None)
    && p.preview == (if r.preview.Some? then Some(r.preview.value.row.ref) else None)
  }

  ghost predicate ExchangeRefs(r: Records, p: Progress) {
    && p.preflight == (if r.preflight.Some? then Some(r.preflight.value.row.ref) else None)
    && p.exchange == (if r.exchange.Some? then Some(r.exchange.value.row.ref) else None)
  }

  /** The summary names every record it was read from, and no other. */
  ghost predicate Refs(r: Records, p: Progress) {
    && HandoffRefs(r, p) && ExchangeRefs(r, p)
    && p.completion == (if r.completion.Some? then Some(r.completion.value.row.ref) else None)
    && p.installation == (if r.installation.Some? then Some(r.installation.value.row.ref) else None)
  }

  /** The summary from the intent and the handoff alone. */
  method HandoffProgress(r: Records, now: int) returns (p: Progress)
    ensures p.status == HandoffStatus(r, now) && p.next == NextOf(p.status, false)
    ensures p.descriptorAvailable <==> r.intent.row.status == RequiresExternalAuth
    ensures p.updatedAt == HandoffUpdate(r)
    ensures HandoffRefs(r, p) && p.preflight.None? && p.exchange.None? && p.completion.None? && p.installation.None?
  {
    var intent := r.intent.row;
    p := Progress(StillPending, StartExternalAuth, false, r.intent.updatedAt, None, None, None, None, None, None);
    if intent.status == Installed { p := p.(status := InstallDone, next := NothingToDo); }
    if intent.status == Blocked { p := p.(status := InstallRefused, next := CreateNewIntent); }
    if intent.status == RequiresExternalAuth { p := p.(status := AuthReady, descriptorAvailable := true, next := ReadTheDescriptor); }
    if r.session.Some? {
      var session := r.session.value;
      p := p.(handoff := Some(session.row.state), status := HandoffReady, next := PreviewAuth,
              updatedAt := LaterWireTime(p.updatedAt, session.updatedAt));
      if session.row.session.consumedAt.Some? {
        p := p.(status := HandoffConsumed, next := RecordCallback);
      } else if !(session.row.session.expiresAt > now) {
        p := p.(status := HandoffExpired, next := ReadTheDescriptor);
      }
    }
    if r.preview.Some? {
      var preview := r.preview.value;
      p := p.(preview := Some(preview.row.ref), status := PreviewRecorded, next := RecordCallback,
              updatedAt := LaterWireTime(p.updatedAt, preview.updatedAt));
    }
  }

  predicate DeniedCallback(r: Records) { r.preflight.Some? && r.preflight.value.row.status == Denied }

  /** The summary up to the provider exchange. */
  method ExchangeProgress(r: Records, now: int) returns (p: Progress)
    ensures p.status == OpenStatus(r, now) && p.next == NextOf(p.status, DeniedCallback(r))
    ensures p.descriptorAvailable <==> r.intent.row.status == RequiresExternalAuth
    ensures p.updatedAt == ExchangeUpdate(r)
    ensures HandoffRefs(r, p) && ExchangeRefs(r, p) && p.completion.None? && p.installation.None?
  {
    p := HandoffProgress(r, now);
    if r.preflight.Some? {
      var preflight := r.preflight.value;
      p := p.(preflight := Some(preflight.row.ref), status := CallbackRecorded, next := AwaitExchange,
              updatedAt := LaterWireTime(p.updatedAt, preflight.updatedAt));
      if preflight.row.status == Denied { p := p.(next := RestartExternalAuth); }
    }
    if r.exchange.Some? {
      var exchange := r.exchange.value;
      p := p.(exchange := Some(exchange.row.ref), status := ExchangeQueued, next := AwaitExchange,
              updatedAt := LaterWireTime(p.updatedAt, exchange.updatedAt));
      if exchange.row.status == ExchangeBlocked { p := p.(status := ExchangeRefused, next := RestartExternalAuth); }
      if exchange.row.status == CredentialReady { p := p.(status := CredentialHeld, next := CompleteTheInstall); }
    }
  }

  /** The summary up to the end of the install. */
  method CompletionProgress(r: Records, now: int) returns (p: Progress)
    ensures p.status == EndStatus(r, now) && p.next == NextOf(p.status, DeniedCallback(r))
    ensures p.descriptorAvailable <==> r.intent.row.status == RequiresExternalAuth
    ensures p.updatedAt == Later(ExchangeUpdate(r), r.completion)
    ensures HandoffRefs(r, p) && ExchangeRefs(r, p) && p.installation.None?
    ensures p.completion == if r.completion.Some? then Some(r.completion.value.row.ref) else None
  {
    var intent := r.intent.row;
    p := ExchangeProgress(r, now);
    if r.completion.Some? {
      var completion := r.completion.value;
      p := p.(completion := Some(completion.row.ref), status := InstallDone, next := NothingToDo,
              updatedAt := LaterWireTime(p.updatedAt, completion.updatedAt));
      if completion.row.status == Blocked { p := p.(status := InstallRefused, next := CreateNewIntent); }
    } else {
      if intent.status == Installed { p := p.(status := InstallDone, next := NothingToDo); }
      if intent.status == Blocked { p := p.(status := InstallRefused, next := CreateNewIntent); }
    }
  }

  method NewAppInstallProgress(r: Records, now: int) returns (p: Progress)
    ensures p.status == StatusOf(r, now) && p.next == NextOf(p.status, DeniedCallback(r))
    ensures StatusMeans(r, now, p.status) && ActionMeans(p.status, r.preflight.Some? && r.preflight.value.row.status == Denied, p.next)
    ensures p.descriptorAvailable <==> r.intent.row.status == RequiresExternalAuth
    ensures IsGreatest(p.updatedAt, Times(r))
    ensures Refs(r, p)
  {
    p := CompletionProgress(r, now);
    if r.installation.Some? {
      var installation := r.installation.value;
      p := p.(installation := Some(installation.row.ref), status := Active, next := NothingToDo,
              updatedAt := LaterWireTime(p.updatedAt, installation.updatedAt));
    }
    LastUpdateIsGreatest(r);
    StatusExactlyWhen(r, now, p.status);
    ActionExactlyWhen(p.status, DeniedCallback(r), p.next);
  }

  // ---------- the instants behind the wire times ----------

  ghost predicate AllInYears(instants: seq<int>) { forall t :: t in instants ==> InYears(t) }

  ghost predicate Written(times: seq<string>, instants: seq<int>, wire: int -> string) {
    |times| == |instants| && forall i :: 0 <= i < |times| ==> times[i] == wire(instants[i])
  }

  /** The greatest of the wire strings of some instants is that of the latest instant. */
  lemma UpdatedAtIsTheLatestInstant(t: string, times: seq<string>, instants: seq<int>, wire: int -> string) returns (latest: int)
    requires Written(times, instants, wire) && IsGreatest(t, times) && Renders(wire) && AllInYears(instants)
    ensures latest in instants && t == wire(latest) && forall u :: u in instants ==> u <= latest
  {
    var n :| 0 <= n < |times| && times[n] == t;
    latest := instants[n];
    forall u | u in instants ensures u <= latest {
      var i :| 0 <= i < |instants| && instants[i] == u;
      assert times[i] in times;
      RenderedCompare(wire, latest, u);
    }
  }

  // ---------- progress never goes back ----------

  /** The scans found a record of each kind exactly when the tables hold one for this intent. */
  ghost predicate ReadFrom(db: Db, user: int, intent: Ref, r: Records) {
    && intent in db.intents && db.intents[intent] == r.intent.row
    && (r.session.Some? <==> exists k :: k in db.sessions && db.sessions[k].intent == intent && db.sessions[k].user == user)
    && (r.preview.Some? <==> exists k :: k in db.previews && db.previews[k].intent == intent && db.previews[k].user == user)
    && (r.preflight.Some? <==> exists k :: k in db.preflights && db.preflights[k].intent == intent && db.preflights[k].user == user)
    && (r.exchange.Some? <==> exists k :: k in db.exchanges && db.exchanges[k].intent == intent && db.exchanges[k].user == user)
    && (r.completion.Some? <==> exists k :: k in db.completions && db.completions[k].intent == intent && db.completions[k].user == user)
    && (r.installation.Some? <==> exists k :: k in db.installations && db.installations[k].intent == intent && db.installations[k].user == user)
  }

  ghost predicate Accumulate(r: Records, r': Records) {
    && StatusPath(r.intent.row.status, r'.intent.row.status)
    && (r.session.Some? ==> r'.session.Some?) && (r.preview.Some? ==> r'.preview.Some?) && (r.preflight.Some? ==> r'.preflight.Some?)
    && (r.exchange.Some? ==> r'.exchange.Some?) && (r.completion.Some? ==> r'.completion.Some?)
    && (r.installation.Some? ==> r'.installation.Some?)
  }

  lemma RecordsAccumulate(db: Db, db': Db, user: int, intent: Ref, r: Records, r': Records)
    requires Evolves(db, db') && ReadFrom(db, user, intent, r) && ReadFrom(db', user, intent, r')
    ensures Accumulate(r, r')
  {
  }

  lemma MoreRecordsHigherRank(r: Records, r': Records, now: int, now': int)
    requires Accumulate(r, r')
    ensures Rank(StatusOf(r, now)) <= Rank(StatusOf(r', now'))
  {
  }

  /** Under any interleaving, whenever progress is read and however the clocks stand, a later
      reading is never at an earlier stage. */
  lemma ProgressNeverGoesBack(cat: Catalog, trace: seq<Label>, more: seq<Label>, user: int, intent: Ref, r: Records, r': Records, now: int, now': int)
    requires Exec(cat, trace + more).Some? && Exec(cat, trace).Some?
    requires ReadFrom(Exec(cat, trace).value.db, user, intent, r) && ReadFrom(Exec(cat, trace + more).value.db, user, intent, r')
    ensures Rank(StatusOf(r, now)) <= Rank(StatusOf(r', now'))
  {
    RunsEvolve(cat, trace, more);
    RecordsAccumulate(Exec(cat, trace).value.db, Exec(cat, trace + more).value.db, user, intent, r, r');
    MoreRecordsHigherRank(r, r', now, now');
  }
}
