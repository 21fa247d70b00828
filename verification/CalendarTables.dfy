/** One user's calendar tables and the repository's transactions on them. Unique indexes and the
    cascades of foreign keys follow the migrations. */
module CalendarTables {
  import opened Lib

  type Ref = string

  datatype Connection = Connection(ref: Ref, provider: string, accountRef: string, accountEmail: string, status: string,
    statusCode: string, checkedAt: string)
  datatype Calendar = Calendar(ref: Ref, connection: Ref, provider: string, externalId: string, name: string, primary: bool, writable: bool)
  datatype Selected = Selected(ref: Ref, provider: string, externalId: string, name: string)
  datatype Update = Update(connection: Ref, provider: string, accountRef: string, status: string, statusCode: string)
  datatype Transition = Transition(connection: Ref, provider: string, previous: string, next: string, reason: string)

  datatype Db = Db(
    connections: map<Ref, Connection>,
    catalog: map<Ref, Calendar>,
    selected: map<Ref, Selected>,
    destination: Option<Ref>,
    history: seq<Transition>)

  const EMPTY_DB := Db(map[], map[], map[], None, [])

  function ToSelected(c: Calendar): Selected { Selected(c.ref, c.provider, c.externalId, c.name) }

  predicate SameExternal(a: Calendar, b: Calendar) { a.provider == b.provider && a.externalId == b.externalId }

  // ---------- what a snapshot must be ----------

  predicate NamedConnection(c: Connection) { "" !in [c.ref, c.provider, c.accountRef, c.accountEmail, c.status] }

  predicate NamedCalendar(c: Calendar) { "" !in [c.ref, c.connection, c.provider, c.externalId, c.name] }

  /** The key under which the validation remembers an external identifier. */
  function ExternalKey(c: Calendar): string { c.provider + "\0" + c.externalId }

  ghost predicate DistinctConnections(conns: seq<Connection>) {
    forall i, j :: 0 <= i < j < |conns| ==> conns[i].ref != conns[j].ref
  }

  ghost predicate DistinctCalendars(cal: seq<Calendar>) {
    forall i, j :: 0 <= i < j < |cal| ==> cal[i].ref != cal[j].ref && ExternalKey(cal[i]) != ExternalKey(cal[j])
  }

  ghost predicate Connected(c: Calendar, conns: seq<Connection>) {
    exists j :: 0 <= j < |conns| && conns[j].ref == c.connection && conns[j].provider == c.provider
  }

  ghost predicate ValidConnections(conns: seq<Connection>) {
    (forall c :: c in conns ==> NamedConnection(c)) && DistinctConnections(conns)
  }

  ghost predicate ValidCalendars(conns: seq<Connection>, cal: seq<Calendar>) {
    (forall c :: c in cal ==> NamedCalendar(c) && Connected(c, conns)) && DistinctCalendars(cal)
  }

  /** A snapshot the sync accepts. */
  ghost predicate ValidCatalog(conns: seq<Connection>, cal: seq<Calendar>) {
    ValidConnections(conns) && ValidCalendars(conns, cal)
  }

  function ConnectionRefs(conns: seq<Connection>): set<Ref> { set c | c in conns :: c.ref }

  function CalendarRefs(cal: seq<Calendar>): set<Ref> { set c | c in cal :: c.ref }

  // ---------- sync ----------

  /** Deleting selected rows deletes the destination that refers to one of them. */
  function DropSelected(db: Db, refs: set<Ref>): Db {
    db.(selected := db.selected - refs,
        destination := if db.destination.Some? && db.destination.value in refs && db.destination.value in db.selected then None else db.destination)
  }

  /** Catalog rows deleted with their selected rows. */
  function DropCalendars(db: Db, refs: set<Ref>): Db { DropSelected(db, refs).(catalog := db.catalog - refs) }

  /** Catalog rows the snapshot no longer names go. */
  function Prune(db: Db, refs: set<Ref>): Db { DropCalendars(db, db.catalog.Keys - refs) }

  /** An upsert keeps the columns it does not name. */
  function Upserted(t: map<Ref, Connection>, c: Connection): Connection {
    c.(statusCode := if c.ref in t then t[c.ref].statusCode else "", checkedAt := if c.ref in t then t[c.ref].checkedAt else "")
  }

  function UpsertConnections(t: map<Ref, Connection>, conns: seq<Connection>): map<Ref, Connection>
    decreases |conns|
  {
    if conns == [] then t
    else
      var t' := UpsertConnections(t, conns[..|conns| - 1]);
      var c := conns[|conns| - 1];
      t'[c.ref := Upserted(t', c)]
  }

  /** The history rows a sync writes: one per connection whose status differs from the stored one. */
  function SyncTransitions(existing: map<Ref, Connection>, conns: seq<Connection>, reason: string): seq<Transition>
    decreases |conns|
  {
    if conns == [] then []
    else
      var c := conns[|conns| - 1];
      SyncTransitions(existing, conns[..|conns| - 1], reason)
      + if c.ref in existing && existing[c.ref].status != c.status
        then [Transition(c.ref, c.provider, existing[c.ref].status, c.status, reason)] else []
  }

  predicate TakenInCatalog(catalog: map<Ref, Calendar>, c: Calendar) {
    exists k :: k in catalog && k != c.ref && SameExternal(catalog[k], c)
  }

  predicate TakenInSelected(selected: map<Ref, Selected>, c: Selected) {
    exists k :: k in selected && k != c.ref && selected[k].provider == c.provider && selected[k].externalId == c.externalId
  }

  /** One upsert after another, each refreshing its selected row; a unique index may stop it. */
  function UpsertCatalog(catalog: map<Ref, Calendar>, selected: map<Ref, Selected>, cal: seq<Calendar>)
    : Option<(map<Ref, Calendar>, map<Ref, Selected>)>
    decreases |cal|
  {
    if cal == [] then Some((catalog, selected))
    else
      match UpsertCatalog(catalog, selected, cal[..|cal| - 1])
      case None => None
      case Some((t, s)) =>
        var c := cal[|cal| - 1];
        if TakenInCatalog(t, c) then None
        else if c.ref in s && TakenInSelected(s, ToSelected(c)) then None
        else Some((t[c.ref := c], if c.ref in s then s[c.ref := ToSelected(c)] else s))
  }

  /** The rows about other connections. */
  function HistoryWithout(h: seq<Transition>, gone: set<Ref>): seq<Transition>
    decreases |h|
  {
    if h == [] then []
    else HistoryWithout(h[..|h| - 1], gone) + if h[|h| - 1].connection in gone then [] else [h[|h| - 1]]
  }

  /** Deleting connections deletes their catalog rows and their history. */
  function DropConnections(db: Db, gone: set<Ref>): Db {
    db.(connections := db.connections - gone,
        catalog := map k | k in db.catalog && db.catalog[k].connection !in gone :: db.catalog[k],
        history := HistoryWithout(db.history, gone))
  }

  /** The transaction that brings the tables to a provider's snapshot, or fails and changes nothing. */
  function SyncTx(db: Db, conns: seq<Connection>, cal: seq<Calendar>, reason: string): Option<Db> {
    var pruned := Prune(db, CalendarRefs(cal));
    match UpsertCatalog(pruned.catalog, pruned.selected, cal)
    case None => None
    case Some((catalog, selected)) =>
      Some(DropConnections(
        pruned.(connections := UpsertConnections(db.connections, conns), history := db.history + SyncTransitions(db.connections, conns, reason),
                catalog := catalog, selected := selected),
        db.connections.Keys - ConnectionRefs(conns)))
  }

  // ---------- the other transactions ----------

  predicate Matches(t: map<Ref, Connection>, u: Update) {
    u.connection in t && t[u.connection].provider == u.provider && t[u.connection].accountRef == u.accountRef
  }

  ghost predicate ValidUpdates(updates: seq<Update>) {
    && (forall u :: u in updates ==> "" !in [u.connection, u.provider, u.accountRef, u.status])
    && forall i, j :: 0 <= i < j < |updates| ==> updates[i].connection != updates[j].connection
  }

  function Refreshed(c: Connection, u: Update, checkedAt: string): Connection {
    c.(status := u.status, statusCode := u.statusCode, checkedAt := checkedAt)
  }

  /** The connection after its update: three columns are the update's, all others as they were. */
  predicate UpdatedTo(was: Connection, now: Connection, u: Update, checkedAt: string) {
    && now.status == u.status && now.statusCode == u.statusCode && now.checkedAt == checkedAt
    && now.ref == was.ref && now.provider == was.provider && now.accountRef == was.accountRef && now.accountEmail == was.accountEmail
  }

  /** Every connection with an update has become what it says; the others are as they were. */
  ghost predicate TableUpdated(was: map<Ref, Connection>, now: map<Ref, Connection>, updates: seq<Update>, checkedAt: string) {
    && now.Keys == was.Keys
    && (forall u :: u in updates ==> u.connection in was && UpdatedTo(was[u.connection], now[u.connection], u, checkedAt))
    && forall k :: k in was && (forall u :: u in updates ==> u.connection != k) ==> now[k] == was[k]
  }

  ghost predicate ListUpdated(was: seq<Connection>, now: seq<Connection>, updates: seq<Update>, checkedAt: string) {
    && |now| == |was|
    && (forall i, u :: 0 <= i < |was| && u in updates && u.connection == was[i].ref ==> UpdatedTo(was[i], now[i], u, checkedAt))
    && forall i :: 0 <= i < |was| && (forall u :: u in updates ==> u.connection != was[i].ref) ==> now[i] == was[i]
  }

  function RefreshTransition(c: Connection, u: Update, reason: string): seq<Transition> {
    if c.status != u.status then [Transition(u.connection, u.provider, c.status, u.status, reason)] else []
  }

  function RefreshTx(db: Db, updates: seq<Update>, checkedAt: string, reason: string): (r: Option<Db>)
    ensures r.Some? ==> r.value.connections.Keys == db.connections.Keys
    decreases |updates|
  {
    if updates == [] then Some(db)
    else
      var u := updates[|updates| - 1];
      match RefreshTx(db, updates[..|updates| - 1], checkedAt, reason)
      case None => None
      case Some(d) =>
        if !Matches(db.connections, u) then None
        else Some(d.(
          connections := d.connections[u.connection := Refreshed(d.connections[u.connection], u, checkedAt)],
          history := d.history + RefreshTransition(db.connections[u.connection], u, reason)))
  }

  function SelectTx(db: Db, s: Selected): Option<Db> {
    if "" in [s.ref, s.provider, s.externalId, s.name] || TakenInSelected(db.selected, s) then None else Some(db.(selected := db.selected[s.ref := s]))
  }

  function DeselectTx(db: Db, ref: Ref): Db { DropSelected(db, {ref}) }

  function SetDestinationTx(db: Db, ref: Ref): Option<Db> {
    if ref in db.selected then Some(db.(destination := Some(ref))) else None
  }

  // ---------- the invariant ----------

  ghost predicate UniqueExternals(catalog: map<Ref, Calendar>) {
    forall j, k :: j in catalog && k in catalog && SameExternal(catalog[j], catalog[k]) ==> j == k
  }

  /** Every selected row is the snapshot of its catalog row. */
  ghost predicate Snapshots(catalog: map<Ref, Calendar>, selected: map<Ref, Selected>) {
    forall k :: k in selected ==> k in catalog && selected[k] == ToSelected(catalog[k])
  }

  ghost predicate Inv(db: Db) {
    && (forall k :: k in db.connections ==> db.connections[k].ref == k)
    && (forall k :: k in db.catalog ==> db.catalog[k].ref == k && NamedCalendar(db.catalog[k]) && db.catalog[k].connection in db.connections)
    && UniqueExternals(db.catalog)
    && Snapshots(db.catalog, db.selected)
    && (db.destination.Some? ==> db.destination.value in db.selected)
  }
}
