/** The Store's cache for a loaded user beside the tables it caches. */
module CalendarCache {
  import opened Lib
  import opened SortedRows
  import opened CalendarTables
  import opened CalendarSync
  import opened CalendarHistory

  function ConnectionKey(c: Connection): Ref { c.ref }
  function CalendarKey(c: Calendar): Ref { c.ref }
  function SelectedKey(s: Selected): Ref { s.ref }

  datatype Cache = Cache(connections: seq<Connection>, catalog: seq<Calendar>, selected: seq<Selected>, destination: Option<Ref>)

  const EMPTY_CACHE := Cache([], [], [], None)

  // ---------- what the Store does to its cache ----------

  /** What the refresh makes of one selected calendar. */
  function Fresh(catalog: seq<Calendar>, s: Selected): seq<Selected> {
    match Find(catalog, CalendarKey, s.ref)
    case None => []
    case Some(c) => [ToSelected(c)]
  }

  /** Selected calendars still in the catalog, as the catalog now describes them. */
  function RefreshSelected(selected: seq<Selected>, catalog: seq<Calendar>): seq<Selected>
    decreases |selected|
  {
    if selected == [] then []
    else
      RefreshSelected(selected[..|selected| - 1], catalog) + Fresh(catalog, selected[|selected| - 1])
  }

  function CacheSync(m: Cache, conns: seq<Connection>, cal: seq<Calendar>): Cache {
    var catalog := SortBy(cal, CalendarKey);
    Cache(SortBy(conns, ConnectionKey), catalog, RefreshSelected(m.selected, catalog),
          if m.destination.Some? && Find(catalog, CalendarKey, m.destination.value).None? then None else m.destination)
  }

  function Replaced(selected: seq<Selected>, s: Selected): seq<Selected>
    decreases |selected|
  {
    if selected == [] then [s]
    else if selected[0].ref == s.ref then [s] + selected[1..]
    else [selected[0]] + Replaced(selected[1..], s)
  }

  function CacheSelect(m: Cache, s: Selected): Cache { m.(selected := SortBy(Replaced(m.selected, s), SelectedKey)) }

  function Without(selected: seq<Selected>, ref: Ref): seq<Selected>
    decreases |selected|
  {
    if selected == [] then []
    else Without(selected[..|selected| - 1], ref) + if selected[|selected| - 1].ref == ref then [] else [selected[|selected| - 1]]
  }

  function CacheDeselect(m: Cache, ref: Ref, cleared: bool): Cache {
    m.(selected := Without(m.selected, ref), destination := if cleared then None else m.destination)
  }

  predicate MatchesCached(connections: seq<Connection>, u: Update) {
    var c := Find(connections, ConnectionKey, u.connection);
    c.Some? && c.value.provider == u.provider && c.value.accountRef == u.accountRef
  }

  ghost predicate ValidAgainst(connections: seq<Connection>, updates: seq<Update>) {
    ValidUpdates(updates) && forall u :: u in updates ==> MatchesCached(connections, u)
  }

  // ---------- calls ----------

  datatype Op =
    | Sync(conns: seq<Connection>, cal: seq<Calendar>)
    | Refresh(updates: seq<Update>, checkedAt: string)
    | Select(ref: Ref)
    | Deselect(ref: Ref)
    | SetDestination(ref: Ref)
    | ReadDestination

  const SYNC_REASON := "provider_catalog_sync"
  const REFRESH_REASON := "provider_status_refresh"

  /** The tables, the cache, and the status each connection was last inserted with. */
  datatype World = World(db: Db, cache: Cache, inserted: map<Ref, string>)

  ghost function ReadConnections(db: Db): seq<Connection> { ReadTable(db.connections, ConnectionKey) }
  ghost function ReadCatalog(db: Db): seq<Calendar> { ReadTable(db.catalog, CalendarKey) }
  ghost function ReadSelected(db: Db): seq<Selected> { ReadTable(db.selected, SelectedKey) }

  ghost function LoadedCache(db: Db): Cache { Cache(ReadConnections(db), ReadCatalog(db), ReadSelected(db), db.destination) }

  /** Whether a call is accepted. */
  ghost predicate Accepts(w: World, op: Op) {
    match op
    case Sync(conns, cal) => ValidCatalog(conns, cal) && SyncTx(w.db, conns, cal, SYNC_REASON).Some?
    case Refresh(updates, checkedAt) =>
      ValidAgainst(w.cache.connections, updates) && RefreshTx(w.db, updates, checkedAt, REFRESH_REASON).Some?
    case Select(ref) =>
      var c := Find(w.cache.catalog, CalendarKey, ref);
      ref != "" && c.Some? && SelectTx(w.db, ToSelected(c.value)).Some?
    case Deselect(ref) => ref != ""
    case SetDestination(ref) => ref != "" && SetDestinationTx(w.db, ref).Some?
    case ReadDestination => true
  }

  ghost function Step(w: World, op: Op): World {
    if !Accepts(w, op) then w
    else
      match op
      case Sync(conns, cal) =>
        var db := SyncTx(w.db, conns, cal, SYNC_REASON).value;
        World(db, CacheSync(w.cache, ReadConnections(db), ReadCatalog(db)), InsertedBySync(w.db, conns, db, w.inserted))
      case Refresh(updates, checkedAt) =>
        if updates == [] then w
        else
          var db := RefreshTx(w.db, updates, checkedAt, REFRESH_REASON).value;
          w.(db := db, cache := w.cache.(connections := SortBy(ReadConnections(db), ConnectionKey)))
      case Select(ref) =>
        var s := ToSelected(Find(w.cache.catalog, CalendarKey, ref).value);
        w.(db := SelectTx(w.db, s).value, cache := CacheSelect(w.cache, s))
      case Deselect(ref) =>
        var removed := ref in w.db.selected || Find(w.cache.selected, SelectedKey, ref).Some?;
        w.(db := DeselectTx(w.db, ref), cache := CacheDeselect(w.cache, ref, removed && w.db.destination == Some(ref)))
      case SetDestination(ref) => w.(db := SetDestinationTx(w.db, ref).value, cache := w.cache.(destination := Some(ref)))
      case ReadDestination =>
        if w.cache.destination.Some? && Find(w.cache.selected, SelectedKey, w.cache.destination.value).None?
        then w.(cache := w.cache.(destination := None)) else w
  }

  ghost predicate WorldOk(w: World) {
    Inv(w.db) && w.cache == LoadedCache(w.db) && Paths(w.db, w.inserted)
  }

  // ---------- each cache operation reads as the tables ----------

  lemma LoadedReads(db: Db)
    requires Inv(db)
    ensures Reads(ReadConnections(db), db.connections, ConnectionKey) && Keyed(db.connections, ConnectionKey)
    ensures Reads(ReadCatalog(db), db.catalog, CalendarKey) && Keyed(db.catalog, CalendarKey)
    ensures Reads(ReadSelected(db), db.selected, SelectedKey) && Keyed(db.selected, SelectedKey)
  {
    ReadTableReads(db.connections, ConnectionKey);
    ReadTableReads(db.catalog, CalendarKey);
    ReadTableReads(db.selected, SelectedKey);
  }

  lemma {:induction false} RefreshMembers(selected: seq<Selected>, catalog: seq<Calendar>)
    ensures forall x :: x in RefreshSelected(selected, catalog) <==> exists i :: 0 <= i < |selected| && x in Fresh(catalog, selected[i])
    decreases |selected|
  {
    if selected != [] { RefreshMembers(selected[..|selected| - 1], catalog); }
  }

  lemma FreshKeepsRef(catalog: seq<Calendar>, s: Selected)
    ensures forall x :: x in Fresh(catalog, s) ==> x.ref == s.ref
  {
    FindFinds(catalog, CalendarKey, s.ref);
  }

  lemma {:induction false} RefreshKeepsOrder(selected: seq<Selected>, catalog: seq<Calendar>)
    requires StrictlySorted(selected, SelectedKey)
    ensures StrictlySorted(RefreshSelected(selected, catalog), SelectedKey)
    decreases |selected|
  {
    if selected != [] {
      var init, last := selected[..|selected| - 1], selected[|selected| - 1];
      RefreshKeepsOrder(init, catalog);
      RefreshMembers(init, catalog);
      FreshKeepsRef(catalog, last);
      var r := RefreshSelected(init, catalog);
      forall k | 0 <= k < |r| ensures Less(SelectedKey(r[k]), SelectedKey(last)) {
        assert r[k] in r;
        var i :| 0 <= i < |init| && r[k] in Fresh(catalog, init[i]);
        FreshKeepsRef(catalog, init[i]);
        assert Less(SelectedKey(selected[i]), SelectedKey(last));
      }
      SortedWithLast(r, Fresh(catalog, last), last.ref);
    }
  }

  lemma SortedWithLast(r: seq<Selected>, one: seq<Selected>, ref: Ref)
    requires StrictlySorted(r, SelectedKey) && |one| <= 1 && forall x :: x in one ==> x.ref == ref
    requires forall k :: 0 <= k < |r| ==> Less(SelectedKey(r[k]), ref)
    ensures StrictlySorted(r + one, SelectedKey)
  {
  }

  lemma FindsAll(rows: seq<Calendar>, table: map<Ref, Calendar>)
    requires Reads(rows, table, CalendarKey) && Keyed(table, CalendarKey)
    ensures forall ref :: Find(rows, CalendarKey, ref) == if ref in table then Some(table[ref]) else None
  {
    forall ref ensures Find(rows, CalendarKey, ref) == if ref in table then Some(table[ref]) else None {
      FindReads(rows, table, CalendarKey, ref);
    }
  }

  /** The in-place refresh of the cached selection computes what the refreshed rows read as. */
  lemma RefreshReads(db: Db, db': Db)
    requires Inv(db) && Inv(db') && db'.selected.Keys == db.selected.Keys * db'.catalog.Keys
    ensures RefreshSelected(ReadSelected(db), ReadCatalog(db')) == ReadSelected(db')
  {
    LoadedReads(db);
    LoadedReads(db');
    FindsAll(ReadCatalog(db'), db'.catalog);
    RefreshedRows(ReadSelected(db), db.selected, ReadCatalog(db'), db'.catalog, db'.selected);
    ReadsIsReadTable(RefreshSelected(ReadSelected(db), ReadCatalog(db')), db'.selected, SelectedKey);
  }

  lemma RefreshedRows(rows: seq<Selected>, table: map<Ref, Selected>, catalog: seq<Calendar>, calendars: map<Ref, Calendar>, table': map<Ref, Selected>)
    requires Reads(rows, table, SelectedKey) && Keyed(table, SelectedKey) && Keyed(calendars, CalendarKey)
    requires forall ref :: Find(catalog, CalendarKey, ref) == if ref in calendars then Some(calendars[ref]) else None
    requires table'.Keys == table.Keys * calendars.Keys && Snapshots(calendars, table')
    ensures Reads(RefreshSelected(rows, catalog), table', SelectedKey)
  {
    var now := RefreshSelected(rows, catalog);
    RefreshKeepsOrder(rows, catalog);
    RefreshMembers(rows, catalog);
    forall i | 0 <= i < |now| ensures SelectedKey(now[i]) in table' && table'[SelectedKey(now[i])] == now[i] {
      assert now[i] in now;
      var j :| 0 <= j < |rows| && now[i] in Fresh(catalog, rows[j]);
      assert SelectedKey(rows[j]) in table && CalendarKey(calendars[rows[j].ref]) == rows[j].ref;
    }
    forall k | k in table' ensures table'[k] in now {
      assert table[k] in rows && SelectedKey(table[k]) == k;
      var i :| 0 <= i < |rows| && rows[i] == table[k];
      assert Find(catalog, CalendarKey, rows[i].ref) == Some(calendars[k]);
      assert table'[k] in Fresh(catalog, rows[i]);
    }
  }

  lemma SyncKeepsCache(db: Db, db': Db)
    requires Inv(db) && Inv(db') && db'.selected.Keys == db.selected.Keys * db'.catalog.Keys
    requires db'.destination == if db.destination.Some? && db.destination.value in db'.catalog then db.destination else None
    ensures CacheSync(LoadedCache(db), ReadConnections(db'), ReadCatalog(db')) == LoadedCache(db')
  {
    LoadedReads(db');
    SortOfReading(ReadConnections(db'), db'.connections, ConnectionKey);
    SortOfReading(ReadCatalog(db'), db'.catalog, CalendarKey);
    RefreshReads(db, db');
    if db.destination.Some? { FindReads(ReadCatalog(db'), db'.catalog, CalendarKey, db.destination.value); }
  }

  lemma {:induction false} ReplacedMembers(rows: seq<Selected>, s: Selected)
    requires DistinctKeys(rows, SelectedKey)
    ensures forall x :: x in Replaced(rows, s) <==> x == s || (x in rows && x.ref != s.ref)
    decreases |rows|
  {
    if rows != [] {
      RestOf(rows);
      RestIsDistinct(rows);
      if rows[0].ref != s.ref { ReplacedMembers(rows[1..], s); }
    }
  }

  lemma RestIsDistinct(rows: seq<Selected>)
    requires DistinctKeys(rows, SelectedKey) && rows != []
    ensures DistinctKeys(rows[1..], SelectedKey) && forall x :: x in rows[1..] ==> x.ref != rows[0].ref
  {
    forall x | x in rows[1..] ensures x.ref != rows[0].ref {
      var i :| 0 <= i < |rows[1..]| && rows[1..][i] == x;
      assert SelectedKey(rows[0]) != SelectedKey(rows[i + 1]);
    }
    forall i, j | 0 <= i < j < |rows[1..]| ensures SelectedKey(rows[1..][i]) != SelectedKey(rows[1..][j]) {
      assert SelectedKey(rows[i + 1]) != SelectedKey(rows[j + 1]);
    }
  }

  lemma PutInFront(x: Selected, rest: seq<Selected>)
    requires DistinctKeys(rest, SelectedKey) && forall y :: y in rest ==> y.ref != x.ref
    ensures DistinctKeys([x] + rest, SelectedKey)
  {
  }

  lemma {:induction false} ReplacedStaysDistinct(rows: seq<Selected>, s: Selected)
    requires DistinctKeys(rows, SelectedKey)
    ensures DistinctKeys(Replaced(rows, s), SelectedKey)
    decreases |rows|
  {
    if rows != [] {
      RestIsDistinct(rows);
      if rows[0].ref == s.ref {
        PutInFront(s, rows[1..]);
      } else {
        ReplacedStaysDistinct(rows[1..], s);
        ReplacedMembers(rows[1..], s);
        PutInFront(rows[0], Replaced(rows[1..], s));
      }
    }
  }

  lemma SelectReads(db: Db, s: Selected)
    requires Inv(db)
    ensures SortBy(Replaced(ReadSelected(db), s), SelectedKey) == ReadTable(db.selected[s.ref := s], SelectedKey)
  {
    LoadedReads(db);
    ReadsLists(ReadSelected(db), db.selected, SelectedKey);
    ListedRows(ReadSelected(db), db.selected, s);
    var items, table := Replaced(ReadSelected(db), s), db.selected[s.ref := s];
    SortReads(items, table, SelectedKey);
    ReadsIsReadTable(SortBy(items, SelectedKey), table, SelectedKey);
  }

  lemma ListedRows(rows: seq<Selected>, table: map<Ref, Selected>, s: Selected)
    requires Lists(rows, table, SelectedKey) && Keyed(table, SelectedKey)
    ensures Lists(Replaced(rows, s), table[s.ref := s], SelectedKey) && Keyed(table[s.ref := s], SelectedKey)
  {
    ReplacedStaysDistinct(rows, s);
    ReplacedMembers(rows, s);
    forall k | k in table && k != s.ref ensures table[k] in Replaced(rows, s) {
      assert table[k] in rows && SelectedKey(table[k]) == k;
    }
  }

  lemma {:induction false} WithoutRows(rows: seq<Selected>, ref: Ref)
    requires StrictlySorted(rows, SelectedKey)
    ensures StrictlySorted(Without(rows, ref), SelectedKey)
    ensures forall x :: x in Without(rows, ref) <==> x in rows && x.ref != ref
    decreases |rows|
  {
    if rows != [] {
      var init, last := rows[..|rows| - 1], rows[|rows| - 1];
      assert rows == init + [last];
      WithoutRows(init, ref);
      var r := Without(init, ref);
      forall k | 0 <= k < |r| ensures Less(SelectedKey(r[k]), SelectedKey(last)) {
        assert r[k] in r;
        var i :| 0 <= i < |init| && init[i] == r[k];
        assert rows[i] == r[k];
      }
    }
  }

  lemma DeselectReads(db: Db, ref: Ref)
    requires Inv(db)
    ensures Without(ReadSelected(db), ref) == ReadTable(db.selected - {ref}, SelectedKey)
  {
    LoadedReads(db);
    var rows, table := ReadSelected(db), db.selected - {ref};
    WithoutRows(rows, ref);
    var r := Without(rows, ref);
    forall i | 0 <= i < |r| ensures SelectedKey(r[i]) in table && table[SelectedKey(r[i])] == r[i] {
      assert r[i] in r;
      var j :| 0 <= j < |rows| && rows[j] == r[i];
      assert SelectedKey(rows[j]) in db.selected;
    }
    forall k | k in table ensures table[k] in r { assert SelectedKey(db.selected[k]) == k && db.selected[k] in rows; }
    ReadsIsReadTable(r, table, SelectedKey);
  }

  // ---------- every call ----------

  lemma {:induction false} RefreshedTables(db: Db, updates: seq<Update>, checkedAt: string, reason: string)
    requires Inv(db) && RefreshTx(db, updates, checkedAt, reason).Some?
    ensures var db' := RefreshTx(db, updates, checkedAt, reason).value;
      Inv(db') && db'.catalog == db.catalog && db'.selected == db.selected && db'.destination == db.destination
    decreases |updates|
  {
    if updates != [] { RefreshedTables(db, updates[..|updates| - 1], checkedAt, reason); }
  }

  /** What passes the check against the cache passes the transaction's own check. */
  lemma {:induction false} CachedCheckSuffices(db: Db, connections: seq<Connection>, updates: seq<Update>, checkedAt: string, reason: string)
    requires Reads(connections, db.connections, ConnectionKey) && Keyed(db.connections, ConnectionKey)
    requires forall u :: u in updates ==> MatchesCached(connections, u)
    ensures RefreshTx(db, updates, checkedAt, reason).Some?
    decreases |updates|
  {
    if updates != [] {
      var init, u := updates[..|updates| - 1], updates[|updates| - 1];
      assert updates == init + [u];
      CachedCheckSuffices(db, connections, init, checkedAt, reason);
      assert MatchesCached(connections, u);
      FindReads(connections, db.connections, ConnectionKey, u.connection);
    }
  }

  /** Exactly when a call on a loaded Store is accepted: the tables refuse nothing that the cache
      let through, except a sync that is blocked by the unique index. */
  lemma AcceptedExactlyWhen(w: World, op: Op)
    requires WorldOk(w)
    ensures Accepts(w, op) <==>
      match op
      case Sync(conns, cal) => ValidCatalog(conns, cal) && !Blocked(w.db.catalog, cal)
      case Refresh(updates, _) => ValidAgainst(w.cache.connections, updates)
      case Select(ref) => ref in w.db.catalog
      case Deselect(ref) => ref != ""
      case SetDestination(ref) => ref in w.db.selected
      case ReadDestination => true
  {
    LoadedReads(w.db);
    match op
    case Sync(conns, cal) => if ValidCatalog(conns, cal) { SyncSucceedsUnlessBlocked(w.db, conns, cal, SYNC_REASON); }
    case Refresh(updates, checkedAt) =>
      if ValidAgainst(w.cache.connections, updates) { CachedCheckSuffices(w.db, w.cache.connections, updates, checkedAt, REFRESH_REASON); }
    case Select(ref) =>
      FindReads(ReadCatalog(w.db), w.db.catalog, CalendarKey, ref);
      if ref in w.db.catalog { SelectedIndexSilentInPlace(w.db, ref); }
    case _ =>
  }

  lemma SelectedIndexSilentInPlace(db: Db, ref: Ref)
    requires Inv(db) && ref in db.catalog
    ensures SelectTx(db, ToSelected(db.catalog[ref])).Some?
  {
  }

  lemma SyncStepKeeps(w: World, conns: seq<Connection>, cal: seq<Calendar>)
    requires WorldOk(w) && Accepts(w, Sync(conns, cal))
    ensures WorldOk(Step(w, Sync(conns, cal)))
  {
    var db := SyncTx(w.db, conns, cal, SYNC_REASON).value;
    SyncMirrorsTheSnapshot(w.db, conns, cal, SYNC_REASON);
    SyncedKeepsInv(w.db, db, conns, cal);
    SyncKeepsCache(w.db, db);
    SyncExtendsPaths(w.db, conns, cal, SYNC_REASON, w.inserted);
  }

  lemma RefreshStepKeeps(w: World, updates: seq<Update>, checkedAt: string)
    requires WorldOk(w) && Accepts(w, Refresh(updates, checkedAt))
    ensures WorldOk(Step(w, Refresh(updates, checkedAt)))
  {
    var db := RefreshTx(w.db, updates, checkedAt, REFRESH_REASON).value;
    RefreshedTables(w.db, updates, checkedAt, REFRESH_REASON);
    RefreshExtendsPaths(w.db, updates, checkedAt, REFRESH_REASON, w.inserted);
    LoadedReads(db);
    SortOfReading(ReadConnections(db), db.connections, ConnectionKey);
  }

  lemma SamePaths(db: Db, db': Db, inserted: map<Ref, string>)
    requires Paths(db, inserted) && db'.connections == db.connections && db'.history == db.history
    ensures Paths(db', inserted)
  {
  }

  lemma SelectKeepsInv(db: Db, ref: Ref)
    requires Inv(db) && ref in db.catalog
    ensures Inv(db.(selected := db.selected[ref := ToSelected(db.catalog[ref])]))
  {
  }

  lemma DropKeepsInv(db: Db, refs: set<Ref>)
    requires Inv(db)
    ensures Inv(DropSelected(db, refs))
  {
  }

  lemma SelectStepKeeps(w: World, ref: Ref)
    requires WorldOk(w) && ref in w.db.catalog && Accepts(w, Select(ref))
    ensures WorldOk(Step(w, Select(ref)))
  {
    var s := ToSelected(w.db.catalog[ref]);
    SelectedFromCache(w, ref);
    SelectReads(w.db, s);
    SelectKeepsInv(w.db, ref);
    SamePaths(w.db, w.db.(selected := w.db.selected[ref := s]), w.inserted);
  }

  lemma SelectedFromCache(w: World, ref: Ref)
    requires WorldOk(w) && ref in w.db.catalog && Accepts(w, Select(ref))
    ensures var s := ToSelected(w.db.catalog[ref]);
      s.ref == ref && Step(w, Select(ref)) == w.(db := w.db.(selected := w.db.selected[ref := s]), cache := CacheSelect(w.cache, s))
  {
    LoadedReads(w.db);
    FindReads(ReadCatalog(w.db), w.db.catalog, CalendarKey, ref);
  }

  lemma DeselectStepKeeps(w: World, ref: Ref)
    requires WorldOk(w) && Accepts(w, Deselect(ref))
    ensures WorldOk(Step(w, Deselect(ref)))
  {
    DeselectReads(w.db, ref);
    DropKeepsInv(w.db, {ref});
    SamePaths(w.db, DropSelected(w.db, {ref}), w.inserted);
    DeselectedDestination(w.db, ref);
  }

  lemma DeselectedDestination(db: Db, ref: Ref)
    requires Inv(db)
    ensures DropSelected(db, {ref}).destination == if db.destination == Some(ref) then None else db.destination
    ensures db.destination == Some(ref) ==> ref in db.selected
  {
  }

  lemma SetDestinationStepKeeps(w: World, ref: Ref)
    requires WorldOk(w)
    ensures WorldOk(Step(w, SetDestination(ref)))
  {
    SamePaths(w.db, w.db.(destination := Some(ref)), w.inserted);
  }

  /** Reading the destination never finds it missing. */
  lemma ReadStepKeeps(w: World)
    requires WorldOk(w)
    ensures Step(w, ReadDestination) == w
  {
    LoadedReads(w.db);
    if w.db.destination.Some? { FindReads(ReadSelected(w.db), w.db.selected, SelectedKey, w.db.destination.value); }
  }

  /** After every call, accepted or refused, the cache is what loading the tables afresh would give. */
  lemma StepKeeps(w: World, op: Op)
    requires WorldOk(w)
    ensures WorldOk(Step(w, op))
  {
    if Accepts(w, op) {
      match op
      case Sync(conns, cal) => SyncStepKeeps(w, conns, cal);
      case Refresh(updates, checkedAt) => RefreshStepKeeps(w, updates, checkedAt);
      case Select(ref) =>
        AcceptedExactlyWhen(w, op);
        SelectStepKeeps(w, ref);
      case Deselect(ref) => DeselectStepKeeps(w, ref);
      case SetDestination(ref) => SetDestinationStepKeeps(w, ref);
      case ReadDestination => ReadStepKeeps(w);
    }
  }

  ghost function Run(w: World, ops: seq<Op>): World
    decreases |ops|
  {
    if ops == [] then w else Step(Run(w, ops[..|ops| - 1]), ops[|ops| - 1])
  }

  /** For a loaded user and one Store, every run of calls keeps the cached connections, catalog,
      selection and destination equal to what the repository's reads return, every selected
      calendar the snapshot of its catalog entry, the destination among the selected, and each
      connection's history a path from its inserted status to its current one. */
  lemma {:induction false} CacheEqualsTables(w: World, ops: seq<Op>)
    requires WorldOk(w)
    ensures var now := Run(w, ops);
      && now.cache == LoadedCache(now.db)
      && Snapshots(now.db.catalog, now.db.selected)
      && (now.db.destination.Some? ==> now.db.destination.value in now.db.selected)
      && Paths(now.db, now.inserted)
      && WorldOk(now)
    decreases |ops|
  {
    if ops != [] {
      CacheEqualsTables(w, ops[..|ops| - 1]);
      StepKeeps(Run(w, ops[..|ops| - 1]), ops[|ops| - 1]);
    }
  }
}
