/** What each call of the calendar Store does, column by column, to the tables and their cache and
    to a Store in memory; and exactly which snapshots are in order. */
module CalendarCalls {
  import opened Lib
  import opened SortedRows
  import opened CalendarTables
  import opened CalendarSync
  import opened CalendarHistory
  import opened CalendarCache
  import opened CalendarMemory

  // ---------- status refresh ----------

  lemma ListIsUpdated(connections: seq<Connection>, updates: seq<Update>, checkedAt: string)
    requires ValidUpdates(updates)
    ensures ListUpdated(connections, Applied(connections, updates, checkedAt), updates, checkedAt)
  {
    var now := Applied(connections, updates, checkedAt);
    AppliedKeepsRefs(connections, updates, checkedAt);
    forall i | 0 <= i < |connections|
      ensures (forall u :: u in updates && u.connection == connections[i].ref ==> UpdatedTo(connections[i], now[i], u, checkedAt))
      ensures (forall u :: u in updates ==> u.connection != connections[i].ref) ==> now[i] == connections[i]
    {
      AppliedAt(connections, updates, checkedAt, i);
      FoundUpdate(updates, connections[i].ref);
      forall u | u in updates && u.connection == connections[i].ref ensures FindUpdate(updates, connections[i].ref) == Some(u) {
        OneUpdate(updates, u);
      }
    }
  }

  lemma OneUpdate(updates: seq<Update>, u: Update)
    requires ValidUpdates(updates) && u in updates
    ensures FindUpdate(updates, u.connection) == Some(u)
  {
    FoundUpdate(updates, u.connection);
    assert u.connection in UpdatedRefs(updates);
    var i :| 0 <= i < |updates| && updates[i] == u;
    var j :| 0 <= j < |updates| && updates[j] == FindUpdate(updates, u.connection).value;
    assert i == j;
  }

  /** An accepted refresh gives every updated connection, in the tables and in the cache, exactly the
      status, the code and the check time of its update, and touches nothing else. */
  lemma RefreshDoes(w: World, updates: seq<Update>, checkedAt: string)
    requires WorldOk(w) && Accepts(w, Refresh(updates, checkedAt))
    ensures var w' := Step(w, Refresh(updates, checkedAt));
      && TableUpdated(w.db.connections, w'.db.connections, updates, checkedAt)
      && ListUpdated(w.cache.connections, w'.cache.connections, updates, checkedAt)
      && w'.db.catalog == w.db.catalog && w'.db.selected == w.db.selected && w'.db.destination == w.db.destination
  {
    TablesUpdated(w.db, updates, checkedAt, REFRESH_REASON);
    RefreshedTables(w.db, updates, checkedAt, REFRESH_REASON);
    StepKeeps(w, Refresh(updates, checkedAt));
    AppliedReads(w.db, updates, checkedAt, REFRESH_REASON);
    ListIsUpdated(w.cache.connections, updates, checkedAt);
  }

  /** Of an updated connection the history records the change of its status, if there is one. */
  lemma RefreshRecords(w: World, updates: seq<Update>, checkedAt: string, u: Update)
    requires WorldOk(w) && Accepts(w, Refresh(updates, checkedAt)) && u in updates
    ensures u.connection in w.db.connections
    ensures var was := w.db.connections[u.connection].status;
      HistoryOf(Step(w, Refresh(updates, checkedAt)).db.history, u.connection)
      == HistoryOf(w.db.history, u.connection) + if was == u.status then [] else [Transition(u.connection, u.provider, was, u.status, "provider_status_refresh")]
  {
    RefreshWrites(w.db, updates, checkedAt, REFRESH_REASON, u.connection);
  }

  /** So does a refresh in memory. */
  lemma MemoryRefreshDoes(m: Cache, updates: seq<Update>, checkedAt: string)
    requires MemOk(m) && MemAccepts(m, Refresh(updates, checkedAt))
    ensures var m' := MemStep(m, Refresh(updates, checkedAt));
      && ListUpdated(m.connections, m'.connections, updates, checkedAt)
      && m'.catalog == m.catalog && m'.selected == m.selected && m'.destination == m.destination
  {
    SortedStays(m.connections);
    ListIsUpdated(m.connections, updates, checkedAt);
  }

  // ---------- selecting ----------

  /** The selected row that describes a calendar. */
  predicate Describes(s: Selected, c: Calendar) {
    s.ref == c.ref && s.provider == c.provider && s.externalId == c.externalId && s.name == c.name
  }

  /** Only the rows under these references may differ. */
  ghost predicate SameApartFrom<T(!new)>(t: map<Ref, T>, t': map<Ref, T>, ref: Ref) {
    forall k :: k != ref ==> (k in t <==> k in t') && (k in t ==> t'[k] == t[k])
  }

  ghost predicate SameTablesBut(db: Db, db': Db) { db'.connections == db.connections && db'.catalog == db.catalog && db'.history == db.history }

  /** A selected calendar is described as the catalog describes it; the other rows stay. */
  lemma SelectDoes(w: World, ref: Ref)
    requires WorldOk(w) && Accepts(w, Select(ref))
    ensures var db, db' := w.db, Step(w, Select(ref)).db;
      && ref in db.catalog && ref in db'.selected && Describes(db'.selected[ref], db.catalog[ref])
      && SameApartFrom(db.selected, db'.selected, ref) && db'.destination == db.destination && SameTablesBut(db, db')
  {
    AcceptedExactlyWhen(w, Select(ref));
    SelectedFromCache(w, ref);
  }

  /** A deselected calendar is gone, and with it the destination if it was that. */
  lemma DeselectDoes(w: World, ref: Ref)
    requires WorldOk(w) && Accepts(w, Deselect(ref))
    ensures var db, db' := w.db, Step(w, Deselect(ref)).db;
      && ref !in db'.selected && SameApartFrom(db.selected, db'.selected, ref) && SameTablesBut(db, db')
      && db'.destination == if db.destination == Some(ref) then None else db.destination
  {
    DeselectedDestination(w.db, ref);
  }

  lemma SetDestinationDoes(w: World, ref: Ref)
    requires WorldOk(w) && Accepts(w, SetDestination(ref))
    ensures var db, db' := w.db, Step(w, SetDestination(ref)).db;
      && db'.destination == Some(ref) && ref in db'.selected && db'.selected == db.selected && SameTablesBut(db, db')
  {
  }

  lemma MemorySelectDoes(m: Cache, ref: Ref)
    requires MemOk(m) && MemAccepts(m, Select(ref))
    ensures var m' := MemStep(m, Select(ref));
      && (exists s, c :: s in m'.selected && c in m.catalog && c.ref == ref && Describes(s, c))
      && (forall s :: s in m'.selected ==> s in m.selected || s.ref == ref)
      && (forall s :: s in m.selected && s.ref != ref ==> s in m'.selected)
      && m'.connections == m.connections && m'.catalog == m.catalog && m'.destination == m.destination
  {
    var c := Find(m.catalog, CalendarKey, ref).value;
    FindFinds(m.catalog, CalendarKey, ref);
    SortedAreDistinct(m.selected, SelectedKey);
    ReplacedMembers(m.selected, ToSelected(c));
    SortMembers(Replaced(m.selected, ToSelected(c)), SelectedKey);
    assert ToSelected(c) in MemStep(m, Select(ref)).selected && Describes(ToSelected(c), c);
  }

  lemma MemoryDeselectDoes(m: Cache, ref: Ref)
    requires MemOk(m) && MemAccepts(m, Deselect(ref))
    ensures var m' := MemStep(m, Deselect(ref));
      && (forall s :: s in m'.selected <==> s in m.selected && s.ref != ref)
      && m'.destination == (if m.destination == Some(ref) then None else m.destination)
      && m'.connections == m.connections && m'.catalog == m.catalog
  {
    WithoutRows(m.selected, ref);
  }

  lemma MemorySetDestinationDoes(m: Cache, ref: Ref)
    requires MemOk(m)
    ensures MemAccepts(m, SetDestination(ref)) <==> ref != "" && exists s :: s in m.selected && s.ref == ref
    ensures MemAccepts(m, SetDestination(ref)) ==> MemStep(m, SetDestination(ref)) == m.(destination := Some(ref))
  {
    FindFinds(m.selected, SelectedKey, ref);
  }

  // ---------- sync ----------

  /** The columns a sync writes. */
  predicate AsOffered(row: Connection, c: Connection) {
    row.ref == c.ref && row.provider == c.provider && row.accountRef == c.accountRef && row.accountEmail == c.accountEmail && row.status == c.status
  }

  /** The two columns it leaves: as stored, or empty in a new row. */
  predicate ChecksKept(was: map<Ref, Connection>, row: Connection) {
    && row.statusCode == (if row.ref in was then was[row.ref].statusCode else "")
    && row.checkedAt == (if row.ref in was then was[row.ref].checkedAt else "")
  }

  ghost predicate ConnectionsOffered(was: map<Ref, Connection>, now: map<Ref, Connection>, conns: seq<Connection>) {
    && (forall k :: k in now <==> exists c :: c in conns && c.ref == k)
    && forall c :: c in conns ==> c.ref in now && AsOffered(now[c.ref], c) && ChecksKept(was, now[c.ref])
  }

  ghost predicate CalendarsOffered(now: map<Ref, Calendar>, cal: seq<Calendar>) {
    && (forall k :: k in now <==> exists c :: c in cal && c.ref == k)
    && forall c :: c in cal ==> c.ref in now && now[c.ref] == c
  }

  ghost predicate ChoicesKept(db: Db, db': Db) {
    && (forall k :: k in db'.selected <==> k in db.selected && k in db'.catalog)
    && (forall k :: k in db'.selected ==> Describes(db'.selected[k], db'.catalog[k]))
    && db'.destination == if db.destination.Some? && db.destination.value in db'.catalog then db.destination else None
  }

  lemma MirroredConnections(was: map<Ref, Connection>, now: map<Ref, Connection>, conns: seq<Connection>)
    requires MirrorsConnections(was, now, conns)
    ensures ConnectionsOffered(was, now, conns)
  {
    forall k ensures k in ConnectionRefs(conns) <==> exists c :: c in conns && c.ref == k {}
  }

  lemma MirroredCalendars(now: map<Ref, Calendar>, cal: seq<Calendar>)
    requires MirrorsCatalog(now, cal)
    ensures CalendarsOffered(now, cal)
  {
    forall k ensures k in CalendarRefs(cal) <==> exists c :: c in cal && c.ref == k {}
  }

  lemma KeptChoices(db: Db, db': Db, conns: seq<Connection>, cal: seq<Calendar>)
    requires Inv(db') && Synced(db, db', conns, cal)
    ensures ChoicesKept(db, db')
  {
  }

  /** After an accepted sync the tables hold the snapshot's connections and calendars and no others,
      each as offered; of the selected calendars those still offered, as they are now described; and
      the destination if it is still offered. */
  lemma SyncDoes(w: World, conns: seq<Connection>, cal: seq<Calendar>)
    requires WorldOk(w) && Accepts(w, Sync(conns, cal))
    ensures var db, db' := w.db, Step(w, Sync(conns, cal)).db;
      ConnectionsOffered(db.connections, db'.connections, conns) && CalendarsOffered(db'.catalog, cal) && ChoicesKept(db, db')
  {
    var db' := SyncTx(w.db, conns, cal, SYNC_REASON).value;
    SyncMirrorsTheSnapshot(w.db, conns, cal, SYNC_REASON);
    SyncedKeepsInv(w.db, db', conns, cal);
    MirroredConnections(w.db.connections, db'.connections, conns);
    MirroredCalendars(db'.catalog, cal);
    KeptChoices(w.db, db', conns, cal);
  }

  /** Of a stored connection that is offered again the history records the change of its status; of
      one that is not offered any more it keeps nothing, and of a new one it has nothing. */
  lemma SyncRecords(w: World, conns: seq<Connection>, cal: seq<Calendar>, c: Ref)
    requires WorldOk(w) && Accepts(w, Sync(conns, cal))
    ensures var was, now := HistoryOf(w.db.history, c), HistoryOf(Step(w, Sync(conns, cal)).db.history, c);
      && (forall i :: 0 <= i < |conns| && conns[i].ref == c && c in w.db.connections ==>
            var before := w.db.connections[c].status;
            now == was + if before == conns[i].status then [] else [Transition(c, conns[i].provider, before, conns[i].status, "provider_catalog_sync")])
      && (c !in w.db.connections ==> now == [])
      && ((forall i :: 0 <= i < |conns| ==> conns[i].ref != c) ==> now == [])
  {
    SyncHistory(w.db, conns, cal, SYNC_REASON, c);
    if c in w.db.connections {
      if i :| 0 <= i < |conns| && conns[i].ref == c {
        SyncWrites(w.db.connections, conns, SYNC_REASON, i);
        assert conns[i].ref in ConnectionRefs(conns);
        forall j | 0 <= j < |conns| && conns[j].ref == c ensures j == i {}
      }
    } else {
      SyncWritesNothingFor(w.db.connections, conns, SYNC_REASON, c);
    }
  }

  /** In memory too, where a connection is all that the snapshot says. */
  lemma MemorySyncDoes(m: Cache, conns: seq<Connection>, cal: seq<Calendar>)
    requires MemOk(m) && MemAccepts(m, Sync(conns, cal))
    ensures var m' := MemStep(m, Sync(conns, cal));
      && (forall c :: c in m'.connections <==> c in conns)
      && (forall c :: c in m'.catalog <==> c in cal)
      && (forall s :: s in m'.selected <==> (exists c :: c in cal && Describes(s, c)) && exists was :: was in m.selected && was.ref == s.ref)
      && m'.destination == if m.destination.Some? && (exists c :: c in cal && c.ref == m.destination.value) then m.destination else None
  {
    SortMembers(conns, ConnectionKey);
    SortMembers(cal, CalendarKey);
    var catalog := SortBy(cal, CalendarKey);
    RefreshMembers(m.selected, catalog);
    forall s ensures s in RefreshSelected(m.selected, catalog) <==>
      (exists c :: c in cal && Describes(s, c)) && exists was :: was in m.selected && was.ref == s.ref {
      MemorySyncSelects(m, cal, catalog, s);
    }
    if m.destination.Some? { FindFinds(catalog, CalendarKey, m.destination.value); }
  }

  lemma MemorySyncSelects(m: Cache, cal: seq<Calendar>, catalog: seq<Calendar>, s: Selected)
    requires DistinctCalendars(cal) && forall c :: c in catalog <==> c in cal
    requires forall x :: x in RefreshSelected(m.selected, catalog) <==> exists i :: 0 <= i < |m.selected| && x in Fresh(catalog, m.selected[i])
    ensures s in RefreshSelected(m.selected, catalog) <==>
      (exists c :: c in cal && Describes(s, c)) && exists was :: was in m.selected && was.ref == s.ref
  {
    if s in RefreshSelected(m.selected, catalog) {
      var i :| 0 <= i < |m.selected| && s in Fresh(catalog, m.selected[i]);
      FindFinds(catalog, CalendarKey, m.selected[i].ref);
      var c := Find(catalog, CalendarKey, m.selected[i].ref).value;
      assert c in cal && Describes(s, c) && m.selected[i] in m.selected;
    }
    if c, was :| c in cal && Describes(s, c) && was in m.selected && was.ref == s.ref {
      var i :| 0 <= i < |m.selected| && m.selected[i] == was;
      FindFinds(catalog, CalendarKey, was.ref);
      assert c in catalog;
      var found := Find(catalog, CalendarKey, was.ref).value;
      var j :| 0 <= j < |cal| && cal[j] == c;
      var k :| 0 <= k < |cal| && cal[k] == found;
      assert j == k;
      assert s in Fresh(catalog, m.selected[i]);
    }
  }

  /** Exactly which snapshots are in order: every field but the primary and writable flags filled,
      references and external identifiers distinct, and each calendar on a connection of the
      snapshot with its provider. */
  lemma SnapshotInOrderExactlyWhen(conns: seq<Connection>, cal: seq<Calendar>)
    ensures ValidCatalog(conns, cal) <==>
      && (forall c :: c in conns ==> c.ref != "" && c.provider != "" && c.accountRef != "" && c.accountEmail != "" && c.status != "")
      && (forall i, j :: 0 <= i < j < |conns| ==> conns[i].ref != conns[j].ref)
      && (forall c :: c in cal ==> c.ref != "" && c.connection != "" && c.provider != "" && c.externalId != "" && c.name != "")
      && (forall c :: c in cal ==> exists k :: k in conns && k.ref == c.connection && k.provider == c.provider)
      && (forall i, j :: 0 <= i < j < |cal| ==> cal[i].ref != cal[j].ref)
      && (forall i, j :: 0 <= i < j < |cal| ==> cal[i].provider + "\0" + cal[i].externalId != cal[j].provider + "\0" + cal[j].externalId)
  {
    forall c | c in cal ensures Connected(c, conns) <==> exists k :: k in conns && k.ref == c.connection && k.provider == c.provider {
      if k :| k in conns && k.ref == c.connection && k.provider == c.provider {
        var j :| 0 <= j < |conns| && conns[j] == k;
        assert conns[j].ref == c.connection;
      }
    }
  }

  /** And which status updates: named, one per connection, each about a cached connection with its
      provider and account. */
  lemma UpdatesInOrderExactlyWhen(connections: seq<Connection>, updates: seq<Update>)
    requires StrictlySorted(connections, ConnectionKey)
    ensures ValidAgainst(connections, updates) <==>
      && (forall u :: u in updates ==> u.connection != "" && u.provider != "" && u.accountRef != "" && u.status != "")
      && (forall i, j :: 0 <= i < j < |updates| ==> updates[i].connection != updates[j].connection)
      && forall u :: u in updates ==>
           exists c :: c in connections && c.ref == u.connection && c.provider == u.provider && c.accountRef == u.accountRef
  {
    forall u | u in updates
      ensures MatchesCached(connections, u) <==> exists c :: c in connections && c.ref == u.connection && c.provider == u.provider && c.accountRef == u.accountRef
    {
      FindFinds(connections, ConnectionKey, u.connection);
      if c :| c in connections && c.ref == u.connection && c.provider == u.provider && c.accountRef == u.accountRef {
        SortedAreDistinct(connections, ConnectionKey);
        var found := Find(connections, ConnectionKey, u.connection).value;
        var i :| 0 <= i < |connections| && connections[i] == c;
        var j :| 0 <= j < |connections| && connections[j] == found;
        assert i == j;
      }
    }
  }
}
