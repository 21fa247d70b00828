/** The repository's transactions as the code writes them: loops over rows in the transaction's
    own view of the tables, which becomes the tables when it commits. */
module CalendarRepository {
  import opened Lib
  import opened SortedRows
  import opened CalendarTables
  import opened CalendarSync
  import opened CalendarHistory
  import opened CalendarCache

  /** A query ordered by the primary key. */
  method ReadRows<T(!new)>(table: map<string, T>, key: T -> string) returns (rows: seq<T>)
    requires Keyed(table, key)
    ensures rows == ReadTable(table, key)
  {
    rows := [];
    var left := table.Keys;
    ghost var done: map<string, T> := map[];
    while left != {}
      invariant left <= table.Keys && done.Keys == table.Keys - left && forall k :: k in done ==> done[k] == table[k]
      invariant Reads(rows, done, key)
      decreases |left|
    {
      var k :| k in left;
      InsertReads(rows, done, table[k], key);
      rows := Insert(rows, table[k], key);
      done := done[k := table[k]];
      left := left - {k};
    }
    assert done == table;
    ReadsIsReadTable(rows, table, key);
  }

  /** The validation of a snapshot, with the sets of what it has seen. */
  method ValidateProviderCatalog(conns: seq<Connection>, cal: seq<Calendar>) returns (ok: bool)
    ensures ok <==> ValidCatalog(conns, cal)
  {
    var providers: map<string, string> := map[];
    for i := 0 to |conns|
      invariant ValidConnections(conns[..i])
      invariant providers.Keys == ConnectionRefs(conns[..i])
      invariant forall j :: 0 <= j < i ==> conns[j].ref in providers && providers[conns[j].ref] == conns[j].provider
    {
      var c := conns[i];
      NextConnection(conns, i);
      if "" in [c.ref, c.provider, c.accountRef, c.accountEmail, c.status] { return false; }
      if c.ref in providers { return false; }
      providers := providers[c.ref := c.provider];
    }
    assert conns[..|conns|] == conns;
    ok := ValidateCalendars(conns, providers, cal);
  }

  method ValidateCalendars(conns: seq<Connection>, providers: map<string, string>, cal: seq<Calendar>) returns (ok: bool)
    requires providers.Keys == ConnectionRefs(conns)
    requires forall j :: 0 <= j < |conns| ==> conns[j].ref in providers && providers[conns[j].ref] == conns[j].provider
    ensures ok <==> ValidCalendars(conns, cal)
  {
    var refs: set<string>, externals: set<string> := {}, {};
    for i := 0 to |cal|
      invariant ValidCalendars(conns, cal[..i])
      invariant refs == CalendarRefs(cal[..i]) && externals == ExternalKeys(cal[..i])
    {
      var c := cal[i];
      ConnectedByMap(conns, providers, c);
      NextCalendar(conns, cal, i);
      if "" in [c.ref, c.connection, c.provider, c.externalId, c.name] { return false; }
      if c.ref in refs { return false; }
      refs := refs + {c.ref};
      if !(c.connection in providers && providers[c.connection] == c.provider) { return false; }
      if ExternalKey(c) in externals { return false; }
      externals := externals + {ExternalKey(c)};
    }
    assert cal[..|cal|] == cal;
    return true;
  }

  function ExternalKeys(cal: seq<Calendar>): set<string> { set c | c in cal :: ExternalKey(c) }

  lemma NextConnection(conns: seq<Connection>, i: nat)
    requires i < |conns| && ValidConnections(conns[..i])
    ensures ConnectionRefs(conns[..i + 1]) == ConnectionRefs(conns[..i]) + {conns[i].ref}
    ensures ValidConnections(conns[..i + 1]) <==> NamedConnection(conns[i]) && conns[i].ref !in ConnectionRefs(conns[..i])
    ensures !ValidConnections(conns[..i + 1]) ==> !ValidConnections(conns)
  {
    var c := conns[i];
    assert conns[..i + 1] == conns[..i] + [c] && c in conns[..i + 1];
    if c.ref in ConnectionRefs(conns[..i]) {
      var x :| x in conns[..i] && x.ref == c.ref;
      var j :| 0 <= j < i && conns[..i][j] == x;
      assert conns[..i + 1][j].ref == conns[..i + 1][i].ref;
    } else {
      forall j | 0 <= j < i ensures conns[..i][j].ref != c.ref { assert conns[..i][j] in conns[..i]; }
    }
    if ValidConnections(conns) { PrefixOfConnections(conns, i + 1); }
  }

  lemma PrefixOfConnections(conns: seq<Connection>, i: nat)
    requires i <= |conns| && ValidConnections(conns)
    ensures ValidConnections(conns[..i])
  {
  }

  lemma PrefixOfCalendars(conns: seq<Connection>, cal: seq<Calendar>, i: nat)
    requires i <= |cal| && ValidCalendars(conns, cal)
    ensures ValidCalendars(conns, cal[..i])
  {
  }

  lemma NextCalendar(conns: seq<Connection>, cal: seq<Calendar>, i: nat)
    requires i < |cal| && ValidCalendars(conns, cal[..i])
    ensures CalendarRefs(cal[..i + 1]) == CalendarRefs(cal[..i]) + {cal[i].ref}
    ensures ExternalKeys(cal[..i + 1]) == ExternalKeys(cal[..i]) + {ExternalKey(cal[i])}
    ensures ValidCalendars(conns, cal[..i + 1]) <==>
      && NamedCalendar(cal[i]) && Connected(cal[i], conns)
      && cal[i].ref !in CalendarRefs(cal[..i]) && ExternalKey(cal[i]) !in ExternalKeys(cal[..i])
    ensures !ValidCalendars(conns, cal[..i + 1]) ==> !ValidCalendars(conns, cal)
  {
    var c := cal[i];
    assert cal[..i + 1] == cal[..i] + [c] && c in cal[..i + 1];
    SeenCalendar(cal, i);
    if ValidCalendars(conns, cal) { PrefixOfCalendars(conns, cal, i + 1); }
  }

  lemma SeenCalendar(cal: seq<Calendar>, i: nat)
    requires i < |cal| && DistinctCalendars(cal[..i])
    ensures DistinctCalendars(cal[..i + 1]) <==> cal[i].ref !in CalendarRefs(cal[..i]) && ExternalKey(cal[i]) !in ExternalKeys(cal[..i])
  {
    if cal[i].ref in CalendarRefs(cal[..i]) {
      var c :| c in cal[..i] && c.ref == cal[i].ref;
      var j :| 0 <= j < i && cal[..i][j] == c;
      assert cal[..i + 1][j].ref == cal[..i + 1][i].ref;
    } else if ExternalKey(cal[i]) in ExternalKeys(cal[..i]) {
      var c :| c in cal[..i] && ExternalKey(c) == ExternalKey(cal[i]);
      var j :| 0 <= j < i && cal[..i][j] == c;
      assert ExternalKey(cal[..i + 1][j]) == ExternalKey(cal[..i + 1][i]);
    } else {
      forall j | 0 <= j < i ensures cal[j].ref != cal[i].ref && ExternalKey(cal[j]) != ExternalKey(cal[i]) {
        assert cal[..i][j] in cal[..i];
      }
      forall a, b | 0 <= a < b < i ensures cal[a].ref != cal[b].ref && ExternalKey(cal[a]) != ExternalKey(cal[b]) {
        assert cal[..i][a].ref != cal[..i][b].ref;
      }
    }
  }

  lemma ConnectedByMap(conns: seq<Connection>, providers: map<string, string>, c: Calendar)
    requires providers.Keys == ConnectionRefs(conns) && forall j :: 0 <= j < |conns| ==> conns[j].ref in providers && providers[conns[j].ref] == conns[j].provider
    ensures Connected(c, conns) <==> c.connection in providers && providers[c.connection] == c.provider
  {
    if c.connection in providers {
      var x :| x in conns && x.ref == c.connection;
      var j :| 0 <= j < |conns| && conns[j] == x;
    }
  }

  // ---------- the repository ----------

  lemma {:induction false} UpsertStops(catalog: map<Ref, Calendar>, selected: map<Ref, Selected>, cal: seq<Calendar>, n: nat)
    requires n <= |cal| && UpsertCatalog(catalog, selected, cal[..n]).None?
    ensures UpsertCatalog(catalog, selected, cal).None?
    decreases |cal| - n
  {
    if n == |cal| {
      assert cal[..n] == cal;
    } else {
      assert cal[..n + 1][..n] == cal[..n];
      UpsertStops(catalog, selected, cal, n + 1);
    }
  }

  lemma {:induction false} HistoryWithoutTwice(h: seq<Transition>, gone: set<Ref>, k: Ref)
    ensures HistoryWithout(HistoryWithout(h, gone), {k}) == HistoryWithout(h, gone + {k})
    decreases |h|
  {
    if h != [] {
      HistoryWithoutTwice(h[..|h| - 1], gone, k);
      var kept, last := HistoryWithout(h[..|h| - 1], gone), h[|h| - 1];
      if last.connection in gone { assert kept + [] == kept; } else { assert (kept + [last])[..|kept|] == kept; }
    }
  }

  lemma {:induction false} HistoryWithoutNone(h: seq<Transition>)
    ensures HistoryWithout(h, {}) == h
    decreases |h|
  {
    if h != [] { HistoryWithoutNone(h[..|h| - 1]); }
  }

  ghost predicate SameBut<T(!new)>(m: map<Ref, T>, m': map<Ref, T>, gone: set<Ref>) {
    (forall k :: k in m' <==> k in m && k !in gone) && forall k :: k in m' ==> m'[k] == m[k]
  }

  lemma SameButIsMinus<T(!new)>(m: map<Ref, T>, m': map<Ref, T>, gone: set<Ref>)
    requires SameBut(m, m', gone)
    ensures m' == m - gone
  {
  }

  lemma RowsOfOthers(t: map<Ref, Calendar>, t': map<Ref, Calendar>, gone: set<Ref>)
    requires forall k :: k in t' <==> k in t && t[k].connection !in gone
    requires forall k :: k in t' ==> t'[k] == t[k]
    ensures t' == map k | k in t && t[k].connection !in gone :: t[k]
  {
  }

  /** The transaction's own view of the tables, after the loop that deletes stale calendars and,
      through the foreign key, the destination. */
  method DeleteStaleCalendars(db: Db, refs: set<Ref>) returns (tx: Db)
    ensures tx == Prune(db, refs)
  {
    var catalog, selected, destination := db.catalog, db.selected, db.destination;
    var left := db.catalog.Keys;
    ghost var gone: set<Ref> := {};
    while left != {}
      invariant left <= db.catalog.Keys
      invariant forall k :: k in gone <==> k in db.catalog && k !in left && k !in refs
      invariant SameBut(db.catalog, catalog, gone) && SameBut(db.selected, selected, gone)
      invariant destination == if db.destination.Some? && db.destination.value in gone && db.destination.value in db.selected then None else db.destination
      decreases |left|
    {
      var k :| k in left;
      left := left - {k};
      if k !in refs {
        if destination == Some(k) && k in selected { destination := None; }
        selected := selected - {k};
        catalog := catalog - {k};
        gone := gone + {k};
      }
    }
    assert gone == db.catalog.Keys - refs;
    SameButIsMinus(db.catalog, catalog, gone);
    SameButIsMinus(db.selected, selected, gone);
    tx := db.(catalog := catalog, selected := selected, destination := destination);
  }

  method UpsertAllConnections(db: Db, conns: seq<Connection>, reason: string) returns (tx: Db)
    ensures tx == db.(connections := UpsertConnections(db.connections, conns),
                      history := db.history + SyncTransitions(db.connections, conns, reason))
  {
    var connections, history := db.connections, db.history;
    assert conns[..0] == [] && history + [] == history;
    for i := 0 to |conns|
      invariant connections == UpsertConnections(db.connections, conns[..i])
      invariant history == db.history + SyncTransitions(db.connections, conns[..i], reason)
    {
      var c := conns[i];
      assert conns[..i + 1][..i] == conns[..i];
      connections := connections[c.ref := Upserted(connections, c)];
      if c.ref in db.connections && db.connections[c.ref].status != c.status {
        history := history + [Transition(c.ref, c.provider, db.connections[c.ref].status, c.status, reason)];
      }
    }
    assert conns[..|conns|] == conns;
    tx := db.(connections := connections, history := history);
  }

  /** Each upsert is followed by the refresh of its selected row; a unique index may stop it. */
  method UpsertAllCalendars(db: Db, cal: seq<Calendar>) returns (ok: bool, tx: Db)
    ensures ok <==> UpsertCatalog(db.catalog, db.selected, cal).Some?
    ensures ok ==> UpsertCatalog(db.catalog, db.selected, cal) == Some((tx.catalog, tx.selected)) && tx == db.(catalog := tx.catalog, selected := tx.selected)
  {
    var catalog, selected := db.catalog, db.selected;
    assert cal[..0] == [];
    for i := 0 to |cal|
      invariant UpsertCatalog(db.catalog, db.selected, cal[..i]) == Some((catalog, selected))
    {
      var c := cal[i];
      assert cal[..i + 1][..i] == cal[..i];
      if TakenInCatalog(catalog, c) || (c.ref in selected && TakenInSelected(selected, ToSelected(c))) {
        UpsertStops(db.catalog, db.selected, cal, i + 1);
        return false, db;
      }
      catalog := catalog[c.ref := c];
      if c.ref in selected { selected := selected[c.ref := ToSelected(c)]; }
    }
    assert cal[..|cal|] == cal;
    return true, db.(catalog := catalog, selected := selected);
  }

  /** Deletes connections; the foreign keys take their calendars and their history along. */
  method DeleteConnections(db: Db, gone: set<Ref>) returns (tx: Db)
    ensures tx == DropConnections(db, gone)
  {
    var connections, catalog, history := db.connections, db.catalog, db.history;
    var left := gone;
    ghost var done: set<Ref> := {};
    HistoryWithoutNone(history);
    while left != {}
      invariant left <= gone && forall k :: k in done <==> k in gone && k !in left
      invariant SameBut(db.connections, connections, done)
      invariant forall k :: k in catalog <==> k in db.catalog && db.catalog[k].connection !in done
      invariant forall k :: k in catalog ==> catalog[k] == db.catalog[k]
      invariant history == HistoryWithout(db.history, done)
      decreases |left|
    {
      var k :| k in left;
      left := left - {k};
      HistoryWithoutTwice(db.history, done, k);
      connections := connections - {k};
      catalog := map j | j in catalog && catalog[j].connection != k :: catalog[j];
      history := HistoryWithout(history, {k});
      done := done + {k};
    }
    assert done == gone;
    SameButIsMinus(db.connections, connections, gone);
    RowsOfOthers(db.catalog, catalog, gone);
    tx := db.(connections := connections, catalog := catalog, history := history);
  }

  method ValidateUpdates(updates: seq<Update>) returns (ok: bool)
    ensures ok <==> ValidUpdates(updates)
  {
    var seen: set<string> := {};
    for i := 0 to |updates|
      invariant ValidUpdates(updates[..i]) && seen == UpdatedRefs(updates[..i])
    {
      var u := updates[i];
      NextUpdate(updates, i);
      if "" in [u.connection, u.provider, u.accountRef, u.status] { return false; }
      if u.connection in seen { return false; }
      seen := seen + {u.connection};
    }
    assert updates[..|updates|] == updates;
    return true;
  }

  lemma NextUpdate(updates: seq<Update>, i: nat)
    requires i < |updates| && ValidUpdates(updates[..i])
    ensures UpdatedRefs(updates[..i + 1]) == UpdatedRefs(updates[..i]) + {updates[i].connection}
    ensures ValidUpdates(updates[..i + 1]) <==>
      "" !in [updates[i].connection, updates[i].provider, updates[i].accountRef, updates[i].status] && updates[i].connection !in UpdatedRefs(updates[..i])
    ensures !ValidUpdates(updates[..i + 1]) ==> !ValidUpdates(updates)
  {
    var u := updates[i];
    assert updates[..i + 1] == updates[..i] + [u] && u in updates[..i + 1];
    if u.connection in UpdatedRefs(updates[..i]) {
      var x :| x in updates[..i] && x.connection == u.connection;
      var j :| 0 <= j < i && updates[..i][j] == x;
      assert updates[..i + 1][j].connection == updates[..i + 1][i].connection;
    } else {
      forall j | 0 <= j < i ensures updates[..i][j].connection != u.connection { assert updates[..i][j] in updates[..i]; }
    }
    if ValidUpdates(updates) { PrefixOfUpdates(updates, i + 1); }
  }

  lemma PrefixOfUpdates(updates: seq<Update>, i: nat)
    requires i <= |updates| && ValidUpdates(updates)
    ensures ValidUpdates(updates[..i])
  {
  }

  lemma {:induction false} RefreshStops(db: Db, updates: seq<Update>, checkedAt: string, reason: string, n: nat)
    requires n <= |updates| && RefreshTx(db, updates[..n], checkedAt, reason).None?
    ensures RefreshTx(db, updates, checkedAt, reason).None?
    decreases |updates| - n
  {
    if n == |updates| {
      assert updates[..n] == updates;
    } else {
      assert updates[..n + 1][..n] == updates[..n];
      RefreshStops(db, updates, checkedAt, reason, n + 1);
    }
  }

  /** The transaction's view after the loop over the updates, or none when one does not match. */
  method RefreshRows(db: Db, updates: seq<Update>, checkedAt: string, reason: string) returns (r: Option<Db>)
    ensures r == RefreshTx(db, updates, checkedAt, reason)
  {
    var tx := db;
    assert updates[..0] == [];
    for i := 0 to |updates|
      invariant RefreshTx(db, updates[..i], checkedAt, reason) == Some(tx)
    {
      var u := updates[i];
      assert updates[..i + 1][..i] == updates[..i];
      if !(u.connection in db.connections && db.connections[u.connection].provider == u.provider
           && db.connections[u.connection].accountRef == u.accountRef) {
        RefreshStops(db, updates, checkedAt, reason, i + 1);
        return None;
      }
      var row := tx.connections[u.connection].(status := u.status, statusCode := u.statusCode, checkedAt := checkedAt);
      var previous := db.connections[u.connection].status;
      tx := tx.(connections := tx.connections[u.connection := row],
                history := tx.history + if previous != u.status then [Transition(u.connection, u.provider, previous, u.status, reason)] else []);
    }
    assert updates[..|updates|] == updates;
    return Some(tx);
  }

  class Repository {
    var connections: map<Ref, Connection>
    var catalog: map<Ref, Calendar>
    var selected: map<Ref, Selected>
    var destination: Option<Ref>
    var history: seq<Transition>

    function State(): Db
      reads this
    {
      Db(connections, catalog, selected, destination, history)
    }

    constructor ()
      ensures State() == EMPTY_DB
    {
      connections, catalog, selected, destination, history := map[], map[], map[], None, [];
    }

    /** What a transaction has done to its view becomes the tables. */
    method Commit(tx: Db)
      modifies this
      ensures State() == tx
    {
      connections, catalog, selected, destination, history := tx.connections, tx.catalog, tx.selected, tx.destination, tx.history;
    }

    method SyncCalendarCatalog(conns: seq<Connection>, cal: seq<Calendar>, reason: string)
      returns (r: Option<(seq<Connection>, seq<Calendar>)>)
      requires Inv(State())
      modifies this
      ensures r.Some? <==> reason != "" && ValidCatalog(conns, cal) && SyncTx(old(State()), conns, cal, reason).Some?
      ensures r.Some? ==> Inv(State()) && Some(State()) == SyncTx(old(State()), conns, cal, reason)
      ensures r.Some? ==> r.value == (ReadConnections(State()), ReadCatalog(State()))
      ensures r.None? ==> State() == old(State())
    {
      if reason == "" { return None; }
      var valid := ValidateProviderCatalog(conns, cal);
      if !valid { return None; }
      var begin := State();
      var tx := DeleteStaleCalendars(begin, CalendarRefs(cal));
      tx := UpsertAllConnections(tx, conns, reason);
      var ok;
      ok, tx := UpsertAllCalendars(tx, cal);
      if !ok { return None; }
      tx := DeleteConnections(tx, begin.connections.Keys - ConnectionRefs(conns));
      SyncMirrorsTheSnapshot(begin, conns, cal, reason);
      SyncedKeepsInv(begin, tx, conns, cal);
      LoadedReads(tx);
      var syncedConnections := ReadRows(tx.connections, ConnectionKey);
      var syncedCatalog := ReadRows(tx.catalog, CalendarKey);
      Commit(tx);
      return Some((syncedConnections, syncedCatalog));
    }

    method RefreshCalendarConnectionStatuses(updates: seq<Update>, checkedAt: string, reason: string) returns (r: Option<seq<Connection>>)
      requires Inv(State())
      modifies this
      ensures r.Some? <==> reason != "" && ValidUpdates(updates) && RefreshTx(old(State()), updates, checkedAt, reason).Some?
      ensures r.Some? ==> Inv(State()) && Some(State()) == RefreshTx(old(State()), updates, checkedAt, reason)
      ensures r.Some? ==> r.value == ReadConnections(State())
      ensures r.None? ==> State() == old(State())
      ensures r.Some? ==> TableUpdated(old(connections), connections, updates, checkedAt)
    {
      if reason == "" { return None; }
      var valid := ValidateUpdates(updates);
      if !valid { return None; }
      var tx := RefreshRows(State(), updates, checkedAt, reason);
      if tx.None? { return None; }
      RefreshedTables(State(), updates, checkedAt, reason);
      TablesUpdated(State(), updates, checkedAt, reason);
      LoadedReads(tx.value);
      var refreshed := ReadRows(tx.value.connections, ConnectionKey);
      Commit(tx.value);
      return Some(refreshed);
    }

    method SaveSelectedCalendar(s: Selected) returns (ok: bool)
      modifies this`selected
      ensures ok <==> SelectTx(old(State()), s).Some?
      ensures ok ==> Some(State()) == SelectTx(old(State()), s)
      ensures !ok ==> State() == old(State())
    {
      if "" in [s.ref, s.provider, s.externalId, s.name] { return false; }
      if TakenInSelected(selected, s) { return false; }
      selected := selected[s.ref := s];
      return true;
    }

    /** Whether a row went, and whether it was the destination's. */
    method DeleteSelectedCalendar(ref: Ref) returns (removed: bool, cleared: bool)
      modifies this`selected, this`destination
      ensures State() == DeselectTx(old(State()), ref)
      ensures removed == (ref in old(selected)) && cleared == (old(destination) == Some(ref))
    {
      cleared := destination == Some(ref);
      removed := ref in selected;
      if destination == Some(ref) && ref in selected { destination := None; }
      selected := selected - {ref};
    }

    method SetDestinationCalendar(ref: Ref) returns (ok: bool)
      modifies this`destination
      ensures ok <==> SetDestinationTx(old(State()), ref).Some?
      ensures ok ==> Some(State()) == SetDestinationTx(old(State()), ref)
      ensures !ok ==> State() == old(State())
    {
      if ref !in selected { return false; }
      destination := Some(ref);
      return true;
    }
  }
}
