/** The Store's calls as the code writes them: slices filtered in place over their own backing
    array, copied, appended to and sorted, with or without a repository behind them. */
module CalendarStore {
  import opened Lib
  import opened SortedRows
  import opened CalendarTables
  import opened CalendarSync
  import opened CalendarHistory
  import opened CalendarCache
  import opened CalendarMemory
  import opened CalendarCalls
  import opened CalendarRepository

  // ---------- filters that reuse the slice they read ----------

  /** `items[:0]` grown by append over the same backing array: every write lands at or before the
      element being read, so nothing is lost. */
  method FilterInPlace(items: array<Selected>, ref: Ref) returns (n: nat, removed: bool)
    modifies items
    ensures n <= items.Length && items[..n] == Without(old(items[..]), ref)
    ensures removed <==> exists s :: s in old(items[..]) && s.ref == ref
  {
    n, removed := 0, false;
    for i := 0 to items.Length
      invariant n <= i
      invariant items[..n] == Without(old(items[..])[..i], ref)
      invariant forall j :: i <= j < items.Length ==> items[j] == old(items[j])
      invariant removed <==> exists s :: s in old(items[..])[..i] && s.ref == ref
    {
      var item := items[i];
      assert old(items[..])[..i + 1][..i] == old(items[..])[..i] && item == old(items[..])[i];
      assert old(items[..])[..i + 1] == old(items[..])[..i] + [item];
      ghost var kept := items[..n];
      if item.ref == ref {
        removed := true;
        assert kept + [] == kept;
      } else {
        items[n] := item;
        n := n + 1;
        assert items[..n] == kept + [item];
      }
    }
    assert old(items[..])[..items.Length] == old(items[..]);
  }

  /** The index a refresh looks calendars up in. */
  ghost predicate Indexes(byRef: map<Ref, Calendar>, catalog: seq<Calendar>) {
    forall ref :: Find(catalog, CalendarKey, ref) == if ref in byRef then Some(byRef[ref]) else None
  }

  method IndexCatalog(catalog: seq<Calendar>) returns (byRef: map<Ref, Calendar>)
    requires StrictlySorted(catalog, CalendarKey)
    ensures Indexes(byRef, catalog)
  {
    byRef := map[];
    for i := 0 to |catalog|
      invariant Reads(catalog[..i], byRef, CalendarKey) && Keyed(byRef, CalendarKey)
    {
      var c := catalog[i];
      assert catalog[..i + 1] == catalog[..i] + [c];
      forall k | k in byRef ensures k != c.ref {
        assert byRef[k] in catalog[..i];
        var j :| 0 <= j < i && catalog[j] == byRef[k];
        LessIsAsymmetric(CalendarKey(catalog[j]), CalendarKey(c));
      }
      byRef := byRef[c.ref := c];
    }
    assert catalog[..|catalog|] == catalog;
    FindsAll(catalog, byRef);
  }

  method RefreshInPlace(items: array<Selected>, byRef: map<Ref, Calendar>, ghost catalog: seq<Calendar>) returns (n: nat)
    requires Indexes(byRef, catalog)
    modifies items
    ensures n <= items.Length && items[..n] == RefreshSelected(old(items[..]), catalog)
  {
    n := 0;
    for i := 0 to items.Length
      invariant n <= i
      invariant items[..n] == RefreshSelected(old(items[..])[..i], catalog)
      invariant forall j :: i <= j < items.Length ==> items[j] == old(items[j])
    {
      var item := items[i];
      assert old(items[..])[..i + 1][..i] == old(items[..])[..i] && item == old(items[..])[i];
      ghost var kept := items[..n];
      assert Find(catalog, CalendarKey, item.ref) == if item.ref in byRef then Some(byRef[item.ref]) else None;
      if item.ref in byRef {
        items[n] := ToSelected(byRef[item.ref]);
        n := n + 1;
        assert items[..n] == kept + [ToSelected(byRef[item.ref])];
      } else {
        assert kept + [] == kept;
      }
    }
    assert old(items[..])[..items.Length] == old(items[..]);
  }

  /** A copy of a slice has an array of its own. */
  method Clone(items: array<Selected>, n: nat) returns (copy: array<Selected>)
    requires n <= items.Length
    ensures fresh(copy) && copy[..] == items[..n]
  {
    copy := new Selected[n](i requires 0 <= i < n reads items => items[i]);
  }

  method FromSeq(items: seq<Selected>) returns (a: array<Selected>)
    ensures fresh(a) && a[..] == items
  {
    a := new Selected[|items|](i requires 0 <= i < |items| => items[i]);
  }

  // ---------- other loops ----------

  method FindCalendar(catalog: seq<Calendar>, ref: Ref) returns (found: Option<Calendar>)
    ensures found == Find(catalog, CalendarKey, ref)
  {
    for i := 0 to |catalog|
      invariant Find(catalog, CalendarKey, ref) == Find(catalog[i..], CalendarKey, ref)
    {
      assert catalog[i..][1..] == catalog[i + 1..];
      if catalog[i].ref == ref { return Some(catalog[i]); }
    }
    return None;
  }

  method FindSelected(selected: array<Selected>, ref: Ref) returns (found: Option<Selected>)
    ensures found == Find(selected[..], SelectedKey, ref)
  {
    for i := 0 to selected.Length
      invariant Find(selected[..], SelectedKey, ref) == Find(selected[i..], SelectedKey, ref)
    {
      assert selected[i..][1..] == selected[i + 1..];
      if selected[i].ref == ref { return Some(selected[i]); }
    }
    return None;
  }

  lemma {:induction false} ReplacedAt(rows: seq<Selected>, s: Selected, i: nat)
    requires i <= |rows| && forall j :: 0 <= j < i ==> rows[j].ref != s.ref
    ensures i == |rows| ==> Replaced(rows, s) == rows + [s]
    ensures i < |rows| && rows[i].ref == s.ref ==> Replaced(rows, s) == rows[i := s]
    decreases i
  {
    if i > 0 {
      ReplacedAt(rows[1..], s, i - 1);
      assert rows == [rows[0]] + rows[1..];
    } else if rows != [] && rows[0].ref == s.ref {
      assert rows[0 := s] == [s] + rows[1..];
    }
  }

  method ReplaceOrAppend(items: seq<Selected>, s: Selected) returns (r: seq<Selected>)
    ensures r == Replaced(items, s)
  {
    for i := 0 to |items|
      invariant forall j :: 0 <= j < i ==> items[j].ref != s.ref
    {
      if items[i].ref == s.ref {
        ReplacedAt(items, s, i);
        return items[i := s];
      }
    }
    ReplacedAt(items, s, |items|);
    return items + [s];
  }

  /** The check of a status snapshot against the cached connections. */
  method ValidateStatusUpdates(connections: seq<Connection>, updates: seq<Update>) returns (ok: bool)
    ensures ok <==> ValidAgainst(connections, updates)
  {
    ok := ValidateUpdates(updates);
    if !ok { return; }
    for i := 0 to |updates|
      invariant forall j :: 0 <= j < i ==> MatchesCached(connections, updates[j])
    {
      if !MatchesCached(connections, updates[i]) { return false; }
    }
    return true;
  }

  lemma {:induction false} AppliedPointwise(connections: seq<Connection>, updates: seq<Update>, checkedAt: string)
    ensures var r := Applied(connections, updates, checkedAt);
      && |r| == |connections|
      && forall i :: 0 <= i < |r| ==> r[i] == WithUpdate(connections[i], FindUpdate(updates, connections[i].ref), checkedAt)
    decreases |connections|
  {
    if connections != [] { AppliedPointwise(connections[1..], updates, checkedAt); }
  }

  /** The same statuses written over a sorted copy of the connections. */
  method ApplyStatusUpdates(existing: seq<Connection>, updates: seq<Update>, checkedAt: string) returns (connections: seq<Connection>)
    ensures connections == Applied(SortBy(existing, ConnectionKey), updates, checkedAt)
    ensures ValidUpdates(updates) ==> ListUpdated(SortBy(existing, ConnectionKey), connections, updates, checkedAt)
  {
    connections := SortBy(existing, ConnectionKey);
    AppliedPointwise(connections, updates, checkedAt);
    ghost var sorted, applied := connections, Applied(connections, updates, checkedAt);
    for i := 0 to |connections|
      invariant |connections| == |sorted|
      invariant forall j :: 0 <= j < i ==> connections[j] == applied[j]
      invariant forall j :: i <= j < |sorted| ==> connections[j] == sorted[j]
    {
      var u := FindUpdate(updates, connections[i].ref);
      if u.Some? {
        connections := connections[i := connections[i].(status := u.value.status, statusCode := u.value.statusCode, checkedAt := checkedAt)];
      }
    }
    assert connections == applied;
    if ValidUpdates(updates) { ListIsUpdated(sorted, updates, checkedAt); }
  }

  // ---------- the Store ----------

  /** A Store is its cache alone, or its cache beside tables. */
  datatype Stored = InMemory(cache: Cache) | OverTables(world: World)

  ghost predicate StoredOk(s: Stored) {
    match s
    case InMemory(m) => MemOk(m)
    case OverTables(w) => WorldOk(w)
  }

  ghost predicate Takes(s: Stored, op: Op) {
    match s
    case InMemory(m) => MemAccepts(m, op)
    case OverTables(w) => Accepts(w, op)
  }

  ghost function After(s: Stored, op: Op): Stored {
    match s
    case InMemory(m) => InMemory(MemStep(m, op))
    case OverTables(w) => OverTables(Step(w, op))
  }

  lemma AfterOk(s: Stored, op: Op)
    requires StoredOk(s)
    ensures StoredOk(After(s, op))
  {
    match s
    case InMemory(m) => MemStepKeeps(m, op);
    case OverTables(w) => StepKeeps(w, op);
  }

  class Store {
    const repo: Repository?
    var connections: seq<Connection>
    var catalog: seq<Calendar>
    var selected: array<Selected>
    var destination: Option<Ref>
    /** The status each stored connection was inserted with. */
    ghost var inserted: map<Ref, string>

    ghost function Cached(): Cache
      reads this, selected
    {
      Cache(connections, catalog, selected[..], destination)
    }

    ghost function State(): Stored
      reads this, selected, repo
    {
      if repo == null then InMemory(Cached()) else OverTables(World(repo.State(), Cached(), inserted))
    }

    constructor ()
      ensures repo == null && StoredOk(State()) && Cached() == EMPTY_CACHE
    {
      repo, connections, catalog, destination, inserted := null, [], [], None, map[];
      selected := new Selected[0];
    }

    /** Loading a user: one query per table, and the destination by its selected row. */
    constructor Load(r: Repository, ghost insertedWith: map<Ref, string>)
      requires Inv(r.State()) && Paths(r.State(), insertedWith)
      ensures repo == r && StoredOk(State()) && State() == OverTables(World(r.State(), LoadedCache(r.State()), insertedWith))
    {
      LoadedReads(r.State());
      var readConnections := ReadRows(r.connections, ConnectionKey);
      var readCatalog := ReadRows(r.catalog, CalendarKey);
      var readSelected := ReadRows(r.selected, SelectedKey);
      var items := FromSeq(readSelected);
      repo, connections, catalog, selected, inserted := r, readConnections, readCatalog, items, insertedWith;
      destination := if r.destination.Some? && r.destination.value in r.selected then r.destination else None;
    }

    /** The catalog's effect on the selection and the destination. */
    method RefreshSelectedForCatalog()
      requires StrictlySorted(catalog, CalendarKey)
      modifies this`selected, this`destination, selected
      ensures fresh(selected) && selected[..] == RefreshSelected(old(selected[..]), catalog)
      ensures destination == if old(destination).Some? && Find(catalog, CalendarKey, old(destination).value).None? then None else old(destination)
    {
      var byRef := IndexCatalog(catalog);
      var n := RefreshInPlace(selected, byRef, catalog);
      selected := Clone(selected, n);
      if destination.Some? && destination.value !in byRef { destination := None; }
    }

    /** What a snapshot, validated or persisted, does to the cache. */
    method ApplyProviderCatalog(conns: seq<Connection>, cal: seq<Calendar>)
      requires StrictlySorted(SortBy(cal, CalendarKey), CalendarKey)
      modifies this`connections, this`catalog, this`selected, this`destination, selected
      ensures fresh(selected) && Cached() == CacheSync(old(Cached()), conns, cal)
    {
      connections := SortBy(conns, ConnectionKey);
      catalog := SortBy(cal, CalendarKey);
      RefreshSelectedForCatalog();
    }

    method SyncProviderCatalog(conns: seq<Connection>, cal: seq<Calendar>) returns (ok: bool)
      requires StoredOk(State())
      modifies this, selected, repo
      ensures StoredOk(State()) && State() == After(old(State()), Sync(conns, cal)) && ok == Takes(old(State()), Sync(conns, cal))
    {
      AfterOk(State(), Sync(conns, cal));
      ok := ValidateProviderCatalog(conns, cal);
      if !ok { return; }
      if repo == null {
        DistinctSorts(cal);
        ApplyProviderCatalog(conns, cal);
      } else {
        ghost var begin := repo.State();
        var synced := repo.SyncCalendarCatalog(conns, cal, SYNC_REASON);
        if synced.None? { return false; }
        inserted := InsertedBySync(begin, conns, repo.State(), inserted);
        ReadingSorts(repo.catalog);
        ApplyProviderCatalog(synced.value.0, synced.value.1);
      }
    }

    method RefreshOverTables(updates: seq<Update>, checkedAt: string) returns (ok: bool)
      requires repo != null && StoredOk(State()) && updates != [] && ValidAgainst(connections, updates)
      modifies this`connections, repo
      ensures State() == After(old(State()), Refresh(updates, checkedAt)) && ok == Takes(old(State()), Refresh(updates, checkedAt))
    {
      var refreshed := repo.RefreshCalendarConnectionStatuses(updates, checkedAt, REFRESH_REASON);
      if refreshed.None? { return false; }
      connections := SortBy(refreshed.value, ConnectionKey);
      return true;
    }

    method RefreshProviderConnectionStatus(updates: seq<Update>, checkedAt: string) returns (ok: bool)
      requires StoredOk(State())
      modifies this`connections, repo
      ensures StoredOk(State()) && State() == After(old(State()), Refresh(updates, checkedAt)) && ok == Takes(old(State()), Refresh(updates, checkedAt))
      ensures ok ==> ListUpdated(old(connections), connections, updates, checkedAt)
    {
      AfterOk(State(), Refresh(updates, checkedAt));
      UpdatesCached(State(), updates, checkedAt);
      if updates == [] {
        NoUpdates(State(), checkedAt);
        return true;
      }
      ok := ValidateStatusUpdates(connections, updates);
      if !ok { return; }
      if repo == null {
        connections := ApplyStatusUpdates(connections, updates, checkedAt);
      } else {
        ok := RefreshOverTables(updates, checkedAt);
      }
    }

    method SaveSelectedCalendar(ref: Ref) returns (ok: bool)
      requires StoredOk(State())
      modifies this`selected, repo
      ensures StoredOk(State()) && State() == After(old(State()), Select(ref)) && ok == Takes(old(State()), Select(ref))
    {
      AfterOk(State(), Select(ref));
      if ref == "" { return false; }
      var found := FindCalendar(catalog, ref);
      if found.None? { return false; }
      var calendar := ToSelected(found.value);
      if repo != null {
        ok := repo.SaveSelectedCalendar(calendar);
        if !ok { return; }
      }
      var items := ReplaceOrAppend(selected[..], calendar);
      selected := FromSeq(SortBy(items, SelectedKey));
      return true;
    }

    method DropFromSelection(ref: Ref) returns (found: bool)
      modifies this`selected, selected
      ensures fresh(selected) && selected[..] == Without(old(selected[..]), ref)
      ensures found <==> exists s :: s in old(selected[..]) && s.ref == ref
    {
      var n;
      n, found := FilterInPlace(selected, ref);
      selected := Clone(selected, n);
    }

    method DeleteSelectedCalendar(ref: Ref) returns (accepted: bool, removed: bool, cleared: bool)
      requires StoredOk(State())
      modifies this`selected, this`destination, selected, repo
      ensures StoredOk(State()) && State() == After(old(State()), Deselect(ref)) && accepted == Takes(old(State()), Deselect(ref))
      ensures accepted ==> (removed <==> exists s :: s in old(selected[..]) && s.ref == ref)
      ensures accepted ==> cleared == (old(destination) == Some(ref))
    {
      AfterOk(State(), Deselect(ref));
      if ref == "" { return false, false, false; }
      DeselectedWasSelected(State(), ref);
      Deselected(State(), ref);
      cleared, removed := false, false;
      if repo != null {
        removed, cleared := repo.DeleteSelectedCalendar(ref);
      } else if destination == Some(ref) {
        destination := None;
        cleared := true;
      }
      var found := DropFromSelection(ref);
      removed := removed || found;
      if !removed { return true, false, false; }
      if cleared { destination := None; }
      return true, removed, cleared;
    }

    method ReadDestinationCalendar() returns (found: Option<Selected>)
      requires StoredOk(State())
      modifies this`destination
      ensures StoredOk(State()) && State() == After(old(State()), ReadDestination)
      ensures found == if old(destination).None? then None else Find(selected[..], SelectedKey, old(destination).value)
    {
      AfterOk(State(), ReadDestination);
      if destination.None? { return None; }
      found := FindSelected(selected, destination.value);
      if found.None? { destination := None; }
    }

    method SetDestinationCalendar(ref: Ref) returns (ok: bool)
      requires StoredOk(State())
      modifies this`destination, repo
      ensures StoredOk(State()) && State() == After(old(State()), SetDestination(ref)) && ok == Takes(old(State()), SetDestination(ref))
    {
      AfterOk(State(), SetDestination(ref));
      if ref == "" { return false; }
      if repo != null {
        ok := repo.SetDestinationCalendar(ref);
        if !ok { return; }
        destination := Some(ref);
        return;
      }
      var found := FindSelected(selected, ref);
      if found.None? { return false; }
      destination := Some(ref);
      return true;
    }
  }

  lemma UpdatesCached(s: Stored, updates: seq<Update>, checkedAt: string)
    requires StoredOk(s)
    ensures Takes(s, Refresh(updates, checkedAt)) ==>
      match After(s, Refresh(updates, checkedAt))
      case InMemory(m) => s.InMemory? && ListUpdated(s.cache.connections, m.connections, updates, checkedAt)
      case OverTables(w) => s.OverTables? && ListUpdated(s.world.cache.connections, w.cache.connections, updates, checkedAt)
  {
    if Takes(s, Refresh(updates, checkedAt)) {
      match s
      case InMemory(m) => MemoryRefreshDoes(m, updates, checkedAt);
      case OverTables(w) => RefreshDoes(w, updates, checkedAt);
    }
  }

  lemma NoUpdates(s: Stored, checkedAt: string)
    ensures Takes(s, Refresh([], checkedAt)) && After(s, Refresh([], checkedAt)) == s
  {
  }

  lemma Deselected(s: Stored, ref: Ref)
    requires StoredOk(s) && ref != ""
    ensures s.InMemory? ==> After(s, Deselect(ref)) == InMemory(CacheDeselect(s.cache, ref, s.cache.destination == Some(ref)))
    ensures s.OverTables? ==>
      After(s, Deselect(ref)).world
      == s.world.(db := DeselectTx(s.world.db, ref), cache := CacheDeselect(s.world.cache, ref, s.world.db.destination == Some(ref)))
  {
    if s.OverTables? { DeselectedDestination(s.world.db, ref); }
  }

  /** A destination that a deletion clears was selected. */
  lemma DeselectedWasSelected(s: Stored, ref: Ref)
    requires StoredOk(s)
    ensures s.InMemory? && s.cache.destination == Some(ref) ==> exists x :: x in s.cache.selected && x.ref == ref
    ensures s.OverTables? ==> (ref in s.world.db.selected <==> exists x :: x in s.world.cache.selected && x.ref == ref)
    ensures s.OverTables? ==> (Find(s.world.cache.selected, SelectedKey, ref).Some? <==> ref in s.world.db.selected)
    ensures s.OverTables? && s.world.db.destination == Some(ref) ==> ref in s.world.db.selected
  {
    if s.OverTables? {
      LoadedReads(s.world.db);
      FindReads(s.world.cache.selected, s.world.db.selected, SelectedKey, ref);
      FindFinds(s.world.cache.selected, SelectedKey, ref);
    }
  }

  lemma DistinctSorts(cal: seq<Calendar>)
    requires DistinctCalendars(cal)
    ensures StrictlySorted(SortBy(cal, CalendarKey), CalendarKey)
  {
    forall i, j | 0 <= i < j < |cal| ensures CalendarKey(cal[i]) != CalendarKey(cal[j]) {}
    SortSorts(cal, CalendarKey);
  }

  lemma ReadingSorts(table: map<Ref, Calendar>)
    requires Keyed(table, CalendarKey)
    ensures StrictlySorted(SortBy(ReadTable(table, CalendarKey), CalendarKey), CalendarKey)
  {
    ReadTableReads(table, CalendarKey);
    SortOfReading(ReadTable(table, CalendarKey), table, CalendarKey);
  }
}
