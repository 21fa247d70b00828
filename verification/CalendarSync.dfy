/** What a catalog sync computes, exactly when it fails, and the path the status history forms. */
module CalendarSync {
  import opened Lib
  import opened CalendarTables

  // ---------- the catalog ----------

  lemma DistinctExternals(cal: seq<Calendar>, i: int, j: int)
    requires DistinctCalendars(cal) && 0 <= i < |cal| && 0 <= j < |cal| && i != j
    ensures cal[i].ref != cal[j].ref && !SameExternal(cal[i], cal[j])
  {
  }

  ghost predicate HeldFurtherDown(catalog: map<Ref, Calendar>, cal: seq<Calendar>, i: nat)
    requires i < |cal|
  {
    exists j :: i < j < |cal| && cal[j].ref in catalog && SameExternal(catalog[cal[j].ref], cal[i])
  }

  /** The condition under which a sync is stopped by the unique index: a calendar takes the
      external identifier that a calendar further down the snapshot still holds. */
  ghost predicate Blocked(catalog: map<Ref, Calendar>, cal: seq<Calendar>) {
    exists i: nat :: i < |cal| && HeldFurtherDown(catalog, cal, i)
  }

  /** What the upserts start from: only rows the snapshot names, each selected row a snapshot. */
  ghost predicate Pruned(catalog: map<Ref, Calendar>, selected: map<Ref, Selected>, cal: seq<Calendar>) {
    && (forall k :: k in catalog ==> k in CalendarRefs(cal) && catalog[k].ref == k)
    && UniqueExternals(catalog) && Snapshots(catalog, selected)
  }

  /** The catalog after the first n upserts. */
  ghost predicate UpsertedSoFar(catalog: map<Ref, Calendar>, t: map<Ref, Calendar>, cal: seq<Calendar>, n: nat)
    requires n <= |cal|
  {
    && (forall i :: 0 <= i < n ==> cal[i].ref in t && t[cal[i].ref] == cal[i])
    && (forall k :: k in t ==> (exists i :: 0 <= i < n && cal[i].ref == k) || (k in catalog && t[k] == catalog[k]))
    && (forall k :: k in catalog ==> k in t)
  }

  lemma TakenIsHeld(catalog: map<Ref, Calendar>, cal: seq<Calendar>, t: map<Ref, Calendar>, n: nat, k: Ref)
    requires DistinctCalendars(cal) && n < |cal| && UpsertedSoFar(catalog, t, cal, n)
    requires k in t && k != cal[n].ref && SameExternal(t[k], cal[n]) && k in CalendarRefs(cal)
    ensures HeldFurtherDown(catalog, cal, n)
  {
    forall i | 0 <= i < n ensures cal[i].ref != k { DistinctExternals(cal, i, n); }
    var j := IndexOf(cal, k);
    assert n < j && cal[j].ref in catalog;
  }

  lemma IndexOf(cal: seq<Calendar>, k: Ref) returns (j: nat)
    requires k in CalendarRefs(cal)
    ensures j < |cal| && cal[j].ref == k
  {
    var c :| c in cal && c.ref == k;
    j :| 0 <= j < |cal| && cal[j] == c;
  }

  lemma HeldIsTaken(catalog: map<Ref, Calendar>, cal: seq<Calendar>, t: map<Ref, Calendar>, n: nat)
    requires DistinctCalendars(cal) && n < |cal| && UpsertedSoFar(catalog, t, cal, n) && HeldFurtherDown(catalog, cal, n)
    ensures TakenInCatalog(t, cal[n])
  {
    var j :| n < j < |cal| && cal[j].ref in catalog && SameExternal(catalog[cal[j].ref], cal[n]);
    forall i | 0 <= i < j ensures cal[i].ref != cal[j].ref { DistinctExternals(cal, i, j); }
    assert t[cal[j].ref] == catalog[cal[j].ref];
  }

  lemma StillHeld(catalog: map<Ref, Calendar>, cal: seq<Calendar>, t: map<Ref, Calendar>, n: nat)
    requires DistinctCalendars(cal) && n < |cal| && UpsertedSoFar(catalog, t, cal, n)
    requires forall k :: k in t ==> k in CalendarRefs(cal)
    ensures TakenInCatalog(t, cal[n]) <==> HeldFurtherDown(catalog, cal, n)
  {
    if TakenInCatalog(t, cal[n]) {
      var k :| k in t && k != cal[n].ref && SameExternal(t[k], cal[n]);
      TakenIsHeld(catalog, cal, t, n, k);
    }
    if HeldFurtherDown(catalog, cal, n) { HeldIsTaken(catalog, cal, t, n); }
  }

  /** The index on the selected table never stops what the index on the catalog lets pass. */
  lemma SelectedIndexIsSilent(t: map<Ref, Calendar>, s: map<Ref, Selected>, c: Calendar)
    requires Snapshots(t, s) && !TakenInCatalog(t, c)
    ensures !TakenInSelected(s, ToSelected(c))
  {
  }

  lemma NextUpsert(catalog: map<Ref, Calendar>, t: map<Ref, Calendar>, cal: seq<Calendar>, n: nat)
    requires DistinctCalendars(cal) && n < |cal| && UpsertedSoFar(catalog, t, cal, n)
    ensures UpsertedSoFar(catalog, t[cal[n].ref := cal[n]], cal, n + 1)
  {
    forall i | 0 <= i < n ensures cal[i].ref != cal[n].ref { DistinctExternals(cal, i, n); }
  }

  ghost predicate BlockedWithin(catalog: map<Ref, Calendar>, cal: seq<Calendar>, n: nat)
    requires n <= |cal|
  {
    exists i: nat :: i < n && HeldFurtherDown(catalog, cal, i)
  }

  /** What one upsert does to the two tables. */
  ghost predicate UpsertStep(t: map<Ref, Calendar>, s: map<Ref, Selected>, c: Calendar, r: Option<(map<Ref, Calendar>, map<Ref, Selected>)>) {
    && (r.Some? <==> !TakenInCatalog(t, c))
    && (r.Some? ==> r.value.0 == t[c.ref := c] && Snapshots(r.value.0, r.value.1) && r.value.1.Keys == s.Keys)
  }

  lemma SnapshotsRefreshed(t: map<Ref, Calendar>, s: map<Ref, Selected>, c: Calendar)
    requires Snapshots(t, s)
    ensures Snapshots(t[c.ref := c], if c.ref in s then s[c.ref := ToSelected(c)] else s)
  {
  }

  lemma OneUpsert(catalog: map<Ref, Calendar>, selected: map<Ref, Selected>, cal: seq<Calendar>, t: map<Ref, Calendar>, s: map<Ref, Selected>)
    requires cal != [] && UpsertCatalog(catalog, selected, cal[..|cal| - 1]) == Some((t, s)) && Snapshots(t, s)
    ensures UpsertStep(t, s, cal[|cal| - 1], UpsertCatalog(catalog, selected, cal))
  {
    var c := cal[|cal| - 1];
    SnapshotsRefreshed(t, s, c);
    if !TakenInCatalog(t, c) { SelectedIndexIsSilent(t, s, c); }
  }

  lemma NextBlocked(catalog: map<Ref, Calendar>, cal: seq<Calendar>, n: nat)
    requires 0 < n <= |cal|
    ensures BlockedWithin(catalog, cal, n) <==> BlockedWithin(catalog, cal, n - 1) || HeldFurtherDown(catalog, cal, n - 1)
  {
  }

  lemma UpsertOnTop(catalog: map<Ref, Calendar>, selected: map<Ref, Selected>, cal: seq<Calendar>, n: nat, t: map<Ref, Calendar>, s: map<Ref, Selected>)
    requires DistinctCalendars(cal) && Pruned(catalog, selected, cal) && 0 < n <= |cal|
    requires UpsertCatalog(catalog, selected, cal[..n - 1]) == Some((t, s))
    requires UpsertedSoFar(catalog, t, cal, n - 1) && Snapshots(t, s)
    ensures UpsertStep(t, s, cal[n - 1], UpsertCatalog(catalog, selected, cal[..n]))
    ensures TakenInCatalog(t, cal[n - 1]) <==> HeldFurtherDown(catalog, cal, n - 1)
    ensures UpsertedSoFar(catalog, t[cal[n - 1].ref := cal[n - 1]], cal, n)
  {
    assert cal[..n][..n - 1] == cal[..n - 1] && cal[..n][n - 1] == cal[n - 1];
    OneUpsert(catalog, selected, cal[..n], t, s);
    StillHeld(catalog, cal, t, n - 1);
    NextUpsert(catalog, t, cal, n - 1);
  }

  lemma NoUpsertOnTop(catalog: map<Ref, Calendar>, selected: map<Ref, Selected>, cal: seq<Calendar>, n: nat)
    requires 0 < n <= |cal| && UpsertCatalog(catalog, selected, cal[..n - 1]).None?
    ensures UpsertCatalog(catalog, selected, cal[..n]).None?
  {
    assert cal[..n][..n - 1] == cal[..n - 1];
  }

  ghost predicate UpsertsSoFar(catalog: map<Ref, Calendar>, selected: map<Ref, Selected>, cal: seq<Calendar>, n: nat,
                               r: Option<(map<Ref, Calendar>, map<Ref, Selected>)>)
    requires n <= |cal|
  {
    && (r.Some? <==> !BlockedWithin(catalog, cal, n))
    && (r.Some? ==> UpsertedSoFar(catalog, r.value.0, cal, n) && Snapshots(r.value.0, r.value.1) && r.value.1.Keys == selected.Keys)
  }

  lemma {:induction false} Upserts(catalog: map<Ref, Calendar>, selected: map<Ref, Selected>, cal: seq<Calendar>, n: nat)
    requires DistinctCalendars(cal) && Pruned(catalog, selected, cal) && n <= |cal|
    ensures UpsertsSoFar(catalog, selected, cal, n, UpsertCatalog(catalog, selected, cal[..n]))
    decreases n
  {
    if n > 0 {
      Upserts(catalog, selected, cal, n - 1);
      NextBlocked(catalog, cal, n);
      var r := UpsertCatalog(catalog, selected, cal[..n - 1]);
      if r.Some? {
        UpsertOnTop(catalog, selected, cal, n, r.value.0, r.value.1);
      } else {
        NoUpsertOnTop(catalog, selected, cal, n);
      }
    }
  }

  // ---------- the connections ----------

  lemma {:induction false} ConnectionsUpserted(t: map<Ref, Connection>, conns: seq<Connection>)
    requires DistinctConnections(conns)
    ensures UpsertConnections(t, conns).Keys == t.Keys + ConnectionRefs(conns)
    ensures forall c :: c in conns ==> UpsertConnections(t, conns)[c.ref] == Upserted(t, c)
    ensures forall k :: k in t && k !in ConnectionRefs(conns) ==> UpsertConnections(t, conns)[k] == t[k]
    decreases |conns|
  {
    if conns != [] {
      var init, last := conns[..|conns| - 1], conns[|conns| - 1];
      ConnectionsUpserted(t, init);
      LastConnection(conns);
    }
  }

  lemma LastConnection(conns: seq<Connection>)
    requires DistinctConnections(conns) && conns != []
    ensures conns[|conns| - 1].ref !in ConnectionRefs(conns[..|conns| - 1])
    ensures ConnectionRefs(conns) == ConnectionRefs(conns[..|conns| - 1]) + {conns[|conns| - 1].ref}
    ensures forall c :: c in conns <==> c in conns[..|conns| - 1] || c == conns[|conns| - 1]
  {
    assert conns == conns[..|conns| - 1] + [conns[|conns| - 1]];
  }

  // ---------- the whole transaction ----------

  ghost predicate MirrorsCatalog(catalog: map<Ref, Calendar>, cal: seq<Calendar>) {
    catalog.Keys == CalendarRefs(cal) && forall c :: c in cal ==> catalog[c.ref] == c
  }

  ghost predicate MirrorsConnections(was: map<Ref, Connection>, connections: map<Ref, Connection>, conns: seq<Connection>) {
    connections.Keys == ConnectionRefs(conns) && forall c :: c in conns ==> connections[c.ref] == Upserted(was, c)
  }

  /** The tables after a sync: the snapshot's rows, and of the user's choices those that are
      still on offer, as the snapshot now describes them. */
  ghost predicate Synced(db: Db, db': Db, conns: seq<Connection>, cal: seq<Calendar>) {
    && MirrorsCatalog(db'.catalog, cal)
    && MirrorsConnections(db.connections, db'.connections, conns)
    && db'.selected.Keys == db.selected.Keys * CalendarRefs(cal)
    && Snapshots(db'.catalog, db'.selected)
    && db'.destination == (if db.destination.Some? && db.destination.value in CalendarRefs(cal) then db.destination else None)
  }

  lemma PruneKeeps(db: Db, cal: seq<Calendar>)
    requires Inv(db)
    ensures var p := Prune(db, CalendarRefs(cal));
      && Pruned(p.catalog, p.selected, cal)
      && p.selected.Keys == db.selected.Keys * CalendarRefs(cal)
      && p.destination == (if db.destination.Some? && db.destination.value in CalendarRefs(cal) then db.destination else None)
      && p.catalog.Keys == db.catalog.Keys * CalendarRefs(cal) && forall k :: k in p.catalog ==> p.catalog[k] == db.catalog[k]
  {
  }

  lemma UpsertedAllMirrors(catalog: map<Ref, Calendar>, t: map<Ref, Calendar>, cal: seq<Calendar>)
    requires UpsertedSoFar(catalog, t, cal, |cal|) && forall k :: k in catalog ==> k in CalendarRefs(cal)
    ensures MirrorsCatalog(t, cal)
  {
    forall k | k in CalendarRefs(cal) ensures k in t { var j := IndexOf(cal, k); }
    forall k | k in t ensures k in CalendarRefs(cal) {
      if i :| 0 <= i < |cal| && cal[i].ref == k { assert cal[i] in cal; }
    }
  }

  lemma BlockedIsBlockedWithin(catalog: map<Ref, Calendar>, cal: seq<Calendar>)
    ensures Blocked(catalog, cal) <==> BlockedWithin(catalog, cal, |cal|)
  {
  }

  lemma AllUpserted(catalog: map<Ref, Calendar>, selected: map<Ref, Selected>, cal: seq<Calendar>)
    requires DistinctCalendars(cal) && Pruned(catalog, selected, cal)
    ensures UpsertCatalog(catalog, selected, cal).Some? <==> !Blocked(catalog, cal)
    ensures var r := UpsertCatalog(catalog, selected, cal);
      r.Some? ==> MirrorsCatalog(r.value.0, cal) && Snapshots(r.value.0, r.value.1) && r.value.1.Keys == selected.Keys
  {
    Upserts(catalog, selected, cal, |cal|);
    assert cal[..|cal|] == cal;
    BlockedIsBlockedWithin(catalog, cal);
    var r := UpsertCatalog(catalog, selected, cal);
    if r.Some? { UpsertedAllMirrors(catalog, r.value.0, cal); }
  }

  lemma BlockedByStoredRows(db: Db, cal: seq<Calendar>)
    ensures Blocked(Prune(db, CalendarRefs(cal)).catalog, cal) <==> Blocked(db.catalog, cal)
  {
    var p := Prune(db, CalendarRefs(cal)).catalog;
    forall i: nat | i < |cal| ensures HeldFurtherDown(p, cal, i) <==> HeldFurtherDown(db.catalog, cal, i) {
      forall j | 0 <= j < |cal| ensures cal[j].ref in p <==> cal[j].ref in db.catalog {
        assert cal[j] in cal;
      }
    }
  }

  /** The cascade that follows the deletion of connections takes no calendar with it: every row
      of the snapshot hangs on a connection of the snapshot. */
  lemma CascadeIsSilent(db: Db, gone: set<Ref>, conns: seq<Connection>, cal: seq<Calendar>)
    requires MirrorsCatalog(db.catalog, cal) && gone !! ConnectionRefs(conns) && forall c :: c in cal ==> Connected(c, conns)
    ensures DropConnections(db, gone).catalog == db.catalog
  {
    forall k | k in db.catalog ensures db.catalog[k].connection in ConnectionRefs(conns) {
      var j := IndexOf(cal, k);
      assert cal[j] in cal;
      var i :| 0 <= i < |conns| && conns[i].ref == cal[j].connection;
      assert conns[i] in conns;
    }
  }

  /** A sync of a valid snapshot succeeds exactly when no calendar takes the external identifier
      that a calendar further down the snapshot holds in the stored catalog. */
  lemma SyncSucceedsUnlessBlocked(db: Db, conns: seq<Connection>, cal: seq<Calendar>, reason: string)
    requires Inv(db) && ValidCatalog(conns, cal)
    ensures SyncTx(db, conns, cal, reason).Some? <==> !Blocked(db.catalog, cal)
  {
    PruneKeeps(db, cal);
    var p := Prune(db, CalendarRefs(cal));
    AllUpserted(p.catalog, p.selected, cal);
    BlockedByStoredRows(db, cal);
  }

  lemma SyncMirrorsTheSnapshot(db: Db, conns: seq<Connection>, cal: seq<Calendar>, reason: string)
    requires Inv(db) && ValidCatalog(conns, cal) && SyncTx(db, conns, cal, reason).Some?
    ensures Synced(db, SyncTx(db, conns, cal, reason).value, conns, cal)
  {
    PruneKeeps(db, cal);
    var p := Prune(db, CalendarRefs(cal));
    AllUpserted(p.catalog, p.selected, cal);
    var r := UpsertCatalog(p.catalog, p.selected, cal).value;
    ConnectionsUpserted(db.connections, conns);
    var before := p.(connections := UpsertConnections(db.connections, conns),
                     history := db.history + SyncTransitions(db.connections, conns, reason), catalog := r.0, selected := r.1);
    CascadeIsSilent(before, db.connections.Keys - ConnectionRefs(conns), conns, cal);
  }

  lemma SyncedKeepsInv(db: Db, db': Db, conns: seq<Connection>, cal: seq<Calendar>)
    requires Inv(db) && ValidCatalog(conns, cal) && Synced(db, db', conns, cal)
    ensures Inv(db')
  {
    forall k | k in db'.connections ensures db'.connections[k].ref == k {
      var c :| c in conns && c.ref == k;
    }
    forall k | k in db'.catalog ensures db'.catalog[k].ref == k && NamedCalendar(db'.catalog[k]) && db'.catalog[k].connection in db'.connections {
      var j := IndexOf(cal, k);
      assert cal[j] in cal;
      var i :| 0 <= i < |conns| && conns[i].ref == cal[j].connection;
      assert conns[i] in conns;
    }
    forall j, k | j in db'.catalog && k in db'.catalog && SameExternal(db'.catalog[j], db'.catalog[k]) ensures j == k {
      var a := IndexOf(cal, j);
      var b := IndexOf(cal, k);
      assert cal[a] in cal && cal[b] in cal;
      if a != b { DistinctExternals(cal, a, b); }
    }
  }

  /** The failing family is not empty: two calendars that swap their external identifiers are
      rejected in either order, although the snapshot is valid. */
  lemma SwappedIdentifiersAreRejected()
    ensures var conns := [Connection("c", "p", "a", "e", "active", "", "")];
      var x, y := Calendar("x", "c", "p", "1", "X", true, true), Calendar("y", "c", "p", "2", "Y", false, true);
      var x', y' := x.(externalId := "2"), y.(externalId := "1");
      var db := Db(map["c" := conns[0]], map["x" := x, "y" := y], map[], None, []);
      && Inv(db)
      && ValidCatalog(conns, [x', y']) && SyncTx(db, conns, [x', y'], "sync").None?
      && ValidCatalog(conns, [y', x']) && SyncTx(db, conns, [y', x'], "sync").None?
  {
    var x, y := Calendar("x", "c", "p", "1", "X", true, true), Calendar("y", "c", "p", "2", "Y", false, true);
    SwappedPairIsRejected(x, y, [x.(externalId := "2"), y.(externalId := "1")]);
    SwappedPairIsRejected(x, y, [y.(externalId := "1"), x.(externalId := "2")]);
  }

  ghost predicate IsSwapped(x: Calendar, y: Calendar, swapped: seq<Calendar>) {
    && x == Calendar("x", "c", "p", "1", "X", true, true) && y == Calendar("y", "c", "p", "2", "Y", false, true)
    && (swapped == [x.(externalId := "2"), y.(externalId := "1")] || swapped == [y.(externalId := "1"), x.(externalId := "2")])
  }

  lemma SwappedPairIsValid(x: Calendar, y: Calendar, swapped: seq<Calendar>)
    requires IsSwapped(x, y, swapped)
    ensures ValidCatalog([Connection("c", "p", "a", "e", "active", "", "")], swapped)
  {
    var conns := [Connection("c", "p", "a", "e", "active", "", "")];
    assert forall c :: c in swapped ==> ExternalKey(c)[|"p"| + 1] == c.externalId[0];
    assert swapped[0] in swapped && swapped[1] in swapped;
    assert conns[0].ref == "c" && conns[0].provider == "p";
  }

  lemma SwappedPairIsRejected(x: Calendar, y: Calendar, swapped: seq<Calendar>)
    requires IsSwapped(x, y, swapped)
    ensures var conns := [Connection("c", "p", "a", "e", "active", "", "")];
      var db := Db(map["c" := conns[0]], map["x" := x, "y" := y], map[], None, []);
      Inv(db) && ValidCatalog(conns, swapped) && SyncTx(db, conns, swapped, "sync").None?
  {
    var conns := [Connection("c", "p", "a", "e", "active", "", "")];
    var db := Db(map["c" := conns[0]], map["x" := x, "y" := y], map[], None, []);
    SwappedPairIsValid(x, y, swapped);
    assert HeldFurtherDown(db.catalog, swapped, 0) by { assert SameExternal(db.catalog[swapped[1].ref], swapped[0]); }
    SyncSucceedsUnlessBlocked(db, conns, swapped, "sync");
  }
}
