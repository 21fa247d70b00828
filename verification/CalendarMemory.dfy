/** The Store without a repository: the same calls on the cache alone. */
module CalendarMemory {
  import opened Lib
  import opened SortedRows
  import opened CalendarTables
  import opened CalendarSync
  import opened CalendarHistory
  import opened CalendarCache

  ghost predicate MemAccepts(m: Cache, op: Op) {
    match op
    case Sync(conns, cal) => ValidCatalog(conns, cal)
    case Refresh(updates, _) => ValidAgainst(m.connections, updates)
    case Select(ref) => ref != "" && Find(m.catalog, CalendarKey, ref).Some?
    case Deselect(ref) => ref != ""
    case SetDestination(ref) => ref != "" && Find(m.selected, SelectedKey, ref).Some?
    case ReadDestination => true
  }

  function FindUpdate(updates: seq<Update>, ref: Ref): Option<Update>
    decreases |updates|
  {
    if updates == [] then None else if updates[0].connection == ref then Some(updates[0]) else FindUpdate(updates[1..], ref)
  }

  function WithUpdate(c: Connection, u: Option<Update>, checkedAt: string): Connection {
    if u.None? then c else Refreshed(c, u.value, checkedAt)
  }

  function Applied(connections: seq<Connection>, updates: seq<Update>, checkedAt: string): seq<Connection>
    decreases |connections|
  {
    if connections == [] then []
    else
      [WithUpdate(connections[0], FindUpdate(updates, connections[0].ref), checkedAt)] + Applied(connections[1..], updates, checkedAt)
  }

  ghost function MemStep(m: Cache, op: Op): Cache {
    if !MemAccepts(m, op) then m
    else
      match op
      case Sync(conns, cal) => CacheSync(m, conns, cal)
      case Refresh(updates, checkedAt) =>
        if updates == [] then m else m.(connections := Applied(SortBy(m.connections, ConnectionKey), updates, checkedAt))
      case Select(ref) => CacheSelect(m, ToSelected(Find(m.catalog, CalendarKey, ref).value))
      case Deselect(ref) => CacheDeselect(m, ref, m.destination == Some(ref))
      case SetDestination(ref) => m.(destination := Some(ref))
      case ReadDestination =>
        if m.destination.Some? && Find(m.selected, SelectedKey, m.destination.value).None? then m.(destination := None) else m
  }

  /** A connection but for the two columns a sync over tables leaves as they were. */
  function Plain(c: Connection): Connection { c.(statusCode := "", checkedAt := "") }

  function Plains(connections: seq<Connection>): (r: seq<Connection>)
    ensures |r| == |connections|
  {
    seq(|connections|, i requires 0 <= i < |connections| => Plain(connections[i]))
  }

  /** The two Stores hold the same connections, offer the same calendars and have the same chosen. */
  predicate Alike(m: Cache, m': Cache) {
    Plains(m.connections) == Plains(m'.connections) && m.catalog == m'.catalog && m.selected == m'.selected && m.destination == m'.destination
  }

  lemma SortedSnapshot(db: Db, cal: seq<Calendar>)
    requires Inv(db) && MirrorsCatalog(db.catalog, cal) && DistinctCalendars(cal)
    ensures SortBy(cal, CalendarKey) == ReadCatalog(db)
  {
    forall i, j | 0 <= i < j < |cal| ensures CalendarKey(cal[i]) != CalendarKey(cal[j]) {}
    forall k | k in db.catalog ensures db.catalog[k] in cal { var j := IndexOf(cal, k); }
    LoadedReads(db);
    SortReads(cal, db.catalog, CalendarKey);
    ReadsIsReadTable(SortBy(cal, CalendarKey), db.catalog, CalendarKey);
  }

  // ---------- the invariant of the memory ----------

  ghost predicate MemOk(m: Cache) {
    && StrictlySorted(m.connections, ConnectionKey)
    && StrictlySorted(m.catalog, CalendarKey)
    && StrictlySorted(m.selected, SelectedKey)
    && (forall s :: s in m.selected ==> Fresh(m.catalog, s) == [s])
    && (m.destination.Some? ==> exists s :: s in m.selected && s.ref == m.destination.value)
  }

  lemma {:induction false} SortMembers<T(!new)>(items: seq<T>, key: T -> string)
    ensures forall x :: x in SortBy(items, key) <==> x in items
    decreases |items|
  {
    if items != [] {
      SortMembers(items[..|items| - 1], key);
      InsertKeepsRows(SortBy(items[..|items| - 1], key), items[|items| - 1], key);
      assert items == items[..|items| - 1] + [items[|items| - 1]];
    }
  }

  lemma {:induction false} SortSorts<T(!new)>(items: seq<T>, key: T -> string)
    requires DistinctKeys(items, key)
    ensures StrictlySorted(SortBy(items, key), key)
    decreases |items|
  {
    if items != [] {
      var init, last := items[..|items| - 1], items[|items| - 1];
      SortSorts(init, key);
      SortMembers(init, key);
      forall y | y in SortBy(init, key) ensures key(y) != key(last) {
        var i :| 0 <= i < |init| && init[i] == y;
        assert key(items[i]) != key(items[|items| - 1]);
      }
      InsertKeepsOrder(SortBy(init, key), last, key);
    }
  }

  lemma SortedAreDistinct<T(!new)>(rows: seq<T>, key: T -> string)
    requires StrictlySorted(rows, key)
    ensures DistinctKeys(rows, key)
  {
    forall i, j | 0 <= i < j < |rows| ensures key(rows[i]) != key(rows[j]) { LessIsAsymmetric(key(rows[i]), key(rows[j])); }
  }

  lemma FreshIsSettled(catalog: seq<Calendar>, s: Selected, x: Selected)
    requires x in Fresh(catalog, s)
    ensures x.ref == s.ref && Fresh(catalog, x) == [x]
  {
    FindFinds(catalog, CalendarKey, s.ref);
  }

  lemma {:induction false} AppliedKeepsRefs(connections: seq<Connection>, updates: seq<Update>, checkedAt: string)
    ensures var r := Applied(connections, updates, checkedAt);
      |r| == |connections| && forall i :: 0 <= i < |r| ==> r[i].ref == connections[i].ref
    decreases |connections|
  {
    if connections != [] { AppliedKeepsRefs(connections[1..], updates, checkedAt); }
  }

  lemma MemRefreshKeeps(m: Cache, updates: seq<Update>, checkedAt: string)
    requires MemOk(m)
    ensures MemOk(m.(connections := Applied(SortBy(m.connections, ConnectionKey), updates, checkedAt)))
  {
    SortedAreDistinct(m.connections, ConnectionKey);
    SortSorts(m.connections, ConnectionKey);
    var sorted := SortBy(m.connections, ConnectionKey);
    AppliedKeepsRefs(sorted, updates, checkedAt);
    var r := Applied(sorted, updates, checkedAt);
    forall i, j | 0 <= i < j < |r| ensures Less(ConnectionKey(r[i]), ConnectionKey(r[j])) {
      assert Less(ConnectionKey(sorted[i]), ConnectionKey(sorted[j]));
    }
  }

  lemma MemSyncKeeps(m: Cache, conns: seq<Connection>, cal: seq<Calendar>)
    requires MemOk(m) && DistinctConnections(conns) && DistinctCalendars(cal)
    ensures MemOk(CacheSync(m, conns, cal))
  {
    forall i, j | 0 <= i < j < |conns| ensures ConnectionKey(conns[i]) != ConnectionKey(conns[j]) {}
    SortSorts(conns, ConnectionKey);
    var catalog := SortBy(cal, CalendarKey);
    forall i, j | 0 <= i < j < |cal| ensures CalendarKey(cal[i]) != CalendarKey(cal[j]) {}
    SortSorts(cal, CalendarKey);
    RefreshKeepsOrder(m.selected, catalog);
    RefreshMembers(m.selected, catalog);
    var now := RefreshSelected(m.selected, catalog);
    forall s | s in now ensures Fresh(catalog, s) == [s] {
      var i :| 0 <= i < |m.selected| && s in Fresh(catalog, m.selected[i]);
      FreshIsSettled(catalog, m.selected[i], s);
    }
    if m.destination.Some? && Find(catalog, CalendarKey, m.destination.value).Some? {
      var s :| s in m.selected && s.ref == m.destination.value;
      var i :| 0 <= i < |m.selected| && m.selected[i] == s;
      var x := ToSelected(Find(catalog, CalendarKey, s.ref).value);
      assert x in Fresh(catalog, m.selected[i]);
      FreshIsSettled(catalog, s, x);
      assert x in now;
    }
  }

  lemma MemSelectKeeps(m: Cache, ref: Ref)
    requires MemOk(m) && Find(m.catalog, CalendarKey, ref).Some?
    ensures MemOk(CacheSelect(m, ToSelected(Find(m.catalog, CalendarKey, ref).value)))
  {
    var s := ToSelected(Find(m.catalog, CalendarKey, ref).value);
    FindFinds(m.catalog, CalendarKey, ref);
    SortedAreDistinct(m.selected, SelectedKey);
    ReplacedMembers(m.selected, s);
    ReplacedStaysDistinct(m.selected, s);
    SortSorts(Replaced(m.selected, s), SelectedKey);
    SortMembers(Replaced(m.selected, s), SelectedKey);
    if m.destination.Some? {
      var d :| d in m.selected && d.ref == m.destination.value;
      assert (if d.ref == s.ref then s else d) in SortBy(Replaced(m.selected, s), SelectedKey);
    }
  }

  lemma MemDeselectKeeps(m: Cache, ref: Ref)
    requires MemOk(m)
    ensures MemOk(CacheDeselect(m, ref, m.destination == Some(ref)))
  {
    WithoutRows(m.selected, ref);
    if m.destination.Some? && m.destination.value != ref {
      var d :| d in m.selected && d.ref == m.destination.value;
      assert d in Without(m.selected, ref);
    }
  }

  lemma MemStepKeeps(m: Cache, op: Op)
    requires MemOk(m)
    ensures MemOk(MemStep(m, op))
  {
    if MemAccepts(m, op) {
      match op
      case Sync(conns, cal) => MemSyncKeeps(m, conns, cal);
      case Select(ref) => MemSelectKeeps(m, ref);
      case Deselect(ref) => MemDeselectKeeps(m, ref);
      case Refresh(updates, checkedAt) => MemRefreshKeeps(m, updates, checkedAt);
      case SetDestination(ref) => FindFinds(m.selected, SelectedKey, ref);
      case ReadDestination =>
    }
  }

  ghost function MemRun(m: Cache, ops: seq<Op>): Cache
    decreases |ops|
  {
    if ops == [] then m else MemStep(MemRun(m, ops[..|ops| - 1]), ops[|ops| - 1])
  }

  /** Without seed data, every state the memory reaches has the selected calendars strictly sorted,
      each the snapshot of its catalog entry, and the destination among them. */
  lemma {:induction false} SelectionsAreSnapshots(ops: seq<Op>)
    ensures MemOk(MemRun(EMPTY_CACHE, ops))
    decreases |ops|
  {
    if ops != [] {
      SelectionsAreSnapshots(ops[..|ops| - 1]);
      MemStepKeeps(MemRun(EMPTY_CACHE, ops[..|ops| - 1]), ops[|ops| - 1]);
    }
  }

  // ---------- the memory and the tables ----------

  /** The exception: a snapshot in order that the unique index stops. */
  ghost predicate BlockedSync(db: Db, op: Op) { op.Sync? && ValidCatalog(op.conns, op.cal) && Blocked(db.catalog, op.cal) }

  function PlainTable(table: map<Ref, Connection>): map<Ref, Connection> { map k | k in table :: Plain(table[k]) }

  lemma PlainReads(rows: seq<Connection>, table: map<Ref, Connection>)
    requires Reads(rows, table, ConnectionKey)
    ensures Reads(Plains(rows), PlainTable(table), ConnectionKey)
  {
    forall k | k in table ensures Plain(table[k]) in Plains(rows) {
      var i :| 0 <= i < |rows| && rows[i] == table[k];
      assert Plains(rows)[i] == Plain(table[k]);
    }
  }

  /** Readings of tables that differ in the two columns only differ in them only. */
  lemma PlainsAgree(a: seq<Connection>, t: map<Ref, Connection>, b: seq<Connection>, t': map<Ref, Connection>)
    requires Reads(a, t, ConnectionKey) && Reads(b, t', ConnectionKey) && PlainTable(t) == PlainTable(t')
    ensures Plains(a) == Plains(b)
  {
    PlainReads(a, t);
    PlainReads(b, t');
    SameMembers(Plains(a), Plains(b), PlainTable(t), ConnectionKey);
    ReadingIsUnique(Plains(a), Plains(b), ConnectionKey);
  }

  lemma {:induction false} FindPlain(a: seq<Connection>, b: seq<Connection>, ref: Ref)
    requires Plains(a) == Plains(b)
    ensures var x, y := Find(a, ConnectionKey, ref), Find(b, ConnectionKey, ref);
      (x.Some? <==> y.Some?) && (x.Some? ==> Plain(x.value) == Plain(y.value))
    decreases |a|
  {
    if a != [] {
      assert Plains(a)[0] == Plain(a[0]) && Plains(b)[0] == Plain(b[0]);
      assert Plains(a[1..]) == Plains(a)[1..] && Plains(b[1..]) == Plains(b)[1..];
      FindPlain(a[1..], b[1..], ref);
    }
  }

  lemma SameChecks(a: seq<Connection>, b: seq<Connection>, updates: seq<Update>)
    requires Plains(a) == Plains(b)
    ensures ValidAgainst(a, updates) <==> ValidAgainst(b, updates)
  {
    forall u | u in updates ensures MatchesCached(a, u) <==> MatchesCached(b, u) { FindPlain(a, b, u.connection); }
  }

  lemma {:induction false} AppliedAt(connections: seq<Connection>, updates: seq<Update>, checkedAt: string, i: nat)
    requires i < |connections|
    ensures var r := Applied(connections, updates, checkedAt);
      |r| == |connections| && r[i] == WithUpdate(connections[i], FindUpdate(updates, connections[i].ref), checkedAt)
    decreases |connections|
  {
    AppliedKeepsRefs(connections, updates, checkedAt);
    if i > 0 { AppliedAt(connections[1..], updates, checkedAt, i - 1); }
  }

  lemma AppliedAlike(a: seq<Connection>, b: seq<Connection>, updates: seq<Update>, checkedAt: string)
    requires Plains(a) == Plains(b)
    ensures Plains(Applied(a, updates, checkedAt)) == Plains(Applied(b, updates, checkedAt))
  {
    AppliedKeepsRefs(a, updates, checkedAt);
    AppliedKeepsRefs(b, updates, checkedAt);
    assert |a| == |Plains(a)| == |b|;
    forall i | 0 <= i < |a| ensures Plain(Applied(a, updates, checkedAt)[i]) == Plain(Applied(b, updates, checkedAt)[i]) {
      assert Plains(a)[i] == Plain(a[i]) && Plains(b)[i] == Plain(b[i]);
      AppliedAt(a, updates, checkedAt, i);
      AppliedAt(b, updates, checkedAt, i);
    }
  }

  lemma {:induction false} FoundUpdate(updates: seq<Update>, ref: Ref)
    ensures FindUpdate(updates, ref).Some? ==> FindUpdate(updates, ref).value in updates && FindUpdate(updates, ref).value.connection == ref
    ensures FindUpdate(updates, ref).None? ==> ref !in UpdatedRefs(updates)
    decreases |updates|
  {
    if updates != [] {
      FoundUpdate(updates[1..], ref);
      assert updates == [updates[0]] + updates[1..];
    }
  }

  /** One row after a status refresh. */
  lemma RefreshedRow(db: Db, updates: seq<Update>, checkedAt: string, reason: string, ref: Ref)
    requires Inv(db) && ValidUpdates(updates) && RefreshTx(db, updates, checkedAt, reason).Some? && ref in db.connections
    ensures RefreshTx(db, updates, checkedAt, reason).value.connections[ref]
      == WithUpdate(db.connections[ref], FindUpdate(updates, ref), checkedAt)
  {
    FoundUpdate(updates, ref);
    match FindUpdate(updates, ref)
    case None => RefreshLeavesOthers(db, updates, checkedAt, reason);
    case Some(u) =>
      var i :| 0 <= i < |updates| && updates[i] == u;
      RefreshApplies(db, updates, checkedAt, reason, i);
  }

  /** What the memory makes of its list is what the refreshed rows read as. */
  lemma AppliedReads(db: Db, updates: seq<Update>, checkedAt: string, reason: string)
    requires Inv(db) && ValidUpdates(updates) && RefreshTx(db, updates, checkedAt, reason).Some?
    ensures Applied(ReadConnections(db), updates, checkedAt) == ReadConnections(RefreshTx(db, updates, checkedAt, reason).value)
  {
    LoadedReads(db);
    var rows, table := ReadConnections(db), RefreshTx(db, updates, checkedAt, reason).value.connections;
    var r := Applied(rows, updates, checkedAt);
    AppliedKeepsRefs(rows, updates, checkedAt);
    forall i | 0 <= i < |r| ensures ConnectionKey(r[i]) == ConnectionKey(rows[i]) && ConnectionKey(r[i]) in table && table[ConnectionKey(r[i])] == r[i] {
      AppliedAt(rows, updates, checkedAt, i);
      RefreshedRow(db, updates, checkedAt, reason, rows[i].ref);
    }
    forall k | k in table ensures table[k] in r && ConnectionKey(table[k]) == k {
      assert db.connections[k] in rows;
      var i :| 0 <= i < |rows| && rows[i] == db.connections[k];
      assert ConnectionKey(r[i]) == k;
    }
    ReadsIsReadTable(r, table, ConnectionKey);
  }

  lemma {:induction false} SortedStays(rows: seq<Connection>)
    requires StrictlySorted(rows, ConnectionKey)
    ensures SortBy(rows, ConnectionKey) == rows
  {
    SortedAreDistinct(rows, ConnectionKey);
    SortSorts(rows, ConnectionKey);
    SortMembers(rows, ConnectionKey);
    ReadingIsUnique(SortBy(rows, ConnectionKey), rows, ConnectionKey);
  }

  lemma PlainsSorted(a: seq<Connection>, b: seq<Connection>)
    requires Plains(a) == Plains(b) && StrictlySorted(a, ConnectionKey)
    ensures StrictlySorted(b, ConnectionKey)
  {
    assert |a| == |Plains(a)| == |b|;
    forall i | 0 <= i < |b| ensures b[i].ref == a[i].ref { assert Plains(a)[i] == Plain(a[i]) && Plains(b)[i] == Plain(b[i]); }
  }

  lemma RefreshStaysAlike(w: World, m: Cache, updates: seq<Update>, checkedAt: string)
    requires WorldOk(w) && Alike(w.cache, m) && Accepts(w, Refresh(updates, checkedAt))
    ensures MemAccepts(m, Refresh(updates, checkedAt)) && Alike(Step(w, Refresh(updates, checkedAt)).cache, MemStep(m, Refresh(updates, checkedAt)))
  {
    SameChecks(w.cache.connections, m.connections, updates);
    LoadedReads(w.db);
    if updates != [] {
      PlainsSorted(w.cache.connections, m.connections);
      SortedStays(m.connections);
      AppliedAlike(w.cache.connections, m.connections, updates, checkedAt);
      AppliedReads(w.db, updates, checkedAt, REFRESH_REASON);
      RefreshStepKeeps(w, updates, checkedAt);
      RefreshedTables(w.db, updates, checkedAt, REFRESH_REASON);
    }
  }

  function TableOf(conns: seq<Connection>): map<Ref, Connection>
    decreases |conns|
  {
    if conns == [] then map[] else TableOf(conns[..|conns| - 1])[conns[|conns| - 1].ref := conns[|conns| - 1]]
  }

  lemma {:induction false} TableOfLists(conns: seq<Connection>)
    requires DistinctConnections(conns)
    ensures TableOf(conns).Keys == ConnectionRefs(conns) && (forall c :: c in conns ==> TableOf(conns)[c.ref] == c)
    decreases |conns|
  {
    if conns != [] {
      LastConnection(conns);
      TableOfLists(conns[..|conns| - 1]);
    }
  }

  lemma SnapshotTable(db: Db, db': Db, conns: seq<Connection>)
    requires DistinctConnections(conns) && MirrorsConnections(db.connections, db'.connections, conns)
    ensures Lists(conns, TableOf(conns), ConnectionKey) && Keyed(TableOf(conns), ConnectionKey)
    ensures PlainTable(TableOf(conns)) == PlainTable(db'.connections)
  {
    var table := TableOf(conns);
    TableOfLists(conns);
    forall k | k in table ensures table[k] in conns && ConnectionKey(table[k]) == k && Plain(table[k]) == Plain(db'.connections[k]) {
      var c :| c in conns && c.ref == k;
    }
    forall i, j | 0 <= i < j < |conns| ensures ConnectionKey(conns[i]) != ConnectionKey(conns[j]) {}
  }

  /** The snapshot's connections sorted, and the upserted rows as they are read. */
  lemma SyncedConnections(db: Db, db': Db, conns: seq<Connection>)
    requires Inv(db') && DistinctConnections(conns) && MirrorsConnections(db.connections, db'.connections, conns)
    ensures Plains(SortBy(conns, ConnectionKey)) == Plains(ReadConnections(db'))
  {
    SnapshotTable(db, db', conns);
    SortReads(conns, TableOf(conns), ConnectionKey);
    LoadedReads(db');
    PlainsAgree(SortBy(conns, ConnectionKey), TableOf(conns), ReadConnections(db'), db'.connections);
  }

  lemma SyncStaysAlike(w: World, m: Cache, conns: seq<Connection>, cal: seq<Calendar>)
    requires WorldOk(w) && Alike(w.cache, m) && Accepts(w, Sync(conns, cal))
    ensures Alike(Step(w, Sync(conns, cal)).cache, MemStep(m, Sync(conns, cal)))
  {
    var db := SyncTx(w.db, conns, cal, SYNC_REASON).value;
    SyncMirrorsTheSnapshot(w.db, conns, cal, SYNC_REASON);
    SyncedKeepsInv(w.db, db, conns, cal);
    SyncStepKeeps(w, conns, cal);
    SortedSnapshot(db, cal);
    SyncedConnections(w.db, db, conns);
    LoadedReads(db);
    SortOfReading(ReadCatalog(db), db.catalog, CalendarKey);
  }

  /** One call on a Store over tables and on one in memory that are alike: the memory accepts what
      the tables accept, and they stay alike, unless a sync is blocked, which only the memory accepts. */
  lemma CallStaysAlike(w: World, m: Cache, op: Op)
    requires WorldOk(w) && Alike(w.cache, m)
    ensures BlockedSync(w.db, op) <==> Accepts(w, op) != MemAccepts(m, op)
    ensures !BlockedSync(w.db, op) ==> Alike(Step(w, op).cache, MemStep(m, op))
  {
    AcceptedExactlyWhen(w, op);
    LoadedReads(w.db);
    match op
    case Sync(conns, cal) => if Accepts(w, op) { SyncStaysAlike(w, m, conns, cal); }
    case Refresh(updates, checkedAt) =>
      SameChecks(w.cache.connections, m.connections, updates);
      if Accepts(w, op) { RefreshStaysAlike(w, m, updates, checkedAt); }
    case Select(ref) => FindReads(ReadCatalog(w.db), w.db.catalog, CalendarKey, ref);
    case Deselect(ref) => FindReads(ReadSelected(w.db), w.db.selected, SelectedKey, ref);
    case SetDestination(ref) => FindReads(ReadSelected(w.db), w.db.selected, SelectedKey, ref);
    case _ =>
  }

  ghost predicate NoneBlocked(w: World, ops: seq<Op>) { forall i :: 0 <= i < |ops| ==> !BlockedSync(Run(w, ops[..i]).db, ops[i]) }

  ghost predicate AnswersAlike(w: World, m: Cache, ops: seq<Op>) {
    forall i :: 0 <= i < |ops| ==> (Accepts(Run(w, ops[..i]), ops[i]) <==> MemAccepts(MemRun(m, ops[..i]), ops[i]))
  }

  lemma {:induction false} StaysAlikeUnlessBlocked(w: World, m: Cache, ops: seq<Op>)
    requires WorldOk(w) && Alike(w.cache, m) && NoneBlocked(w, ops)
    ensures Alike(Run(w, ops).cache, MemRun(m, ops)) && AnswersAlike(w, m, ops)
    decreases |ops|
  {
    if ops != [] {
      var init, last := ops[..|ops| - 1], ops[|ops| - 1];
      forall i | 0 <= i <= |init| ensures init[..i] == ops[..i] {}
      assert NoneBlocked(w, init);
      StaysAlikeUnlessBlocked(w, m, init);
      CacheEqualsTables(w, init);
      CallStaysAlike(Run(w, init), MemRun(m, init), last);
      forall i | 0 <= i < |ops| ensures Accepts(Run(w, ops[..i]), ops[i]) <==> MemAccepts(MemRun(m, ops[..i]), ops[i]) {
        if i < |init| { assert init[i] == ops[i]; }
      }
    }
  }

  /** A Store over tables and one in memory that start alike accept the same calls of a run if and
      only if the run holds no blocked sync; and then they end alike. */
  lemma StoresStayAlike(w: World, m: Cache, ops: seq<Op>)
    requires WorldOk(w) && Alike(w.cache, m)
    ensures AnswersAlike(w, m, ops) <==> NoneBlocked(w, ops)
    ensures NoneBlocked(w, ops) ==> Alike(Run(w, ops).cache, MemRun(m, ops))
  {
    if NoneBlocked(w, ops) {
      StaysAlikeUnlessBlocked(w, m, ops);
    } else {
      var n := FirstBlocked(w, ops, |ops|);
      forall i | 0 <= i <= n ensures ops[..n][..i] == ops[..i] {}
      StaysAlikeUnlessBlocked(w, m, ops[..n]);
      CacheEqualsTables(w, ops[..n]);
      CallStaysAlike(Run(w, ops[..n]), MemRun(m, ops[..n]), ops[n]);
    }
  }

  lemma {:induction false} FirstBlocked(w: World, ops: seq<Op>, n: nat) returns (first: nat)
    requires n <= |ops| && exists i :: 0 <= i < n && BlockedSync(Run(w, ops[..i]).db, ops[i])
    ensures first < n && BlockedSync(Run(w, ops[..first]).db, ops[first])
    ensures forall i :: 0 <= i < first ==> !BlockedSync(Run(w, ops[..i]).db, ops[i])
    decreases n
  {
    if exists i :: 0 <= i < n - 1 && BlockedSync(Run(w, ops[..i]).db, ops[i]) {
      first := FirstBlocked(w, ops, n - 1);
    } else {
      first := n - 1;
    }
  }
}
