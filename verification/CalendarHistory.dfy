/** The status history: for each connection, from its insertion on, a path of status changes. */
module CalendarHistory {
  import opened Lib
  import opened CalendarTables
  import opened CalendarSync

  function HistoryOf(h: seq<Transition>, c: Ref): seq<Transition>
    decreases |h|
  {
    if h == [] then [] else HistoryOf(h[..|h| - 1], c) + if h[|h| - 1].connection == c then [h[|h| - 1]] else []
  }

  /** Each row starts where the one before it ended and goes somewhere else. */
  ghost predicate Walk(rows: seq<Transition>, first: string, last: string)
    decreases |rows|
  {
    if rows == [] then first == last
    else
      var row := rows[|rows| - 1];
      row.next == last && row.previous != row.next && Walk(rows[..|rows| - 1], first, row.previous)
  }

  /** `inserted` remembers the status each connection was inserted with. */
  ghost predicate Paths(db: Db, inserted: map<Ref, string>) {
    && (forall c :: c in db.connections ==> c in inserted && Walk(HistoryOf(db.history, c), inserted[c], db.connections[c].status))
    && (forall c :: c !in db.connections ==> HistoryOf(db.history, c) == [])
  }

  lemma {:induction false} HistoryOfAppend(a: seq<Transition>, b: seq<Transition>, c: Ref)
    ensures HistoryOf(a + b, c) == HistoryOf(a, c) + HistoryOf(b, c)
    decreases |b|
  {
    if b == [] {
      assert a + b == a;
    } else {
      assert (a + b)[..|a + b| - 1] == a + b[..|b| - 1];
      HistoryOfAppend(a, b[..|b| - 1], c);
    }
  }

  lemma {:induction false} HistoryOfKept(h: seq<Transition>, gone: set<Ref>, c: Ref)
    ensures HistoryOf(HistoryWithout(h, gone), c) == if c in gone then [] else HistoryOf(h, c)
    decreases |h|
  {
    if h != [] {
      HistoryOfKept(h[..|h| - 1], gone, c);
      var last := h[|h| - 1];
      var kept := HistoryWithout(h[..|h| - 1], gone);
      if last.connection in gone {
        assert kept + [] == kept && HistoryOf(h[..|h| - 1], c) + [] == HistoryOf(h[..|h| - 1], c);
      } else {
        HistoryOfAppend(kept, [last], c);
        HistoryOfOne(last, c);
      }
    }
  }

  lemma HistoryOfOne(row: Transition, c: Ref)
    ensures HistoryOf([row], c) == if row.connection == c then [row] else []
  {
    assert [row][..|[row]| - 1] == [] && HistoryOf([], c) == [];
  }

  lemma WalkOn(rows: seq<Transition>, first: string, row: Transition)
    requires Walk(rows, first, row.previous) && row.previous != row.next
    ensures Walk(rows + [row], first, row.next)
  {
    assert (rows + [row])[..|rows|] == rows;
  }

  // ---------- sync ----------

  lemma {:induction false} SyncWritesNothingFor(existing: map<Ref, Connection>, conns: seq<Connection>, reason: string, c: Ref)
    requires c !in ConnectionRefs(conns) || c !in existing
    ensures HistoryOf(SyncTransitions(existing, conns, reason), c) == []
    decreases |conns|
  {
    if conns != [] {
      var init, last := conns[..|conns| - 1], conns[|conns| - 1];
      assert ConnectionRefs(init) <= ConnectionRefs(conns) && last.ref in ConnectionRefs(conns);
      SyncWritesNothingFor(existing, init, reason, c);
      var rows := SyncTransitions(existing, init, reason);
      if last.ref in existing && existing[last.ref].status != last.status {
        var row := Transition(last.ref, last.provider, existing[last.ref].status, last.status, reason);
        HistoryOfAppend(rows, [row], c);
        HistoryOfOne(row, c);
      } else {
        assert rows + [] == rows;
      }
    }
  }

  /** A sync writes one row about a stored connection whose status it changes, and none otherwise. */
  lemma {:induction false} SyncWrites(existing: map<Ref, Connection>, conns: seq<Connection>, reason: string, i: nat)
    requires DistinctConnections(conns) && i < |conns| && conns[i].ref in existing
    ensures var c := conns[i];
      HistoryOf(SyncTransitions(existing, conns, reason), c.ref)
      == if existing[c.ref].status == c.status then [] else [Transition(c.ref, c.provider, existing[c.ref].status, c.status, reason)]
    decreases |conns|
  {
    var init, last, c := conns[..|conns| - 1], conns[|conns| - 1], conns[i];
    LastConnection(conns);
    var rows := SyncTransitions(existing, init, reason);
    if i < |conns| - 1 { SyncWrites(existing, init, reason, i); } else { SyncWritesNothingFor(existing, init, reason, c.ref); }
    if last.ref in existing && existing[last.ref].status != last.status {
      var row := Transition(last.ref, last.provider, existing[last.ref].status, last.status, reason);
      HistoryOfAppend(rows, [row], c.ref);
      HistoryOfOne(row, c.ref);
    } else {
      assert rows + [] == rows;
    }
  }

  lemma SyncHistory(db: Db, conns: seq<Connection>, cal: seq<Calendar>, reason: string, c: Ref)
    requires SyncTx(db, conns, cal, reason).Some?
    ensures HistoryOf(SyncTx(db, conns, cal, reason).value.history, c)
      == if c in db.connections && c !in ConnectionRefs(conns) then []
         else HistoryOf(db.history, c) + HistoryOf(SyncTransitions(db.connections, conns, reason), c)
  {
    var written := SyncTransitions(db.connections, conns, reason);
    HistoryOfKept(db.history + written, db.connections.Keys - ConnectionRefs(conns), c);
    HistoryOfAppend(db.history, written, c);
  }

  /** A connection counts as inserted anew when it was not in the table. */
  function InsertedBySync(db: Db, conns: seq<Connection>, db': Db, inserted: map<Ref, string>): map<Ref, string> {
    map c | c in db'.connections :: if c in db.connections && c in inserted then inserted[c] else db'.connections[c].status
  }

  lemma SyncExtendsPaths(db: Db, conns: seq<Connection>, cal: seq<Calendar>, reason: string, inserted: map<Ref, string>)
    requires Inv(db) && Paths(db, inserted) && ValidCatalog(conns, cal) && SyncTx(db, conns, cal, reason).Some?
    ensures var db' := SyncTx(db, conns, cal, reason).value; Paths(db', InsertedBySync(db, conns, db', inserted))
  {
    var db' := SyncTx(db, conns, cal, reason).value;
    var inserted' := InsertedBySync(db, conns, db', inserted);
    SyncMirrorsTheSnapshot(db, conns, cal, reason);
    forall c | c in db'.connections ensures Walk(HistoryOf(db'.history, c), inserted'[c], db'.connections[c].status) {
      SyncExtendsPath(db, conns, cal, reason, inserted, c);
    }
    forall c | c !in db'.connections ensures HistoryOf(db'.history, c) == [] {
      SyncHistory(db, conns, cal, reason, c);
      SyncWritesNothingFor(db.connections, conns, reason, c);
    }
  }

  lemma SyncExtendsPath(db: Db, conns: seq<Connection>, cal: seq<Calendar>, reason: string, inserted: map<Ref, string>, c: Ref)
    requires Inv(db) && Paths(db, inserted) && ValidCatalog(conns, cal) && SyncTx(db, conns, cal, reason).Some? && c in ConnectionRefs(conns)
    ensures var db' := SyncTx(db, conns, cal, reason).value;
      c in db'.connections && Walk(HistoryOf(db'.history, c), InsertedBySync(db, conns, db', inserted)[c], db'.connections[c].status)
  {
    SyncMirrorsTheSnapshot(db, conns, cal, reason);
    SyncHistory(db, conns, cal, reason, c);
    var x :| x in conns && x.ref == c;
    var i :| 0 <= i < |conns| && conns[i] == x;
    var was := HistoryOf(db.history, c);
    if c in db.connections {
      SyncWrites(db.connections, conns, reason, i);
      if db.connections[c].status == x.status {
        assert was + [] == was;
      } else {
        WalkOn(was, inserted[c], Transition(c, x.provider, db.connections[c].status, x.status, reason));
      }
    } else {
      SyncWritesNothingFor(db.connections, conns, reason, c);
    }
  }

  // ---------- status refresh ----------

  function UpdatedRefs(updates: seq<Update>): set<Ref> { set u | u in updates :: u.connection }

  lemma LastUpdate(updates: seq<Update>)
    requires ValidUpdates(updates) && updates != []
    ensures ValidUpdates(updates[..|updates| - 1])
    ensures updates[|updates| - 1].connection !in UpdatedRefs(updates[..|updates| - 1])
    ensures UpdatedRefs(updates) == UpdatedRefs(updates[..|updates| - 1]) + {updates[|updates| - 1].connection}
  {
    assert updates == updates[..|updates| - 1] + [updates[|updates| - 1]];
  }

  lemma {:induction false} RefreshLeavesOthers(db: Db, updates: seq<Update>, checkedAt: string, reason: string)
    requires RefreshTx(db, updates, checkedAt, reason).Some?
    ensures forall c :: c in db.connections && c !in UpdatedRefs(updates) ==>
      RefreshTx(db, updates, checkedAt, reason).value.connections[c] == db.connections[c]
    decreases |updates|
  {
    if updates != [] {
      var init, u := updates[..|updates| - 1], updates[|updates| - 1];
      assert UpdatedRefs(init) <= UpdatedRefs(updates) && u in updates;
      RefreshLeavesOthers(db, init, checkedAt, reason);
    }
  }

  /** Every update is applied to its connection as it was stored. */
  lemma {:induction false} RefreshApplies(db: Db, updates: seq<Update>, checkedAt: string, reason: string, i: nat)
    requires ValidUpdates(updates) && RefreshTx(db, updates, checkedAt, reason).Some? && i < |updates|
    ensures var u := updates[i];
      u.connection in db.connections && Matches(db.connections, u)
      && UpdatedTo(db.connections[u.connection], RefreshTx(db, updates, checkedAt, reason).value.connections[u.connection], u, checkedAt)
    decreases |updates|
  {
    var init := updates[..|updates| - 1];
    LastUpdate(updates);
    RefreshLeavesOthers(db, init, checkedAt, reason);
    if i < |init| {
      RefreshApplies(db, init, checkedAt, reason, i);
      assert init[i] in init;
    }
  }

  /** After a refresh that goes through each updated connection has exactly the status, the code and
      the check time of its update and every other column as before, and all others are untouched. */
  lemma TablesUpdated(db: Db, updates: seq<Update>, checkedAt: string, reason: string)
    requires ValidUpdates(updates) && RefreshTx(db, updates, checkedAt, reason).Some?
    ensures TableUpdated(db.connections, RefreshTx(db, updates, checkedAt, reason).value.connections, updates, checkedAt)
  {
    RefreshLeavesOthers(db, updates, checkedAt, reason);
    var now := RefreshTx(db, updates, checkedAt, reason).value.connections;
    forall u | u in updates ensures u.connection in db.connections && UpdatedTo(db.connections[u.connection], now[u.connection], u, checkedAt) {
      var i :| 0 <= i < |updates| && updates[i] == u;
      RefreshApplies(db, updates, checkedAt, reason, i);
    }
  }

  /** And the history has one more row about it exactly if its status changed, from the old to the
      new status, under its provider and with the reason given; about others nothing is written. */
  lemma {:induction false} RefreshWrites(db: Db, updates: seq<Update>, checkedAt: string, reason: string, c: Ref)
    requires ValidUpdates(updates) && RefreshTx(db, updates, checkedAt, reason).Some?
    ensures var h, h' := HistoryOf(db.history, c), HistoryOf(RefreshTx(db, updates, checkedAt, reason).value.history, c);
      && (forall u :: u in updates && u.connection == c ==>
            c in db.connections && h' == h + if db.connections[c].status != u.status then [Transition(c, u.provider, db.connections[c].status, u.status, reason)] else [])
      && ((forall u :: u in updates ==> u.connection != c) ==> h' == h)
    decreases |updates|
  {
    if updates != [] {
      var init, last := updates[..|updates| - 1], updates[|updates| - 1];
      assert updates == init + [last];
      LastUpdate(updates);
      RefreshWrites(db, init, checkedAt, reason, c);
      RefreshHistory(RefreshTx(db, init, checkedAt, reason).value.history, db.connections[last.connection], last, reason, c);
      forall u | u in updates && u.connection == c && u != last ensures u in init && last.connection != c {
        var i :| 0 <= i < |updates| && updates[i] == u;
        assert init[i] == u && u.connection in UpdatedRefs(init);
      }
      if last.connection == c {
        forall u | u in init ensures u.connection != c { assert u.connection in UpdatedRefs(init); }
      }
    }
  }

  lemma {:induction false} RefreshExtendsPaths(db: Db, updates: seq<Update>, checkedAt: string, reason: string, inserted: map<Ref, string>)
    requires Paths(db, inserted) && ValidUpdates(updates) && RefreshTx(db, updates, checkedAt, reason).Some?
    ensures Paths(RefreshTx(db, updates, checkedAt, reason).value, inserted)
    decreases |updates|
  {
    if updates != [] {
      var init, u := updates[..|updates| - 1], updates[|updates| - 1];
      LastUpdate(updates);
      RefreshExtendsPaths(db, init, checkedAt, reason, inserted);
      RefreshLeavesOthers(db, init, checkedAt, reason);
      OneRefreshExtendsPaths(RefreshTx(db, init, checkedAt, reason).value, db.connections[u.connection], u, checkedAt, reason, inserted);
    }
  }

  lemma RefreshHistory(h: seq<Transition>, was: Connection, u: Update, reason: string, c: Ref)
    ensures HistoryOf(h + RefreshTransition(was, u, reason), c)
      == if c == u.connection && was.status != u.status
         then HistoryOf(h, c) + [Transition(c, u.provider, was.status, u.status, reason)] else HistoryOf(h, c)
  {
    var rows := RefreshTransition(was, u, reason);
    HistoryOfAppend(h, rows, c);
    if rows == [] {
      assert h + rows == h;
    } else {
      HistoryOfOne(rows[0], c);
      assert rows == [rows[0]] && HistoryOf(h, c) + [] == HistoryOf(h, c);
    }
  }

  lemma OneRefreshExtendsPaths(d: Db, was: Connection, u: Update, checkedAt: string, reason: string, inserted: map<Ref, string>)
    requires Paths(d, inserted) && u.connection in d.connections && d.connections[u.connection] == was
    ensures Paths(d.(connections := d.connections[u.connection := Refreshed(was, u, checkedAt)],
                     history := d.history + RefreshTransition(was, u, reason)), inserted)
  {
    var connections := d.connections[u.connection := Refreshed(was, u, checkedAt)];
    var history := d.history + RefreshTransition(was, u, reason);
    forall c | c in connections ensures Walk(HistoryOf(history, c), inserted[c], connections[c].status) {
      RefreshHistory(d.history, was, u, reason, c);
      if c == u.connection && was.status != u.status {
        WalkOn(HistoryOf(d.history, c), inserted[c], Transition(c, u.provider, was.status, u.status, reason));
      }
    }
    forall c | c !in connections ensures HistoryOf(history, c) == [] { RefreshHistory(d.history, was, u, reason, c); }
  }
}
