/** Concurrent SaveCreated transactions. Each takes the advisory lock of its key's hash, reads the
    key, buffers its writes, and makes them visible and lets the lock go when it commits; any
    other transaction's step may come between two of its own. */
module BookingIdempotency {
  import opened Lib
  import opened WebhookTables

  datatype Request = Request(key: string, uid: string, booking: string, effects: seq<PlannedEffect>)

  datatype Outcome = Outcome(uid: string, duplicate: bool)

  /** Where a transaction stands. `Entered` holds the lock if the key is not empty; `Missed` has
      read that its key is free; `Hit` has read whose booking the key names. */
  datatype Phase =
    | Begun
    | Entered
    | Missed
    | Hit(winner: string)
    | Done(outcome: Outcome)
    | RolledBack

  datatype Process = Process(request: Request, phase: Phase)

  /** Committed rows, the advisory locks held, the transactions, and which of them wrote. */
  datatype World = World(
    bookings: map<string, string>,
    keys: map<string, string>,
    outbox: seq<Effect>,
    locks: map<int, nat>,
    processes: map<nat, Process>,
    writers: seq<nat>)

  const START := World(map[], map[], [], map[], map[], [])

  datatype Label =
    | Call(p: nat, request: Request)
    | Lock(p: nat)
    | ReadKey(p: nat)
    | Commit(p: nat, now: int)
    | Finish(p: nat)
    | Fail(p: nat)

  /** `hashtext`: different keys may share a lock. */
  type Hash = string -> int

  function Unlocked(w: World, h: Hash, p: nat): map<int, nat>
    requires p in w.processes
  {
    var k := w.processes[p].request.key;
    if k != "" && h(k) in w.locks && w.locks[h(k)] == p then w.locks - {h(k)} else w.locks
  }

  function Moved(w: World, p: nat, phase: Phase): map<nat, Process>
    requires p in w.processes
  {
    w.processes[p := w.processes[p].(phase := phase)]
  }

  function Ended(w: World, h: Hash, p: nat, phase: Phase): World
    requires p in w.processes
  {
    w.(processes := Moved(w, p, phase), locks := Unlocked(w, h, p))
  }

  /** The writes of a winner, all at once; an invalid effect or a taken key rolls back instead. */
  function Committed(w: World, h: Hash, p: nat, now: int): World
    requires p in w.processes
  {
    var r := w.processes[p].request;
    match SavePlanned(w.outbox, r.effects, now)
    case None => Ended(w, h, p, RolledBack)
    case Some(outbox) =>
      if r.key != "" && r.key in w.keys then Ended(w, h, p, RolledBack)
      else
        Ended(w, h, p, Done(Outcome(r.uid, false))).(
          bookings := w.bookings[r.uid := r.booking],
          keys := if r.key == "" then w.keys else w.keys[r.key := r.uid],
          outbox := outbox,
          writers := w.writers + [p])
  }

  function Step(w: World, h: Hash, l: Label): Option<World> {
    if l.Call? then
      if l.p in w.processes then None else Some(w.(processes := w.processes[l.p := Process(l.request, Begun)]))
    else if l.p !in w.processes then None
    else
      var x := w.processes[l.p];
      var k := x.request.key;
      match l
      case Lock(p) =>
        if x.phase != Begun then None
        else if k == "" then Some(w.(processes := Moved(w, p, Missed)))
        else if h(k) in w.locks then None
        else Some(w.(processes := Moved(w, p, Entered), locks := w.locks[h(k) := p]))
      case ReadKey(p) =>
        if x.phase != Entered then None
        else Some(w.(processes := Moved(w, p, if k in w.keys then Hit(w.keys[k]) else Missed)))
      case Commit(p, now) =>
        if x.phase == Missed then Some(Committed(w, h, p, now))
        else None
      case Finish(p) =>
        if !x.phase.Hit? then None
        else Some(Ended(w, h, p, Done(Outcome(x.phase.winner, true))))
      case Fail(p) =>
        if x.phase.Done? then None else Some(Ended(w, h, p, RolledBack))
  }

  function Exec(h: Hash, trace: seq<Label>): Option<World>
    decreases |trace|
  {
    if trace == [] then Some(START)
    else
      match Exec(h, trace[..|trace| - 1])
      case None => None
      case Some(w) => Step(w, h, trace[|trace| - 1])
  }

  // ---------- the invariant ----------

  predicate Holds(x: Process) { x.request.key != "" && (x.phase == Entered || x.phase == Missed || x.phase.Hit?) }

  predicate Won(x: Process) { x.phase.Done? && !x.phase.outcome.duplicate }

  ghost predicate ProcessOk(w: World, h: Hash, p: nat) {
    p in w.processes && var x := w.processes[p]; var k := x.request.key;
      && (Holds(x) ==> h(k) in w.locks && w.locks[h(k)] == p)
      && (x.phase == Missed && k != "" ==> k !in w.keys)
      && (x.phase.Hit? ==> k in w.keys && w.keys[k] == x.phase.winner)
      && (x.phase.Done? && k != "" ==> k in w.keys && w.keys[k] == x.phase.outcome.uid)
      && (Won(x) ==> x.phase.outcome.uid == x.request.uid)
      && (p in w.writers <==> Won(x))
  }

  ghost predicate Inv(w: World, h: Hash) {
    && (forall p :: p in w.processes ==> ProcessOk(w, h, p))
    && (forall p :: p in w.writers ==> p in w.processes)
    && (forall k :: k in w.keys ==> w.keys[k] in w.bookings)
    && Apart(w)
  }

  /** Nobody writes twice, and no two under one key. */
  ghost predicate Apart(w: World) {
    && (forall i, j :: 0 <= i < j < |w.writers| ==> w.writers[i] != w.writers[j])
    && (forall p, q :: p in w.writers && q in w.writers && SameKey(w, p, q) ==> p == q)
  }

  predicate SameKey(w: World, p: nat, q: nat) {
    p in w.processes && q in w.processes && w.processes[p].request.key == w.processes[q].request.key != ""
  }

  /** A step of one process leaves the others' facts alone, as long as it takes no lock of theirs
      and only adds keys nobody else has read as free. */
  lemma OthersStayOk(w: World, h: Hash, w': World, p: nat, q: nat)
    requires ProcessOk(w, h, q) && q != p && q in w'.processes && w'.processes[q] == w.processes[q]
    requires forall k :: k in w.keys ==> k in w'.keys && w'.keys[k] == w.keys[k]
    requires forall k :: k in w'.keys && k !in w.keys ==> Holds(w.processes[q]) ==> w.processes[q].request.key != k
    requires forall n :: n in w.locks && w.locks[n] == q ==> n in w'.locks && w'.locks[n] == q
    requires q in w'.writers <==> q in w.writers
    ensures ProcessOk(w', h, q)
  {
    var n := h(w.processes[q].request.key);
    assert Holds(w.processes[q]) ==> n in w.locks && w.locks[n] == q;
  }

  lemma CommitKeepsOthers(w: World, h: Hash, p: nat, now: int, q: nat)
    requires Inv(w, h) && p in w.processes && w.processes[p].phase == Missed && q in w.processes && q != p
    ensures ProcessOk(Committed(w, h, p, now), h, q)
  {
    var w' := Committed(w, h, p, now);
    assert ProcessOk(w, h, p) && ProcessOk(w, h, q);
    OthersStayOk(w, h, w', p, q);
  }

  /** A process that finds its key free is the first to write under it. */
  lemma WritersStayApart(w: World, h: Hash, p: nat)
    requires Inv(w, h) && p in w.processes && w.processes[p].phase == Missed
    ensures p !in w.writers
    ensures forall q :: q in w.writers && w.processes[q].request.key != "" ==> w.processes[q].request.key != w.processes[p].request.key
  {
    assert ProcessOk(w, h, p);
    forall q | q in w.writers && w.processes[q].request.key != "" ensures w.processes[q].request.key != w.processes[p].request.key {
      assert ProcessOk(w, h, q);
    }
  }

  /** A step that changes no row and no request keeps what concerns rows alone. */
  lemma SameRowsKeep(w: World, h: Hash, w': World)
    requires Inv(w, h) && w'.writers == w.writers && w'.keys == w.keys && w'.bookings == w.bookings
    requires forall p :: p in w.processes ==> p in w'.processes && w'.processes[p].request == w.processes[p].request
    requires forall p :: p in w'.processes ==> ProcessOk(w', h, p)
    ensures Inv(w', h)
  {
  }

  lemma MovedKeeps(w: World, h: Hash, l: Label, q: nat)
    requires Inv(w, h) && Step(w, h, l).Some? && !l.Commit? && q in Step(w, h, l).value.processes
    ensures ProcessOk(Step(w, h, l).value, h, q)
  {
    if l.Call? && q == l.p {
      assert q !in w.writers;
    } else {
      assert ProcessOk(w, h, q);
      if q != l.p { OthersStayOk(w, h, Step(w, h, l).value, l.p, q); }
    }
  }

  lemma CommittedSelf(w: World, h: Hash, p: nat, now: int)
    requires Inv(w, h) && p in w.processes && w.processes[p].phase == Missed
    ensures ProcessOk(Committed(w, h, p, now), h, p)
    ensures w.processes[p].request.key !in w.keys || w.processes[p].request.key == ""
  {
    assert ProcessOk(w, h, p);
  }

  lemma CommitKeeps(w: World, h: Hash, p: nat, now: int)
    requires Inv(w, h) && p in w.processes && w.processes[p].phase == Missed
    ensures Inv(Committed(w, h, p, now), h)
  {
    var w' := Committed(w, h, p, now);
    CommittedSelf(w, h, p, now);
    forall q | q in w'.processes && q != p ensures ProcessOk(w', h, q) { CommitKeepsOthers(w, h, p, now, q); }
    if SavePlanned(w.outbox, w.processes[p].request.effects, now).None? {
      SameRowsKeep(w, h, w');
    } else {
      WritersStayApart(w, h, p);
      NewWriterKeeps(w, h, w', p);
    }
  }

  lemma NewWriterApart(w: World, w': World, p: nat)
    requires Apart(w) && p in w.processes && p !in w.writers && forall q :: q in w.writers ==> q in w.processes
    requires forall q :: q in w.writers && w.processes[q].request.key != "" ==> w.processes[q].request.key != w.processes[p].request.key
    requires w'.writers == w.writers + [p]
    requires w'.processes.Keys == w.processes.Keys && forall q :: q in w.processes ==> w'.processes[q].request == w.processes[q].request
    ensures Apart(w')
  {
  }

  lemma NewWriterKeeps(w: World, h: Hash, w': World, p: nat)
    requires Inv(w, h) && p in w.processes && p !in w.writers
    requires forall q :: q in w.writers && w.processes[q].request.key != "" ==> w.processes[q].request.key != w.processes[p].request.key
    requires w'.writers == w.writers + [p] && w'.bookings == w.bookings[w.processes[p].request.uid := w.processes[p].request.booking]
    requires forall k :: k in w'.keys ==> (k in w.keys && w'.keys[k] == w.keys[k]) || w'.keys[k] == w.processes[p].request.uid
    requires w'.processes.Keys == w.processes.Keys && forall q :: q in w.processes ==> w'.processes[q].request == w.processes[q].request
    requires forall q :: q in w'.processes ==> ProcessOk(w', h, q)
    ensures Inv(w', h)
  {
    NewWriterApart(w, w', p);
  }

  lemma StepKeeps(w: World, h: Hash, l: Label)
    requires Inv(w, h) && Step(w, h, l).Some?
    ensures Inv(Step(w, h, l).value, h)
  {
    var w' := Step(w, h, l).value;
    if l.Commit? {
      CommitKeeps(w, h, l.p, l.now);
    } else {
      forall q | q in w'.processes ensures ProcessOk(w', h, q) { MovedKeeps(w, h, l, q); }
      SameRowsKeep(w, h, w');
    }
  }

  lemma {:induction false} InvHolds(h: Hash, trace: seq<Label>)
    requires Exec(h, trace).Some?
    ensures Inv(Exec(h, trace).value, h)
    decreases |trace|
  {
    if trace != [] {
      InvHolds(h, trace[..|trace| - 1]);
      StepKeeps(Exec(h, trace[..|trace| - 1]).value, h, trace[|trace| - 1]);
    }
  }

  /** A key in the table was written by a winner who asked for that booking. */
  ghost predicate Writer(w: World, k: string, p: nat) {
    k in w.keys && p in w.writers && p in w.processes && w.processes[p].request.key == k && w.processes[p].request.uid == w.keys[k]
  }

  lemma StepKeepsWriter(w: World, h: Hash, l: Label, k: string)
    requires Inv(w, h) && Step(w, h, l).Some? && k in Step(w, h, l).value.keys
    requires k in w.keys ==> exists p :: Writer(w, k, p)
    ensures exists p :: Writer(Step(w, h, l).value, k, p)
  {
    var w' := Step(w, h, l).value;
    if k in w.keys {
      var p :| Writer(w, k, p);
      assert ProcessOk(w, h, p);
      assert Writer(w', k, p);
    } else {
      assert Writer(w', k, l.p);
    }
  }

  lemma {:induction false} KeysHaveWriters(h: Hash, trace: seq<Label>, k: string)
    requires Exec(h, trace).Some? && k in Exec(h, trace).value.keys
    ensures exists p :: Writer(Exec(h, trace).value, k, p)
    decreases |trace|
  {
    var init := trace[..|trace| - 1];
    InvHolds(h, init);
    if k in Exec(h, init).value.keys { KeysHaveWriters(h, init, k); }
    StepKeepsWriter(Exec(h, init).value, h, trace[|trace| - 1], k);
  }

  // ---------- what callers get ----------

  /** Under any interleaving all callers that return with one non-empty key return one UID, and of
      them exactly one wrote its booking and its effects. */
  lemma OneWinnerPerKey(h: Hash, trace: seq<Label>, p: nat, q: nat) returns (winner: nat)
    requires Exec(h, trace).Some?
    requires var w := Exec(h, trace).value;
      && p in w.processes && q in w.processes && w.processes[p].request.key == w.processes[q].request.key != ""
      && w.processes[p].phase.Done? && w.processes[q].phase.Done?
    ensures var w := Exec(h, trace).value;
      && w.processes[p].phase.outcome.uid == w.processes[q].phase.outcome.uid
      && w.processes[p].phase.outcome.uid in w.bookings
      && winner in w.writers && winner in w.processes && w.processes[winner].request.key == w.processes[p].request.key
      && w.processes[winner].request.uid == w.processes[p].phase.outcome.uid
      && (w.processes[p].phase.outcome.duplicate <==> p != winner) && (w.processes[q].phase.outcome.duplicate <==> q != winner)
  {
    InvHolds(h, trace);
    var w := Exec(h, trace).value;
    assert ProcessOk(w, h, p) && ProcessOk(w, h, q);
    KeysHaveWriters(h, trace, w.processes[p].request.key);
    winner :| Writer(w, w.processes[p].request.key, winner);
    assert SameKey(w, winner, p) && SameKey(w, winner, q);
  }

  /** The unique key never stops a commit, and a duplicate's booking is always there to be read. */
  lemma KeysNeverCollide(h: Hash, trace: seq<Label>, p: nat)
    requires Exec(h, trace).Some? && p in Exec(h, trace).value.processes
    ensures var w := Exec(h, trace).value; var x := w.processes[p];
      && (x.phase == Missed && x.request.key != "" ==> x.request.key !in w.keys)
      && (x.phase.Hit? ==> x.phase.winner in w.bookings)
  {
    InvHolds(h, trace);
    assert ProcessOk(Exec(h, trace).value, h, p);
  }

  /** Rows change only when a process commits as the winner of its key; every other step, and so
      every loser and every failed transaction, leaves no row. */
  lemma LosersLeaveNoRow(w: World, h: Hash, l: Label)
    requires Inv(w, h) && Step(w, h, l).Some?
    ensures var w' := Step(w, h, l).value;
      if w'.writers == w.writers
      then w'.bookings == w.bookings && w'.keys == w.keys && w'.outbox == w.outbox
      else
        && l.Commit? && w'.writers == w.writers + [l.p] && Won(w'.processes[l.p])
        && w'.bookings == w.bookings[w.processes[l.p].request.uid := w.processes[l.p].request.booking]
        && Some(w'.outbox) == SavePlanned(w.outbox, w.processes[l.p].request.effects, l.now)
  {
    if l.Commit? && w.processes[l.p].phase == Missed { CommittedSelf(w, h, l.p, l.now); }
  }
}
