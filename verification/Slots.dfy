/** Offering slots: availability rows in a window, minus those a clipped query of accepted
    bookings overlaps. Instants are microseconds; a slot also keeps the text it was written as. */
module Slots {
  import opened Lib

  datatype Slot = Slot(text: string, at: int, minutes: nat)
  datatype SlotRow = SlotRow(eventType: int, timeZone: string, slot: Slot)
  datatype BookingRow = BookingRow(eventType: int, accepted: bool, start: int, end: int)
  datatype BusyTime = BusyTime(start: int, end: int)
  datatype Request = Request(eventType: int, timeZone: string, start: int, end: int)

  /** The tables the slot queries read; slot rows in time order. */
  datatype Tables = Tables(eventTypes: set<int>, slots: seq<SlotRow>, bookings: seq<BookingRow>)

  type Days = map<string, seq<Slot>>

  const MINUTE := 60_000_000
  const MICROSECOND := 1

  function EndOf(s: Slot): int { s.at + s.minutes * MINUTE }

  predicate Overlaps(s: Slot, start: int, end: int) { s.at < end && start < EndOf(s) }

  predicate Within(t: int, from: int, to: int) { from <= t < to }

  /** A slot of some length overlaps a busy time of some length exactly when an instant is in both;
      neither holds its own end. */
  lemma OverlapsIsMeeting(s: Slot, start: int, end: int)
    requires s.minutes > 0 && start < end
    ensures Overlaps(s, start, end) <==> exists t :: Within(t, s.at, s.at + s.minutes * 60_000_000) && Within(t, start, end)
  {
    if Overlaps(s, start, end) {
      var t := Max(s.at, start);
      assert Within(t, s.at, s.at + s.minutes * 60_000_000) && Within(t, start, end);
    }
  }

  // ---------- what the loops compute ----------

  predicate Blocked(s: Slot, busy: seq<BusyTime>) { exists i :: 0 <= i < |busy| && Overlaps(s, busy[i].start, busy[i].end) }

  function Free(slots: seq<Slot>, busy: seq<BusyTime>): seq<Slot>
    decreases |slots|
  {
    if slots == [] then []
    else Free(slots[..|slots| - 1], busy) + if Blocked(slots[|slots| - 1], busy) then [] else [slots[|slots| - 1]]
  }

  lemma {:induction false} FreeMembers(slots: seq<Slot>, busy: seq<BusyTime>)
    ensures forall s :: s in Free(slots, busy) <==> s in slots && !Blocked(s, busy)
    decreases |slots|
  {
    if slots != [] {
      FreeMembers(slots[..|slots| - 1], busy);
      assert slots == slots[..|slots| - 1] + [slots[|slots| - 1]];
    }
  }

  /** The free slots keep their order, repetitions included. */
  lemma {:induction false} FreeInOrder(slots: seq<Slot>, busy: seq<BusyTime>) returns (at: seq<nat>)
    ensures Picks(slots, at, Free(slots, busy))
    ensures forall j: nat :: j in at <==> j < |slots| && !Blocked(slots[j], busy)
    decreases |slots|
  {
    at := [];
    if slots != [] {
      var rest, last := slots[..|slots| - 1], slots[|slots| - 1];
      var before := FreeInOrder(rest, busy);
      at := PicksOneMore(rest, before, Free(rest, busy), last, !Blocked(last, busy));
      assert slots == rest + [last];
    }
  }

  ghost predicate Offers(days: Days, s: Slot) { exists day :: day in days && s in days[day] }

  ghost predicate OffersText(days: Days, text: string) { exists s :: Offers(days, s) && s.text == text }

  /** A booking that the clipped query returns. */
  predicate InWindow(b: BookingRow, q: Request) { b.eventType == q.eventType && b.accepted && b.start < q.end && b.end > q.start }

  predicate SlotInWindow(r: SlotRow, q: Request) {
    r.eventType == q.eventType && r.timeZone == q.timeZone && q.start <= r.slot.at < q.end
  }

  // ---------- the queries and the service ----------

  method BusyTimes(t: Tables, q: Request) returns (busy: seq<BusyTime>)
    ensures forall s :: Blocked(s, busy) <==> exists b :: b in t.bookings && InWindow(b, q) && Overlaps(s, b.start, b.end)
  {
    busy := [];
    ghost var from: seq<BookingRow> := [];
    for i := 0 to |t.bookings|
      invariant |from| == |busy| && forall j :: 0 <= j < |busy| ==> busy[j] == BusyTime(from[j].start, from[j].end)
      invariant forall b :: b in from <==> b in t.bookings[..i] && InWindow(b, q)
    {
      var b := t.bookings[i];
      if b.eventType == q.eventType && b.accepted && b.start < q.end && b.end > q.start {
        busy := busy + [BusyTime(b.start, b.end)];
        from := from + [b];
      }
    }
    forall s ensures Blocked(s, busy) <==> exists b :: b in t.bookings && InWindow(b, q) && Overlaps(s, b.start, b.end) {
      if b :| b in t.bookings && InWindow(b, q) && Overlaps(s, b.start, b.end) {
        assert b in from;
        var j :| 0 <= j < |from| && from[j] == b;
        assert Overlaps(s, busy[j].start, busy[j].end);
      }
      if Blocked(s, busy) {
        var j :| 0 <= j < |busy| && Overlaps(s, busy[j].start, busy[j].end);
        assert from[j] in from;
      }
    }
  }

  method SlotOverlapsBusyTime(s: Slot, busy: seq<BusyTime>) returns (blocked: bool)
    ensures blocked == Blocked(s, busy)
  {
    for i := 0 to |busy|
      invariant forall j :: 0 <= j < i ==> !Overlaps(s, busy[j].start, busy[j].end)
    {
      if s.at < busy[i].end && busy[i].start < EndOf(s) { return true; }
    }
    return false;
  }

  /** Every slot stands under its own day, and no day is empty. */
  ghost predicate ByDay(days: Days, dayOf: Slot -> string) {
    && (forall d :: d in days ==> days[d] != [])
    && forall d, s :: d in days && s in days[d] ==> dayOf(s) == d
  }

  /** The slots of one day among some rows, in their order. */
  function OfDay(rows: seq<SlotRow>, q: Request, dayOf: Slot -> string, d: string): seq<Slot>
    decreases |rows|
  {
    if rows == [] then []
    else
      var r := rows[|rows| - 1];
      OfDay(rows[..|rows| - 1], q, dayOf, d) + if SlotInWindow(r, q) && dayOf(r.slot) == d then [r.slot] else []
  }

  lemma {:induction false} OfDayMembers(rows: seq<SlotRow>, q: Request, dayOf: Slot -> string, d: string)
    ensures forall s :: s in OfDay(rows, q, dayOf, d) <==> dayOf(s) == d && exists r :: r in rows && r.slot == s && SlotInWindow(r, q)
    decreases |rows|
  {
    if rows != [] {
      var last := rows[|rows| - 1];
      OfDayMembers(rows[..|rows| - 1], q, dayOf, d);
      assert rows == rows[..|rows| - 1] + [last];
    }
  }

  function SlotsOf(rows: seq<SlotRow>): seq<Slot> { seq(|rows|, i requires 0 <= i < |rows| => rows[i].slot) }

  /** A day's slots are those of its rows, one by one, in table order. */
  lemma {:induction false} OfDayInOrder(rows: seq<SlotRow>, q: Request, dayOf: Slot -> string, d: string) returns (at: seq<nat>)
    ensures Picks(SlotsOf(rows), at, OfDay(rows, q, dayOf, d))
    ensures forall j: nat :: j in at <==> j < |rows| && OnDay(rows[j], q, dayOf, d)
    decreases |rows|
  {
    at := [];
    if rows != [] {
      var rest, last := rows[..|rows| - 1], rows[|rows| - 1];
      var before := OfDayInOrder(rest, q, dayOf, d);
      at := PicksOneMore(SlotsOf(rest), before, OfDay(rest, q, dayOf, d), last.slot, OnDay(last, q, dayOf, d));
      assert SlotsOf(rows) == SlotsOf(rest) + [last.slot];
    }
  }

  predicate OnDay(r: SlotRow, q: Request, dayOf: Slot -> string, d: string) {
    r.eventType == q.eventType && r.timeZone == q.timeZone && q.start <= r.slot.at < q.end && dayOf(r.slot) == d
  }

  /** Each day lists its slots among these rows, in their order; a day without any is not there. */
  ghost predicate Grouped(days: Days, rows: seq<SlotRow>, q: Request, dayOf: Slot -> string) {
    forall d ::
      && (d in days <==> OfDay(rows, q, dayOf, d) != [])
      && (d in days ==> days[d] == OfDay(rows, q, dayOf, d))
  }

  lemma GroupedOffers(days: Days, rows: seq<SlotRow>, q: Request, dayOf: Slot -> string)
    requires Grouped(days, rows, q, dayOf)
    ensures forall s :: Offers(days, s) <==> exists r :: r in rows && r.slot == s && SlotInWindow(r, q)
    ensures ByDay(days, dayOf)
  {
    forall d, s | d in days && s in days[d] ensures dayOf(s) == d { OfDayMembers(rows, q, dayOf, d); }
    forall s ensures Offers(days, s) <==> exists r :: r in rows && r.slot == s && SlotInWindow(r, q) {
      OfDayMembers(rows, q, dayOf, dayOf(s));
      if Offers(days, s) {
        var d :| d in days && s in days[d];
        assert d == dayOf(s);
      }
      if r :| r in rows && r.slot == s && SlotInWindow(r, q) {
        assert s in OfDay(rows, q, dayOf, dayOf(s));
        assert s in days[dayOf(s)];
      }
    }
  }

  lemma GroupedOneMore(before: Days, after: Days, rows: seq<SlotRow>, r: SlotRow, q: Request, dayOf: Slot -> string)
    requires Grouped(before, rows, q, dayOf)
    requires var d := dayOf(r.slot);
      after == if SlotInWindow(r, q) then before[d := (if d in before then before[d] else []) + [r.slot]] else before
    ensures Grouped(after, rows + [r], q, dayOf)
  {
    assert (rows + [r])[..|rows|] == rows;
    forall d
      ensures d in after <==> OfDay(rows + [r], q, dayOf, d) != []
      ensures d in after ==> after[d] == OfDay(rows + [r], q, dayOf, d)
    {
      assert OfDay(rows + [r], q, dayOf, d) == OfDay(rows, q, dayOf, d) + if SlotInWindow(r, q) && dayOf(r.slot) == d then [r.slot] else [];
    }
  }

  /** Rows of the window, grouped by the local day of their time. */
  method ReadSlots(t: Tables, q: Request, dayOf: Slot -> string) returns (days: Days)
    ensures forall s :: Offers(days, s) <==> exists r :: r in t.slots && r.slot == s && SlotInWindow(r, q)
    ensures ByDay(days, dayOf) && Grouped(days, t.slots, q, dayOf)
  {
    days := map[];
    for i := 0 to |t.slots|
      invariant Grouped(days, t.slots[..i], q, dayOf)
    {
      var r := t.slots[i];
      ghost var before := days;
      if r.eventType == q.eventType && r.timeZone == q.timeZone && q.start <= r.slot.at < q.end {
        var day := dayOf(r.slot);
        days := days[day := (if day in days then days[day] else []) + [r.slot]];
      }
      GroupedOneMore(before, days, t.slots[..i], r, q, dayOf);
      assert t.slots[..i + 1] == t.slots[..i] + [r];
    }
    assert t.slots[..|t.slots|] == t.slots;
    GroupedOffers(days, t.slots, q, dayOf);
  }

  /** Days that lose every slot disappear. */
  method FilterBusySlots(days: Days, busy: seq<BusyTime>) returns (filtered: Days)
    ensures busy == [] ==> filtered == days
    ensures busy != [] ==> filtered == map day | day in days && Free(days[day], busy) != [] :: Free(days[day], busy)
  {
    if |busy| == 0 { return days; }
    filtered := map[];
    var left := days.Keys;
    while left != {}
      invariant left <= days.Keys
      invariant forall day :: day in filtered <==> day in days && day !in left && Free(days[day], busy) != []
      invariant forall day :: day in filtered ==> filtered[day] == Free(days[day], busy)
      decreases |left|
    {
      var day :| day in left;
      left := left - {day};
      var kept := FilterDay(days[day], busy);
      if kept != [] { filtered := filtered[day := kept]; }
    }
  }

  method FilterDay(slots: seq<Slot>, busy: seq<BusyTime>) returns (kept: seq<Slot>)
    ensures kept == Free(slots, busy)
  {
    kept := [];
    for i := 0 to |slots|
      invariant kept == Free(slots[..i], busy)
    {
      assert slots[..i + 1][..i] == slots[..i];
      var blocked := SlotOverlapsBusyTime(slots[i], busy);
      if !blocked { kept := kept + [slots[i]]; }
    }
    assert slots[..|slots|] == slots;
  }

  lemma FilteredOffers(days: Days, filtered: Days, busy: seq<BusyTime>)
    requires busy == [] ==> filtered == days
    requires busy != [] ==> filtered == map day | day in days && Free(days[day], busy) != [] :: Free(days[day], busy)
    ensures forall s :: Offers(filtered, s) <==> Offers(days, s) && !Blocked(s, busy)
  {
    forall s ensures Offers(filtered, s) <==> Offers(days, s) && !Blocked(s, busy) {
      if busy != [] && Offers(days, s) && !Blocked(s, busy) {
        var day :| day in days && s in days[day];
        FreeMembers(days[day], busy);
        assert s in Free(days[day], busy);
        assert s in filtered[day];
      }
      if busy != [] && Offers(filtered, s) {
        var day :| day in filtered && s in filtered[day];
        FreeMembers(days[day], busy);
      }
    }
  }

  lemma FilteredByDay(days: Days, filtered: Days, busy: seq<BusyTime>, dayOf: Slot -> string)
    requires ByDay(days, dayOf)
    requires busy == [] ==> filtered == days
    requires busy != [] ==> filtered == map day | day in days && Free(days[day], busy) != [] :: Free(days[day], busy)
    ensures ByDay(filtered, dayOf)
  {
    forall d, s | d in filtered && s in filtered[d] ensures dayOf(s) == d { FreeMembers(days[d], busy); }
  }

  /** Accepted bookings of the event type that overlap the slot. */
  ghost predicate Conflicts(t: Tables, eventType: int, s: Slot, b: BookingRow) {
    b in t.bookings && b.eventType == eventType && b.accepted && Overlaps(s, b.start, b.end)
  }

  ghost predicate Taken(t: Tables, eventType: int, s: Slot) { exists b :: Conflicts(t, eventType, s, b) }

  ghost predicate Listed(t: Tables, q: Request, s: Slot) { exists r :: r in t.slots && r.slot == s && SlotInWindow(r, q) }

  /** What a window offers: its slots, unless a conflicting booking starts before the window ends. It
      errs on one of its slots exactly when every conflicting booking, and there is one, starts at
      or after the window's end. */
  method ReadAvailable(t: Tables, q: Request, dayOf: Slot -> string) returns (days: Option<Days>)
    ensures days.None? <==> q.eventType !in t.eventTypes
    ensures days.Some? ==> ByDay(days.value, dayOf)
    ensures days.Some? ==> forall s ::
      Offers(days.value, s) <==> Listed(t, q, s) && !exists b :: Conflicts(t, q.eventType, s, b) && b.start < q.end
    ensures days.Some? ==> forall s :: Listed(t, q, s) ==>
      (Offers(days.value, s) == Taken(t, q.eventType, s) <==>
        Taken(t, q.eventType, s) && forall b :: Conflicts(t, q.eventType, s, b) ==> b.start >= q.end)
  {
    if q.eventType !in t.eventTypes { return None; }
    var all := ReadSlots(t, q, dayOf);
    var busy := BusyTimes(t, q);
    var filtered := FilterBusySlots(all, busy);
    FilteredOffers(all, filtered, busy);
    FilteredByDay(all, filtered, busy, dayOf);
    forall s ensures Offers(filtered, s) <==> Listed(t, q, s) && !exists b :: Conflicts(t, q.eventType, s, b) && b.start < q.end {
      if Listed(t, q, s) { BlockedByClippedQuery(t, q, s, busy); }
    }
    return Some(filtered);
  }

  /** Inside a window's slots the clip at its start excludes nothing. */
  lemma BlockedByClippedQuery(t: Tables, q: Request, s: Slot, busy: seq<BusyTime>)
    requires Listed(t, q, s)
    requires Blocked(s, busy) <==> exists b :: b in t.bookings && InWindow(b, q) && Overlaps(s, b.start, b.end)
    ensures Blocked(s, busy) <==> exists b :: Conflicts(t, q.eventType, s, b) && b.start < q.end
  {
    if b :| Conflicts(t, q.eventType, s, b) && b.start < q.end { assert InWindow(b, q); }
    if b :| b in t.bookings && InWindow(b, q) && Overlaps(s, b.start, b.end) { assert Conflicts(t, q.eventType, s, b); }
  }

  method HasSlot(days: Days, text: string) returns (has: bool)
    ensures has <==> OffersText(days, text)
  {
    var left := days.Keys;
    while left != {}
      invariant left <= days.Keys
      invariant forall day, s :: day in days && day !in left && s in days[day] ==> s.text != text
      decreases |left|
    {
      var day :| day in left;
      for i := 0 to |days[day]|
        invariant forall j :: 0 <= j < i ==> days[day][j].text != text
      {
        if days[day][i].text == text {
          assert Offers(days, days[day][i]);
          return true;
        }
      }
      left := left - {day};
    }
    return false;
  }

  method IsAvailable(t: Tables, eventType: int, timeZone: string, text: string, at: int, dayOf: Slot -> string) returns (available: bool)
    ensures available <==> eventType in t.eventTypes && exists s ::
      Listed(t, Request(eventType, timeZone, at, at + MICROSECOND), s) && s.text == text
      && !exists b :: Conflicts(t, eventType, s, b) && b.start < at + MICROSECOND
  {
    var response := ReadAvailable(t, Request(eventType, timeZone, at, at + MICROSECOND), dayOf);
    if response.None? { return false; }
    available := HasSlot(response.value, text);
  }

  // ---------- when the clipped window decides right ----------

  ghost predicate Offered(t: Tables, q: Request, s: Slot) {
    Listed(t, q, s) && !exists b :: Conflicts(t, q.eventType, s, b) && b.start < q.end
  }

  /** A slot that ends by the window's end is offered exactly when no accepted booking of its
      event type overlaps it. */
  lemma SlotsInsideTheWindowAreRight(t: Tables, q: Request, s: Slot)
    requires Listed(t, q, s) && EndOf(s) <= q.end
    ensures Offered(t, q, s) <==> !exists b :: Conflicts(t, q.eventType, s, b)
  {
    if b :| Conflicts(t, q.eventType, s, b) { assert b.start < q.end; }
  }

  /** One text, one row, one instant: the key of the table and the parser's answer. */
  ghost predicate OneRowPerText(t: Tables, parse: string -> int) {
    && (forall r :: r in t.slots ==> r.slot.at == parse(r.slot.text))
    && forall r, r' :: r in t.slots && r' in t.slots && r.eventType == r'.eventType && r.timeZone == r'.timeZone && r.slot.text == r'.slot.text ==> r == r'
  }

  ghost predicate AvailableNow(t: Tables, eventType: int, timeZone: string, text: string, at: int) {
    exists s :: Offered(t, Request(eventType, timeZone, at, at + MICROSECOND), s) && s.text == text
  }

  /** A conflicting booking that starts after the slot has begun. */
  ghost predicate StartsInside(t: Tables, eventType: int, s: Slot, b: BookingRow) {
    Conflicts(t, eventType, s, b) && s.at < b.start
  }

  /** The one-microsecond window of `IsAvailable` and a window that covers the slot differ exactly
      when some accepted booking starts strictly inside the slot and none that overlaps it starts
      before; the narrow window then calls a taken slot available. */
  lemma IsAvailableErrsExactlyWhen(t: Tables, q: Request, s: Slot, parse: string -> int)
    requires OneRowPerText(t, parse) && Listed(t, q, s) && EndOf(s) <= q.end
    ensures var now := AvailableNow(t, q.eventType, q.timeZone, s.text, s.at);
      && (now != Offered(t, q, s) <==>
          (exists b :: StartsInside(t, q.eventType, s, b)) && forall b :: Conflicts(t, q.eventType, s, b) ==> s.at < b.start)
      && (Offered(t, q, s) ==> now)
  {
    SlotsInsideTheWindowAreRight(t, q, s);
    var narrow := Request(q.eventType, q.timeZone, s.at, s.at + MICROSECOND);
    assert Listed(t, narrow, s);
    forall x | Listed(t, narrow, x) && x.text == s.text ensures x == s {}
    assert AvailableNow(t, q.eventType, q.timeZone, s.text, s.at) <==> Offered(t, narrow, s);
    if b :| Conflicts(t, q.eventType, s, b) { assert s.at < b.start ==> StartsInside(t, q.eventType, s, b); }
    if b :| StartsInside(t, q.eventType, s, b) { assert Conflicts(t, q.eventType, s, b); }
  }

  /** So the two agree whenever no accepted booking starts strictly inside the slot. */
  lemma IsAvailableAgrees(t: Tables, q: Request, s: Slot, parse: string -> int)
    requires OneRowPerText(t, parse) && Listed(t, q, s) && EndOf(s) <= q.end
    requires forall b :: b in t.bookings && b.eventType == q.eventType && b.accepted ==> !(s.at < b.start < EndOf(s))
    ensures AvailableNow(t, q.eventType, q.timeZone, s.text, s.at) <==> Offered(t, q, s)
  {
    IsAvailableErrsExactlyWhen(t, q, s, parse);
  }

  /** An input on which they differ: a booking in the second half of the slot. */
  lemma HalfTakenSlotLooksAvailable()
    ensures var s := Slot("15:00", 0, 30);
      var t := Tables({1}, [SlotRow(1, "UTC", s)], [BookingRow(1, true, 15 * MINUTE, 45 * MINUTE)]);
      var q := Request(1, "UTC", 0, 60 * MINUTE);
      AvailableNow(t, 1, "UTC", "15:00", 0) && Listed(t, q, s) && !Offered(t, q, s)
  {
    var s := Slot("15:00", 0, 30);
    var b := BookingRow(1, true, 15 * MINUTE, 45 * MINUTE);
    var t := Tables({1}, [SlotRow(1, "UTC", s)], [b]);
    var q := Request(1, "UTC", 0, 60 * MINUTE);
    assert t.slots[0] == SlotRow(1, "UTC", s) && t.bookings[0] == b;
    assert Listed(t, q, s) && Conflicts(t, 1, s, b);
    IsAvailableErrsExactlyWhen(t, q, s, x => 0);
  }
}
