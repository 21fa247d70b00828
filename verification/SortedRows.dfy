/** Rows in key order: what an `order by` of a table's primary key returns, and what a cache
    must do to keep the same list. */
module SortedRows {
  import opened Lib

  ghost predicate StrictlySorted<T(!new)>(rows: seq<T>, key: T -> string) {
    forall i, j :: 0 <= i < j < |rows| ==> Less(key(rows[i]), key(rows[j]))
  }

  ghost predicate Keyed<T(!new)>(table: map<string, T>, key: T -> string) {
    forall k :: k in table ==> key(table[k]) == k
  }

  /** The rows of the table, each once, in key order. */
  ghost predicate Reads<T(!new)>(rows: seq<T>, table: map<string, T>, key: T -> string) {
    && StrictlySorted(rows, key)
    && (forall i :: 0 <= i < |rows| ==> key(rows[i]) in table && table[key(rows[i])] == rows[i])
    && (forall k :: k in table ==> table[k] in rows)
  }

  function Insert<T>(rows: seq<T>, x: T, key: T -> string): seq<T>
    decreases |rows|
  {
    if rows == [] || Less(key(x), key(rows[0])) then [x] + rows else [rows[0]] + Insert(rows[1..], x, key)
  }

  function SortBy<T>(items: seq<T>, key: T -> string): seq<T>
    decreases |items|
  {
    if items == [] then [] else Insert(SortBy(items[..|items| - 1], key), items[|items| - 1], key)
  }

  lemma {:induction false} InsertKeepsRows<T(!new)>(rows: seq<T>, x: T, key: T -> string)
    ensures forall y :: y in Insert(rows, x, key) <==> y in rows || y == x
    decreases |rows|
  {
    if rows != [] && !Less(key(x), key(rows[0])) {
      InsertKeepsRows(rows[1..], x, key);
      assert rows == [rows[0]] + rows[1..];
    }
  }

  lemma {:induction false} InsertKeepsOrder<T(!new)>(rows: seq<T>, x: T, key: T -> string)
    requires StrictlySorted(rows, key) && forall y :: y in rows ==> key(y) != key(x)
    ensures StrictlySorted(Insert(rows, x, key), key)
    decreases |rows|
  {
    if rows == [] {
    } else if Less(key(x), key(rows[0])) {
      forall j | 0 < j < |rows| ensures Less(key(x), key(rows[j])) { LessIsTransitive(key(x), key(rows[0]), key(rows[j])); }
    } else {
      InsertKeepsOrder(rows[1..], x, key);
      InsertKeepsRows(rows[1..], x, key);
      LessIsTotal(key(x), key(rows[0]));
      assert rows[0] in rows;
      var rest := Insert(rows[1..], x, key);
      forall y | y in rest ensures Less(key(rows[0]), key(y)) {
        if y in rows[1..] {
          var i :| 0 <= i < |rows[1..]| && rows[1..][i] == y;
          assert rows[i + 1] == y;
        }
      }
      assert forall j :: 0 <= j < |rest| ==> rest[j] in rest;
    }
  }

  lemma InsertReads<T(!new)>(rows: seq<T>, table: map<string, T>, x: T, key: T -> string)
    requires Reads(rows, table, key) && key(x) !in table
    ensures Reads(Insert(rows, x, key), table[key(x) := x], key)
  {
    InsertKeepsRows(rows, x, key);
    InsertKeepsOrder(rows, x, key);
    var all := Insert(rows, x, key);
    forall i | 0 <= i < |all| ensures key(all[i]) in table[key(x) := x] && table[key(x) := x][key(all[i])] == all[i] {
      assert all[i] in all;
    }
  }

  /** What a query ordered by the primary key returns. */
  ghost function ReadTable<T(!new)>(table: map<string, T>, key: T -> string): seq<T>
    decreases table.Keys
  {
    if table == map[] then []
    else
      var k :| k in table;
      Insert(ReadTable(table - {k}, key), table[k], key)
  }

  lemma {:induction false} ReadTableReads<T(!new)>(table: map<string, T>, key: T -> string)
    requires Keyed(table, key)
    ensures Reads(ReadTable(table, key), table, key)
    decreases table.Keys
  {
    if table != map[] {
      var k :| k in table && ReadTable(table, key) == Insert(ReadTable(table - {k}, key), table[k], key);
      ReadTableReads(table - {k}, key);
      InsertReads(ReadTable(table - {k}, key), table - {k}, table[k], key);
      assert (table - {k})[k := table[k]] == table;
    }
  }

  /** There is only one such list. */
  lemma {:induction false} ReadingIsUnique<T(!new)>(a: seq<T>, b: seq<T>, key: T -> string)
    requires StrictlySorted(a, key) && StrictlySorted(b, key) && forall x :: x in a <==> x in b
    ensures a == b
    decreases |a|
  {
    if a == [] {
      if b != [] { RestOf(b); }
    } else {
      assert a[0] in b;
      SameFirst(a, b, key);
      NotAgain(a, key);
      NotAgain(b, key);
      RestOf(a);
      RestOf(b);
      ReadingIsUnique(a[1..], b[1..], key);
    }
  }

  lemma RestOf<T(!new)>(a: seq<T>)
    requires a != []
    ensures a[0] in a && forall x :: x in a <==> x == a[0] || x in a[1..]
  {
    assert a == [a[0]] + a[1..];
  }

  lemma NotAgain<T(!new)>(a: seq<T>, key: T -> string)
    requires a != [] && StrictlySorted(a, key)
    ensures a[0] !in a[1..]
  {
    if a[0] in a[1..] {
      var i :| 0 <= i < |a[1..]| && a[1..][i] == a[0];
      assert Less(key(a[0]), key(a[i + 1]));
      LessIsAsymmetric(key(a[0]), key(a[i + 1]));
    }
  }

  lemma SameFirst<T(!new)>(a: seq<T>, b: seq<T>, key: T -> string)
    requires a != [] && b != [] && StrictlySorted(a, key) && StrictlySorted(b, key) && forall x :: x in a <==> x in b
    ensures a[0] == b[0]
  {
    assert a[0] in b && b[0] in a;
    var i :| 0 <= i < |b| && b[i] == a[0];
    var j :| 0 <= j < |a| && a[j] == b[0];
    if i > 0 && j > 0 { LessIsAsymmetric(key(a[0]), key(b[0])); }
  }

  lemma ReadsIsReadTable<T(!new)>(rows: seq<T>, table: map<string, T>, key: T -> string)
    requires Reads(rows, table, key) && Keyed(table, key)
    ensures rows == ReadTable(table, key)
  {
    ReadTableReads(table, key);
    SameMembers(rows, ReadTable(table, key), table, key);
    ReadingIsUnique(rows, ReadTable(table, key), key);
  }

  lemma SameMembers<T(!new)>(a: seq<T>, b: seq<T>, table: map<string, T>, key: T -> string)
    requires Reads(a, table, key) && Reads(b, table, key)
    ensures forall x :: x in a <==> x in b
  {
  }

  ghost predicate DistinctKeys<T>(items: seq<T>, key: T -> string) {
    forall i, j :: 0 <= i < j < |items| ==> key(items[i]) != key(items[j])
  }

  /** A list with the table's rows in any order, none twice. */
  ghost predicate Lists<T(!new)>(items: seq<T>, table: map<string, T>, key: T -> string) {
    && DistinctKeys(items, key)
    && (forall x :: x in items ==> key(x) in table && table[key(x)] == x)
    && (forall k :: k in table ==> table[k] in items)
  }

  lemma {:induction false} SortReads<T(!new)>(items: seq<T>, table: map<string, T>, key: T -> string)
    requires Lists(items, table, key) && Keyed(table, key)
    ensures Reads(SortBy(items, key), table, key)
    decreases |items|
  {
    if items == [] {
      assert table == map[];
    } else {
      var init, last := items[..|items| - 1], items[|items| - 1];
      assert items == init + [last];
      var rest := table - {key(last)};
      assert Lists(init, rest, key);
      SortReads(init, rest, key);
      InsertReads(SortBy(init, key), rest, last, key);
      assert last in items && rest[key(last) := last] == table;
    }
  }

  lemma ReadsLists<T(!new)>(rows: seq<T>, table: map<string, T>, key: T -> string)
    requires Reads(rows, table, key)
    ensures Lists(rows, table, key)
  {
    forall i, j | 0 <= i < j < |rows| ensures key(rows[i]) != key(rows[j]) { LessIsAsymmetric(key(rows[i]), key(rows[j])); }
  }

  /** Sorting what is already in key order changes nothing. */
  lemma SortOfReading<T(!new)>(rows: seq<T>, table: map<string, T>, key: T -> string)
    requires Reads(rows, table, key) && Keyed(table, key)
    ensures SortBy(rows, key) == rows
  {
    ReadsLists(rows, table, key);
    SortReads(rows, table, key);
    ReadsIsReadTable(rows, table, key);
    ReadsIsReadTable(SortBy(rows, key), table, key);
  }

  /** The row with this key, by a scan from the front. */
  function Find<T>(rows: seq<T>, key: T -> string, ref: string): Option<T>
    decreases |rows|
  {
    if rows == [] then None else if key(rows[0]) == ref then Some(rows[0]) else Find(rows[1..], key, ref)
  }

  lemma {:induction false} FindFinds<T(!new)>(rows: seq<T>, key: T -> string, ref: string)
    ensures Find(rows, key, ref).Some? ==> Find(rows, key, ref).value in rows && key(Find(rows, key, ref).value) == ref
    ensures Find(rows, key, ref).None? ==> forall x :: x in rows ==> key(x) != ref
    decreases |rows|
  {
    if rows != [] {
      FindFinds(rows[1..], key, ref);
      assert rows == [rows[0]] + rows[1..];
    }
  }

  lemma FindReads<T(!new)>(rows: seq<T>, table: map<string, T>, key: T -> string, ref: string)
    requires Reads(rows, table, key) && Keyed(table, key)
    ensures Find(rows, key, ref) == if ref in table then Some(table[ref]) else None
  {
    FindFinds(rows, key, ref);
  }
}
