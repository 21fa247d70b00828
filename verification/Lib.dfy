/** Small shared vocabulary: optional values, results, and the byte order of strings. */
module Lib {
  datatype Option<+T> = None | Some(value: T)

  datatype Result<+T, +E> = Ok(value: T) | Err(error: E)

  function Max(x: int, y: int): int { if x < y then y else x }

  function Min(x: int, y: int): int { if x < y then x else y }

  ghost predicate Increasing(s: seq<nat>) {
    forall i, j :: 0 <= i < j < |s| ==> s[i] < s[j]
  }

  /** `picked` is what stands in `s` at these positions, in order. */
  ghost predicate Picks<T>(s: seq<T>, at: seq<nat>, picked: seq<T>) {
    |at| == |picked| && Increasing(at) && forall i :: 0 <= i < |at| ==> at[i] < |s| && s[at[i]] == picked[i]
  }

  lemma PicksOneMore<T>(s: seq<T>, at: seq<nat>, picked: seq<T>, x: T, takes: bool) returns (next: seq<nat>)
    requires Picks(s, at, picked)
    ensures Picks(s + [x], next, picked + if takes then [x] else [])
    ensures forall j: nat :: j in next <==> j in at || (takes && j == |s|)
  {
    next := if takes then at + [|s|] else at;
    forall i, j | 0 <= i < j < |next| ensures next[i] < next[j] {
      if j == |at| { assert at[i] < |s|; }
    }
  }

  /** Go compares strings byte by byte; a proper prefix comes first. */
  predicate Less(a: string, b: string)
    decreases |a|
  {
    b != [] && (a == [] || a[0] < b[0] || (a[0] == b[0] && Less(a[1..], b[1..])))
  }

  lemma {:induction false} LessIsTotal(a: string, b: string)
    ensures Less(a, b) || a == b || Less(b, a)
    decreases |a|
  {
    if a != [] && b != [] && a[0] == b[0] {
      LessIsTotal(a[1..], b[1..]);
      assert a == [a[0]] + a[1..] && b == [b[0]] + b[1..];
    }
  }

  lemma {:induction false} LessIsAsymmetric(a: string, b: string)
    requires Less(a, b)
    ensures a != b && !Less(b, a)
    decreases |a|
  {
    if a != [] && a[0] == b[0] { LessIsAsymmetric(a[1..], b[1..]); }
  }

  lemma {:induction false} LessIsTransitive(a: string, b: string, c: string)
    requires Less(a, b) && Less(b, c)
    ensures Less(a, c)
    decreases |a|
  {
    if a != [] && a[0] == b[0] == c[0] { LessIsTransitive(a[1..], b[1..], c[1..]); }
  }

  /** Behind prefixes of one length the prefixes decide first. */
  lemma {:induction false} LessByPrefix(p: string, q: string, a: string, b: string)
    requires |p| == |q|
    ensures Less(p + a, q + b) <==> Less(p, q) || (p == q && Less(a, b))
    decreases |p|
  {
    if p == [] {
      assert p + a == a && q + b == b;
    } else {
      assert (p + a)[1..] == p[1..] + a && (q + b)[1..] == q[1..] + b;
      LessByPrefix(p[1..], q[1..], a, b);
      assert p == [p[0]] + p[1..] && q == [q[0]] + q[1..];
    }
  }
}
