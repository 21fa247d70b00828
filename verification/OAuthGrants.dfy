/** Authorization codes and rotating refresh tokens (sections 4.1.2 and 6 of RFC 6749), in the two
    forms the service has: maps whose entries are deleted when used, and rows that are marked. */
module OAuthGrants {
  import opened Lib

  type Token = string

  datatype Principal = Principal(id: int, permissions: seq<string>)
  datatype Code = Code(client: string, redirect: string, principal: Principal, scopes: seq<string>, expiresAt: int)
  datatype Access = Access(principal: Principal, expiresAt: int)
  datatype Grant = Grant(client: string, access: Token, principal: Principal, scopes: seq<string>, expiresAt: int)

  datatype Error = InvalidGrant | GrantConsumed | GrantExpired | GenerationFailed | Conflict

  /** The tokens of one response. */
  datatype Pair = Pair(access: Token, refresh: Token)

  const ACCESS_TTL := 3600
  const REFRESH_TTL := 30 * 24 * 3600

  /** The values of `left` that are also in `right`, in the order of `left`. */
  function Intersect(left: seq<string>, right: seq<string>): seq<string>
    decreases |left|
  {
    if left == [] then []
    else Intersect(left[..|left| - 1], right) + if left[|left| - 1] in right then [left[|left| - 1]] else []
  }

  lemma {:induction false} IntersectIsBoth(left: seq<string>, right: seq<string>)
    ensures forall x :: x in Intersect(left, right) <==> x in left && x in right
    decreases |left|
  {
    if left != [] {
      IntersectIsBoth(left[..|left| - 1], right);
      assert left == left[..|left| - 1] + [left[|left| - 1]];
    }
  }

  /** The intersection is the first list without what the second lacks: in its order, repetitions
      included. */
  lemma {:induction false} IntersectInOrder(left: seq<string>, right: seq<string>) returns (at: seq<nat>)
    ensures Picks(left, at, Intersect(left, right))
    ensures forall j: nat :: j in at <==> j < |left| && left[j] in right
    decreases |left|
  {
    at := [];
    if left != [] {
      var rest, last := left[..|left| - 1], left[|left| - 1];
      var before := IntersectInOrder(rest, right);
      at := PicksOneMore(rest, before, Intersect(rest, right), last, last in right);
      assert left == rest + [last];
    }
  }

  lemma {:induction false} IntersectAppend(a: seq<string>, b: seq<string>, right: seq<string>)
    ensures Intersect(a + b, right) == Intersect(a, right) + Intersect(b, right)
    decreases |b|
  {
    if b == [] {
      assert a + b == a;
    } else {
      assert (a + b)[..|a + b| - 1] == a + b[..|b| - 1];
      IntersectAppend(a, b[..|b| - 1], right);
    }
  }

  /** Narrowing once more by the same scopes changes nothing. */
  lemma {:induction false} IntersectAgain(left: seq<string>, right: seq<string>)
    ensures Intersect(Intersect(left, right), right) == Intersect(left, right)
    decreases |left|
  {
    if left != [] {
      IntersectAgain(left[..|left| - 1], right);
      var rest, last := Intersect(left[..|left| - 1], right), left[|left| - 1];
      if last in right {
        IntersectAppend(rest, [last], right);
        assert [last][..|[last]| - 1] == [] && Intersect([], right) == [];
      } else {
        assert rest + [] == rest;
      }
    }
  }

  method IntersectStrings(left: seq<string>, right: seq<string>) returns (result: seq<string>)
    ensures result == Intersect(left, right)
  {
    if |left| == 0 || |right| == 0 {
      IntersectIsBoth(left, right);
      assert Intersect(left, right) != [] ==> Intersect(left, right)[0] in Intersect(left, right);
      return [];
    }
    var rightSet: set<string> := {};
    for i := 0 to |right|
      invariant forall x :: x in rightSet <==> x in right[..i]
    {
      rightSet := rightSet + {right[i]};
    }
    result := [];
    assert left[..0] == [];
    for i := 0 to |left|
      invariant result == Intersect(left[..i], right)
    {
      assert left[..i + 1][..i] == left[..i];
      if left[i] in rightSet { result := result + [left[i]]; }
    }
    assert left[..|left|] == left;
  }

  function Scoped(p: Principal, scopes: seq<string>): Principal { p.(permissions := Intersect(p.permissions, scopes)) }

  // ---------- the map form ----------

  datatype Maps = Maps(codes: map<string, Code>, tokens: map<Token, Access>, refresh: map<Token, Grant>)

  function Issued(m: Maps, t: Pair, client: string, principal: Principal, scopes: seq<string>, now: int): Maps {
    m.(tokens := m.tokens[t.access := Access(Scoped(principal, scopes), now + ACCESS_TTL)],
       refresh := m.refresh[t.refresh := Grant(client, t.access, principal, scopes, now + REFRESH_TTL)])
  }

  /** `drawn` is what the random source yields, if it does. The code is deleted first. */
  function MapExchange(m: Maps, code: string, client: string, redirect: string, now: int, drawn: Option<Pair>): (Result<Pair, Error>, Maps) {
    if code !in m.codes then (Err(InvalidGrant), m)
    else
      var c := m.codes[code];
      if c.client != client || c.redirect != redirect then (Err(InvalidGrant), m)
      else if c.expiresAt <= now then (Err(GrantExpired), m)
      else
        var used := m.(codes := m.codes - {code});
        match drawn
        case None => (Err(GenerationFailed), used)
        case Some(t) => (Ok(t), Issued(used, t, c.client, c.principal, c.scopes, now))
  }

  /** The presented refresh token and the access token it came with are both gone. */
  function Superseded(m: Maps, refresh: Token): Maps
    requires refresh in m.refresh
  {
    m.(refresh := m.refresh - {refresh}, tokens := m.tokens - {m.refresh[refresh].access})
  }

  function MapRotate(m: Maps, refresh: Token, client: string, now: int, drawn: Option<Pair>): (Result<Pair, Error>, Maps) {
    if refresh !in m.refresh then (Err(InvalidGrant), m)
    else
      var g := m.refresh[refresh];
      if g.client != client then (Err(InvalidGrant), m)
      else if g.expiresAt <= now then (Err(GrantExpired), m)
      else
        var used := Superseded(m, refresh);
        match drawn
        case None => (Err(GenerationFailed), used)
        case Some(t) => (Ok(t), Issued(used, t, g.client, g.principal, g.scopes, now))
  }

  function MapAuthenticate(m: Maps, token: Token, now: int): Option<Principal> {
    if token in m.tokens && now < m.tokens[token].expiresAt then Some(m.tokens[token].principal) else None
  }

  datatype Call =
    | Exchange(code: string, client: string, redirect: string, now: int, drawn: Option<Pair>)
    | Rotate(refresh: Token, client: string, now: int, drawn: Option<Pair>)

  function MapCall(m: Maps, c: Call): (Result<Pair, Error>, Maps) {
    match c
    case Exchange(code, client, redirect, now, drawn) => MapExchange(m, code, client, redirect, now, drawn)
    case Rotate(refresh, client, now, drawn) => MapRotate(m, refresh, client, now, drawn)
  }

  // ---------- the row form ----------

  datatype CodeRow = CodeRow(code: Code, consumedAt: Option<int>)
  datatype TokenRow = TokenRow(access: Token, client: string, principal: Principal, scopes: seq<string>,
    accessExpiresAt: int, refreshExpiresAt: int, revokedAt: Option<int>)

  /** Token rows by their refresh token; both token columns are unique. */
  datatype Tables = Tables(codes: map<string, CodeRow>, rows: map<Token, TokenRow>)

  predicate AccessTaken(rows: map<Token, TokenRow>, access: Token) { exists k :: k in rows && rows[k].access == access }

  function Insert(t: Tables, p: Pair, client: string, principal: Principal, scopes: seq<string>, now: int): Option<Tables> {
    if p.refresh in t.rows || AccessTaken(t.rows, p.access) then None
    else Some(t.(rows := t.rows[p.refresh := TokenRow(p.access, client, principal, scopes, now + ACCESS_TTL, now + REFRESH_TTL, None)]))
  }

  function RowExchange(t: Tables, code: string, client: string, redirect: string, now: int, drawn: Option<Pair>): (Result<Pair, Error>, Tables) {
    if code == "" || code !in t.codes then (Err(InvalidGrant), t)
    else
      var row := t.codes[code];
      if row.code.client != client || row.code.redirect != redirect then (Err(InvalidGrant), t)
      else if row.consumedAt.Some? then (Err(GrantConsumed), t)
      else if row.code.expiresAt <= now then (Err(GrantExpired), t)
      else if drawn.None? then (Err(GenerationFailed), t)
      else
        match Insert(t.(codes := t.codes[code := row.(consumedAt := Some(now))]), drawn.value, row.code.client, row.code.principal, row.code.scopes, now)
        case None => (Err(Conflict), t)
        case Some(t') => (Ok(drawn.value), t')
  }

  function RowRotate(t: Tables, refresh: Token, client: string, now: int, drawn: Option<Pair>): (Result<Pair, Error>, Tables) {
    if refresh == "" || refresh !in t.rows then (Err(InvalidGrant), t)
    else
      var row := t.rows[refresh];
      if row.client != client then (Err(InvalidGrant), t)
      else if row.revokedAt.Some? then (Err(GrantConsumed), t)
      else if row.refreshExpiresAt <= now then (Err(GrantExpired), t)
      else if drawn.None? then (Err(GenerationFailed), t)
      else
        match Insert(t.(rows := t.rows[refresh := row.(revokedAt := Some(now))]), drawn.value, row.client, row.principal, row.scopes, now)
        case None => (Err(Conflict), t)
        case Some(t') => (Ok(drawn.value), t')
  }

  predicate Carries(row: TokenRow, token: Token, now: int) { row.access == token && row.accessExpiresAt > now && row.revokedAt.None? }

  ghost function RowAuthenticate(t: Tables, token: Token, now: int): Option<Principal> {
    if token != "" && exists k :: k in t.rows && Carries(t.rows[k], token, now) then
      var k :| k in t.rows && Carries(t.rows[k], token, now);
      Some(Scoped(t.rows[k].principal, t.rows[k].scopes))
    else None
  }

  function RowCall(t: Tables, c: Call): (Result<Pair, Error>, Tables) {
    match c
    case Exchange(code, client, redirect, now, drawn) => RowExchange(t, code, client, redirect, now, drawn)
    case Rotate(refresh, client, now, drawn) => RowRotate(t, refresh, client, now, drawn)
  }
}
