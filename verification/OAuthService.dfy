/** The two forms as objects: the fixture service under its mutex, and the repository whose
    transactions mark rows and insert new ones. */
module OAuthService {
  import opened Lib
  import opened OAuthGrants

  class FixtureService {
    var codes: map<string, Code>
    var tokens: map<Token, Access>
    var refreshTokens: map<Token, Grant>

    function State(): Maps
      reads this
    {
      Maps(codes, tokens, refreshTokens)
    }

    constructor (initial: map<string, Code>)
      ensures State() == Maps(initial, map[], map[])
    {
      codes, tokens, refreshTokens := initial, map[], map[];
    }

    method ExchangeAuthorizationCode(code: string, client: string, redirect: string, now: int, drawn: Option<Pair>) returns (r: Result<Pair, Error>)
      modifies this
      ensures (r, State()) == MapExchange(old(State()), code, client, redirect, now, drawn)
      ensures r.Ok? <==>
        && code in old(codes) && old(codes)[code].client == client && old(codes)[code].redirect == redirect
        && now < old(codes)[code].expiresAt && drawn.Some?
    {
      if code !in codes { return Err(InvalidGrant); }
      var c := codes[code];
      if c.client != client || c.redirect != redirect { return Err(InvalidGrant); }
      if !(now < c.expiresAt) { return Err(GrantExpired); }
      codes := codes - {code};
      if drawn.None? { return Err(GenerationFailed); }
      var t := drawn.value;
      var permissions := IntersectStrings(c.principal.permissions, c.scopes);
      tokens := tokens[t.access := Access(c.principal.(permissions := permissions), now + ACCESS_TTL)];
      refreshTokens := refreshTokens[t.refresh := Grant(c.client, t.access, c.principal, c.scopes, now + REFRESH_TTL)];
      return Ok(t);
    }

    method ExchangeRefreshToken(refresh: Token, client: string, now: int, drawn: Option<Pair>) returns (r: Result<Pair, Error>)
      modifies this
      ensures (r, State()) == MapRotate(old(State()), refresh, client, now, drawn)
      ensures r.Ok? <==>
        && refresh in old(refreshTokens) && old(refreshTokens)[refresh].client == client
        && now < old(refreshTokens)[refresh].expiresAt && drawn.Some?
    {
      if refresh !in refreshTokens { return Err(InvalidGrant); }
      var g := refreshTokens[refresh];
      if g.client != client { return Err(InvalidGrant); }
      if !(now < g.expiresAt) { return Err(GrantExpired); }
      refreshTokens := refreshTokens - {refresh};
      tokens := tokens - {g.access};
      if drawn.None? { return Err(GenerationFailed); }
      var t := drawn.value;
      var permissions := IntersectStrings(g.principal.permissions, g.scopes);
      tokens := tokens[t.access := Access(g.principal.(permissions := permissions), now + ACCESS_TTL)];
      refreshTokens := refreshTokens[t.refresh := Grant(g.client, t.access, g.principal, g.scopes, now + REFRESH_TTL)];
      return Ok(t);
    }

    method AuthenticateAccessToken(token: Token, now: int) returns (p: Option<Principal>)
      ensures p == MapAuthenticate(State(), token, now)
      ensures p.Some? <==> token in tokens && now < tokens[token].expiresAt
      ensures p.Some? ==> p.value == tokens[token].principal
    {
      if token !in tokens { return None; }
      if !(now < tokens[token].expiresAt) { return None; }
      return Some(tokens[token].principal);
    }
  }

  class TokenRepository {
    var codes: map<string, CodeRow>
    var rows: map<Token, TokenRow>

    function State(): Tables
      reads this
    {
      Tables(codes, rows)
    }

    constructor (initial: map<string, CodeRow>)
      ensures State() == Tables(initial, map[])
    {
      codes, rows := initial, map[];
    }

    /** Marks the code and inserts the tokens; a token already taken rolls both back. */
    method ExchangeAuthorizationCode(code: string, client: string, redirect: string, now: int, drawn: Option<Pair>) returns (r: Result<Pair, Error>)
      modifies this
      ensures (r, State()) == RowExchange(old(State()), code, client, redirect, now, drawn)
      ensures r.Ok? <==>
        && code != "" && code in old(codes) && old(codes)[code].code.client == client && old(codes)[code].code.redirect == redirect
        && old(codes)[code].consumedAt.None? && now < old(codes)[code].code.expiresAt && drawn.Some?
        && drawn.value.refresh !in old(rows) && !AccessTaken(old(rows), drawn.value.access)
    {
      if code == "" || code !in codes { return Err(InvalidGrant); }
      var row := codes[code];
      if row.code.client != client || row.code.redirect != redirect { return Err(InvalidGrant); }
      if row.consumedAt.Some? { return Err(GrantConsumed); }
      if !(now < row.code.expiresAt) { return Err(GrantExpired); }
      if drawn.None? { return Err(GenerationFailed); }
      var t := drawn.value;
      var begin := codes;
      codes := codes[code := row.(consumedAt := Some(now))];
      if t.refresh in rows || exists k :: k in rows && rows[k].access == t.access {
        codes := begin;
        return Err(Conflict);
      }
      rows := rows[t.refresh := TokenRow(t.access, row.code.client, row.code.principal, row.code.scopes, now + ACCESS_TTL, now + REFRESH_TTL, None)];
      return Ok(t);
    }

    method ExchangeRefreshToken(refresh: Token, client: string, now: int, drawn: Option<Pair>) returns (r: Result<Pair, Error>)
      modifies this
      ensures (r, State()) == RowRotate(old(State()), refresh, client, now, drawn)
      ensures r.Ok? <==>
        && refresh != "" && refresh in old(rows) && old(rows)[refresh].client == client
        && old(rows)[refresh].revokedAt.None? && now < old(rows)[refresh].refreshExpiresAt && drawn.Some?
        && drawn.value.refresh !in old(rows) && !AccessTaken(old(rows), drawn.value.access)
    {
      if refresh == "" || refresh !in rows { return Err(InvalidGrant); }
      var row := rows[refresh];
      if row.client != client { return Err(InvalidGrant); }
      if row.revokedAt.Some? { return Err(GrantConsumed); }
      if !(now < row.refreshExpiresAt) { return Err(GrantExpired); }
      if drawn.None? { return Err(GenerationFailed); }
      var t := drawn.value;
      var begin := rows;
      rows := rows[refresh := row.(revokedAt := Some(now))];
      assert AccessTaken(begin, t.access) <==> AccessTaken(rows, t.access) by {
        if k :| k in begin && begin[k].access == t.access { assert rows[k].access == t.access; }
      }
      if t.refresh in rows || exists k :: k in rows && rows[k].access == t.access {
        rows := begin;
        return Err(Conflict);
      }
      rows := rows[t.refresh := TokenRow(t.access, row.client, row.principal, row.scopes, now + ACCESS_TTL, now + REFRESH_TTL, None)];
      return Ok(t);
    }

    /** The query for the one row of this token that is neither expired nor revoked. */
    method ReadAccessTokenPrincipal(token: Token, now: int) returns (p: Option<Principal>)
      requires forall j, k :: j in rows && k in rows && rows[j].access == rows[k].access ==> j == k
      ensures p == RowAuthenticate(State(), token, now)
      ensures p.Some? <==> token != "" && exists k :: k in rows && rows[k].access == token && now < rows[k].accessExpiresAt && rows[k].revokedAt.None?
      ensures forall k :: p.Some? && k in rows && rows[k].access == token ==>
        p.value == Principal(rows[k].principal.id, Intersect(rows[k].principal.permissions, rows[k].scopes))
    {
      if token == "" { return None; }
      var left := rows.Keys;
      while left != {}
        invariant left <= rows.Keys && forall k :: k in rows && k !in left ==> !Carries(rows[k], token, now)
        decreases |left|
      {
        var k :| k in left;
        left := left - {k};
        if rows[k].access == token && rows[k].accessExpiresAt > now && rows[k].revokedAt.None? {
          assert Carries(rows[k], token, now);
          var permissions := IntersectStrings(rows[k].principal.permissions, rows[k].scopes);
          return Some(rows[k].principal.(permissions := permissions));
        }
      }
      return None;
    }
  }
}
