/** Single use, rotation and narrowing over whole runs, and the agreement of the two forms. */
module OAuthGuarantees {
  import opened Lib
  import opened OAuthGrants

  /** The maps, every token drawn so far, and the code each live grant goes back to. */
  datatype World = World(m: Maps, issued: set<Token>, origin: map<Token, string>)

  function Start(codes: map<string, Code>): World { World(Maps(codes, map[], map[]), {}, map[]) }

  function TokensOf(p: Pair): set<Token> { {p.access, p.refresh} }

  /** Random tokens have not been drawn before, and the two kinds carry different prefixes. */
  predicate Fresh(w: World, c: Call) {
    c.drawn.Some? ==>
      && TokensOf(c.drawn.value) !! w.issued
      && c.drawn.value.access != c.drawn.value.refresh
      && "" !in TokensOf(c.drawn.value)
  }

  function Step(w: World, c: Call): World {
    var (answer, m) := MapCall(w.m, c);
    World(m,
      w.issued + (if c.drawn.Some? then TokensOf(c.drawn.value) else {}),
      if answer.Ok? then w.origin[answer.value.refresh := if c.Exchange? then c.code else if c.refresh in w.origin then w.origin[c.refresh] else ""]
      else w.origin)
  }

  /** A run from unused codes: every call draws tokens nobody has drawn before. */
  ghost predicate IsRun(codes: map<string, Code>, worlds: seq<World>, calls: seq<Call>) {
    && |worlds| == |calls| + 1 && worlds[0] == Start(codes)
    && forall i: nat :: i < |calls| ==> Fresh(worlds[i], calls[i]) && worlds[i + 1] == Step(worlds[i], calls[i])
  }

  /** The access token of every live grant is stored with the grant's scoped principal. */
  ghost predicate GrantOk(m: Maps, g: Grant) {
    g.access in m.tokens && m.tokens[g.access] == Access(Scoped(g.principal, g.scopes), g.expiresAt - REFRESH_TTL + ACCESS_TTL)
  }

  ghost predicate Bijection(m: Maps) {
    && (forall k :: k in m.refresh ==> GrantOk(m, m.refresh[k]))
    && (forall j, k :: j in m.refresh && k in m.refresh && m.refresh[j].access == m.refresh[k].access ==> j == k)
    && (forall a :: a in m.tokens ==> exists k :: k in m.refresh && m.refresh[k].access == a)
  }

  ghost predicate FromCode(g: Grant, c: Code) { g.client == c.client && g.principal == c.principal && g.scopes == c.scopes }

  ghost predicate Lineage(codes: map<string, Code>, w: World) {
    && (forall k :: k in w.m.codes ==> k in codes && w.m.codes[k] == codes[k])
    && (forall k :: k in w.m.refresh ==>
      k in w.origin && w.origin[k] in codes && w.origin[k] !in w.m.codes && FromCode(w.m.refresh[k], codes[w.origin[k]]))
    && (forall j, k :: j in w.m.refresh && k in w.m.refresh && w.origin[j] == w.origin[k] ==> j == k)
  }

  ghost predicate Inv(codes: map<string, Code>, w: World) {
    Bijection(w.m) && Lineage(codes, w) && w.m.tokens.Keys <= w.issued && w.m.refresh.Keys <= w.issued && w.m.tokens.Keys !! w.m.refresh.Keys
  }

  lemma IssueKeepsBijection(m: Maps, t: Pair, client: string, principal: Principal, scopes: seq<string>, now: int)
    requires Bijection(m) && t.access !in m.tokens && t.refresh !in m.refresh
    ensures Bijection(Issued(m, t, client, principal, scopes, now))
  {
    var m' := Issued(m, t, client, principal, scopes, now);
    forall k | k in m'.refresh ensures GrantOk(m', m'.refresh[k]) { assert k != t.refresh ==> GrantOk(m, m.refresh[k]); }
    forall a | a in m'.tokens ensures exists k :: k in m'.refresh && m'.refresh[k].access == a {
      if a == t.access {
        assert m'.refresh[t.refresh].access == a;
      } else {
        var k :| k in m.refresh && m.refresh[k].access == a;
        assert m'.refresh[k].access == a;
      }
    }
  }

  lemma SupersedingKeepsBijection(m: Maps, refresh: Token)
    requires Bijection(m) && refresh in m.refresh
    ensures Bijection(Superseded(m, refresh))
  {
    var m' := Superseded(m, refresh);
    forall k | k in m'.refresh ensures GrantOk(m', m'.refresh[k]) { assert GrantOk(m, m.refresh[k]); }
    forall a | a in m'.tokens ensures exists k :: k in m'.refresh && m'.refresh[k].access == a {
      var k :| k in m.refresh && m.refresh[k].access == a;
      assert m'.refresh[k].access == a;
    }
  }

  // A call is made of three moves: a code is spent, a grant is superseded, a pair is given out.

  function Spend(w: World, code: string): World { w.(m := w.m.(codes := w.m.codes - {code})) }

  function Supersede(w: World, refresh: Token): World
    requires refresh in w.m.refresh
  {
    w.(m := Superseded(w.m, refresh))
  }

  function Give(w: World, t: Pair, code: string, c: Code, now: int): World {
    World(Issued(w.m, t, c.client, c.principal, c.scopes, now), w.issued + TokensOf(t), w.origin[t.refresh := code])
  }

  /** Nothing stands for this code at the moment. */
  ghost predicate Spent(codes: map<string, Code>, w: World, code: string) {
    code in codes && code !in w.m.codes && forall k :: k in w.m.refresh && k in w.origin ==> w.origin[k] != code
  }

  lemma SpendKeeps(codes: map<string, Code>, w: World, code: string)
    requires Inv(codes, w) && code in w.m.codes
    ensures Inv(codes, Spend(w, code)) && Spent(codes, Spend(w, code), code)
    ensures |Spend(w, code).m.codes| == |w.m.codes| - 1
  {
    Removing(w.m.codes, code);
    forall k | k in w.m.refresh ensures GrantOk(Spend(w, code).m, w.m.refresh[k]) { assert GrantOk(w.m, w.m.refresh[k]); }
  }

  lemma SupersedeKeeps(codes: map<string, Code>, w: World, refresh: Token)
    requires Inv(codes, w) && refresh in w.m.refresh
    ensures Inv(codes, Supersede(w, refresh)) && Spent(codes, Supersede(w, refresh), w.origin[refresh])
    ensures |Supersede(w, refresh).m.refresh| == |w.m.refresh| - 1
  {
    Removing(w.m.refresh, refresh);
    SupersedingKeepsBijection(w.m, refresh);
  }

  lemma GiveKeeps(codes: map<string, Code>, w: World, t: Pair, code: string, now: int)
    requires Inv(codes, w) && Spent(codes, w, code)
    requires TokensOf(t) !! w.issued && t.access != t.refresh
    ensures Inv(codes, Give(w, t, code, codes[code], now))
    ensures |Give(w, t, code, codes[code], now).m.refresh| == |w.m.refresh| + 1
  {
    var c := codes[code];
    assert t.access in TokensOf(t) && t.refresh in TokensOf(t);
    IssueKeepsBijection(w.m, t, c.client, c.principal, c.scopes, now);
    GiveKeepsLineage(codes, w, t, code, now);
  }

  lemma GiveKeepsLineage(codes: map<string, Code>, w: World, t: Pair, code: string, now: int)
    requires Lineage(codes, w) && Spent(codes, w, code) && t.refresh !in w.m.refresh
    ensures Lineage(codes, Give(w, t, code, codes[code], now))
  {
  }

  lemma DrawingKeeps(codes: map<string, Code>, w: World, drawn: Option<Pair>)
    requires Inv(codes, w)
    ensures Inv(codes, w.(issued := w.issued + if drawn.Some? then TokensOf(drawn.value) else {}))
  {
  }

  /** What a call does, in terms of the moves. */
  ghost predicate StepIs(codes: map<string, Code>, w: World, c: Call, w': World) {
    match MapCall(w.m, c).0
    case Err(GenerationFailed) =>
      c.drawn.None? && if c.Exchange? then c.code in w.m.codes && w' == Spend(w, c.code) else c.refresh in w.m.refresh && w' == Supersede(w, c.refresh)
    case Err(_) => w' == w.(issued := w.issued + if c.drawn.Some? then TokensOf(c.drawn.value) else {})
    case Ok(t) =>
      c.drawn == Some(t)
      && if c.Exchange? then c.code in w.m.codes && c.code in codes && w' == Give(Spend(w, c.code), t, c.code, codes[c.code], c.now)
         else
           && c.refresh in w.m.refresh && c.refresh in w.origin && w.origin[c.refresh] in codes
           && w' == Give(Supersede(w, c.refresh), t, w.origin[c.refresh], codes[w.origin[c.refresh]], c.now)
  }

  lemma StepIsMoves(codes: map<string, Code>, w: World, c: Call)
    requires Lineage(codes, w)
    ensures StepIs(codes, w, c, Step(w, c))
  {
  }

  lemma StepKeeps(codes: map<string, Code>, w: World, c: Call)
    requires Inv(codes, w) && Fresh(w, c)
    ensures Inv(codes, Step(w, c))
    ensures var before, after := w.m, Step(w, c).m;
      |after.codes| + |after.refresh| == |before.codes| + |before.refresh| - if MapCall(w.m, c).0 == Err(GenerationFailed) then 1 else 0
  {
    StepIsMoves(codes, w, c);
    DrawingKeeps(codes, w, c.drawn);
    if c.Exchange? && c.code in w.m.codes {
      SpendKeeps(codes, w, c.code);
      if MapCall(w.m, c).0.Ok? { GiveKeeps(codes, Spend(w, c.code), c.drawn.value, c.code, c.now); }
    } else if c.Rotate? && c.refresh in w.m.refresh {
      SupersedeKeeps(codes, w, c.refresh);
      if MapCall(w.m, c).0.Ok? { GiveKeeps(codes, Supersede(w, c.refresh), c.drawn.value, w.origin[c.refresh], c.now); }
    }
  }

  lemma {:induction false} InvHolds(codes: map<string, Code>, worlds: seq<World>, calls: seq<Call>, n: nat)
    requires IsRun(codes, worlds, calls) && n <= |calls|
    ensures Inv(codes, worlds[n])
    decreases n
  {
    if n > 0 {
      InvHolds(codes, worlds, calls, n - 1);
      StepKeeps(codes, worlds[n - 1], calls[n - 1]);
    }
  }

  // ---------- conservation ----------

  lemma Removing<T>(m: map<string, T>, k: string)
    requires k in m
    ensures |m - {k}| == |m| - 1
  {
    assert (m - {k}).Keys == m.Keys - {k};
  }

  /** Unused codes and live refresh tokens. */
  function Standing(m: Maps): nat { |m.codes| + |m.refresh| }

  lemma OneCallConserves(codes: map<string, Code>, worlds: seq<World>, calls: seq<Call>, n: nat)
    requires IsRun(codes, worlds, calls) && n < |calls|
    ensures Standing(worlds[n + 1].m) <= Standing(worlds[n].m)
  {
    InvHolds(codes, worlds, calls, n);
    StepKeeps(codes, worlds[n], calls[n]);
  }

  lemma {:induction false} NeverMore(worlds: seq<World>, i: nat, n: nat)
    requires i <= n < |worlds| && forall k: nat :: k + 1 < |worlds| ==> Standing(worlds[k + 1].m) <= Standing(worlds[k].m)
    ensures Standing(worlds[n].m) <= Standing(worlds[i].m)
    decreases n
  {
    if i < n { NeverMore(worlds, i, n - 1); }
  }

  /** Unused codes and live refresh tokens together never become more: a code is spent for one
      grant, a refresh token for one other, and a failed generation spends it for nothing. */
  lemma GrantsAreConserved(codes: map<string, Code>, worlds: seq<World>, calls: seq<Call>, i: nat, n: nat)
    requires IsRun(codes, worlds, calls) && i <= n <= |calls|
    ensures |worlds[n].m.codes| + |worlds[n].m.refresh| <= |worlds[i].m.codes| + |worlds[i].m.refresh|
  {
    forall k: nat | k + 1 < |worlds| ensures Standing(worlds[k + 1].m) <= Standing(worlds[k].m) { OneCallConserves(codes, worlds, calls, k); }
    NeverMore(worlds, i, n);
  }

  // ---------- rotation ----------

  lemma StepRevivesNothing(codes: map<string, Code>, w: World, c: Call, token: Token)
    requires Inv(codes, w) && Fresh(w, c) && token in w.issued && token !in w.m.tokens && token !in w.m.refresh
    ensures var w' := Step(w, c); token in w'.issued && token !in w'.m.tokens && token !in w'.m.refresh
  {
  }

  /** A token once superseded never authenticates and never refreshes again. */
  lemma {:induction false} SupersededStaysOut(codes: map<string, Code>, worlds: seq<World>, calls: seq<Call>, i: nat, n: nat, token: Token, now: int)
    requires IsRun(codes, worlds, calls) && i <= n <= |calls|
    requires token in worlds[i].issued && token !in worlds[i].m.tokens && token !in worlds[i].m.refresh
    ensures token in worlds[n].issued && token !in worlds[n].m.tokens && token !in worlds[n].m.refresh
    ensures MapAuthenticate(worlds[n].m, token, now) == None
    decreases n
  {
    if i < n {
      SupersededStaysOut(codes, worlds, calls, i, n - 1, token, now);
      InvHolds(codes, worlds, calls, n - 1);
      StepRevivesNothing(codes, worlds[n - 1], calls[n - 1], token);
    }
  }

  /** A successful rotation supersedes the presented refresh token and its access token. */
  lemma RotationSupersedes(codes: map<string, Code>, w: World, c: Call)
    requires Inv(codes, w) && Fresh(w, c) && c.Rotate? && MapCall(w.m, c).0.Ok?
    ensures var was, m' := w.m.refresh[c.refresh].access, Step(w, c).m;
      && c.refresh !in m'.refresh && c.refresh !in m'.tokens && was !in m'.tokens && was !in m'.refresh
      && was in w.issued && c.refresh in w.issued
      && MapAuthenticate(m', c.drawn.value.access, c.now) == MapAuthenticate(w.m, was, w.m.tokens[was].expiresAt - 1)
  {
    assert GrantOk(w.m, w.m.refresh[c.refresh]);
  }

  // ---------- what a live token carries ----------

  /** After any number of rotations a live access token carries exactly what the permissions of
      some original code and that code's scopes have in common, for that code's principal. */
  lemma LiveTokensCarryTheIntersection(codes: map<string, Code>, worlds: seq<World>, calls: seq<Call>, n: nat, token: Token) returns (code: string)
    requires IsRun(codes, worlds, calls) && n <= |calls| && token in worlds[n].m.tokens
    ensures code in codes && code !in worlds[n].m.codes
    ensures worlds[n].m.tokens[token].principal == Scoped(codes[code].principal, codes[code].scopes)
  {
    InvHolds(codes, worlds, calls, n);
    var w := worlds[n];
    var k :| k in w.m.refresh && w.m.refresh[k].access == token;
    assert GrantOk(w.m, w.m.refresh[k]) && FromCode(w.m.refresh[k], codes[w.origin[k]]);
    code := w.origin[k];
  }

  /** A code has at most one live grant, and none while it is unused. */
  lemma OneLiveGrantPerCode(codes: map<string, Code>, worlds: seq<World>, calls: seq<Call>, n: nat, j: Token, k: Token)
    requires IsRun(codes, worlds, calls) && n <= |calls| && j in worlds[n].m.refresh && k in worlds[n].m.refresh
    ensures var w := worlds[n];
      && j in w.origin && k in w.origin && w.origin[j] !in w.m.codes
      && (w.origin[j] == w.origin[k] <==> j == k)
      && (w.m.refresh[j].access == w.m.refresh[k].access <==> j == k)
  {
    InvHolds(codes, worlds, calls, n);
  }

  // ---------- the row form ----------

  function GrantOf(r: TokenRow): Grant { Grant(r.client, r.access, r.principal, r.scopes, r.refreshExpiresAt) }

  /** Unconsumed codes and unrevoked rows are the grants the maps hold; used ones stay as rows. */
  ghost predicate Abstracts(t: Tables, m: Maps, issued: set<Token>) {
    && (forall k :: k in m.codes <==> k in t.codes && t.codes[k].consumedAt.None?)
    && (forall k :: k in m.codes ==> m.codes[k] == t.codes[k].code)
    && (forall k :: k in m.refresh <==> k in t.rows && t.rows[k].revokedAt.None?)
    && (forall k :: k in m.refresh ==> m.refresh[k] == GrantOf(t.rows[k]))
    && (forall k :: k in t.rows ==>
      && k in issued && t.rows[k].access in issued
      && t.rows[k].accessExpiresAt == t.rows[k].refreshExpiresAt - REFRESH_TTL + ACCESS_TTL)
  }

  /** Equal but for the reason of a refusal: the rows can tell a used grant from an unknown one. */
  predicate SameAnswer(a: Result<Pair, Error>, b: Result<Pair, Error>) {
    if a.Ok? then b == a else b.Err? && (b == a || (a == Err(InvalidGrant) && b == Err(GrantConsumed)))
  }

  lemma ConsumingAbstracts(t: Tables, m: Maps, issued: set<Token>, code: string, now: int)
    requires Abstracts(t, m, issued) && code in m.codes
    ensures Abstracts(t.(codes := t.codes[code := t.codes[code].(consumedAt := Some(now))]), m.(codes := m.codes - {code}), issued)
  {
  }

  lemma RevokingAbstracts(t: Tables, m: Maps, issued: set<Token>, refresh: Token, now: int)
    requires Abstracts(t, m, issued) && refresh in m.refresh
    ensures Abstracts(t.(rows := t.rows[refresh := t.rows[refresh].(revokedAt := Some(now))]), Superseded(m, refresh), issued)
  {
  }

  lemma InsertingAbstracts(t: Tables, m: Maps, issued: set<Token>, p: Pair, client: string, principal: Principal, scopes: seq<string>, now: int)
    requires Abstracts(t, m, issued) && TokensOf(p) !! issued
    ensures Insert(t, p, client, principal, scopes, now).Some?
    ensures Abstracts(Insert(t, p, client, principal, scopes, now).value, Issued(m, p, client, principal, scopes, now), issued + TokensOf(p))
  {
    assert p.access in TokensOf(p) && p.refresh in TokensOf(p);
  }

  lemma DrawingAbstracts(t: Tables, m: Maps, issued: set<Token>, more: set<Token>)
    requires Abstracts(t, m, issued)
    ensures Abstracts(t, m, issued + more)
  {
  }

  lemma ExchangesAgree(w: World, t: Tables, c: Call)
    requires Fresh(w, c) && Abstracts(t, w.m, w.issued) && c.Exchange? && "" !in t.codes
    ensures SameAnswer(MapCall(w.m, c).0, RowCall(t, c).0)
    ensures MapCall(w.m, c).0 != Err(GenerationFailed) ==> Abstracts(RowCall(t, c).1, Step(w, c).m, Step(w, c).issued)
    ensures RowCall(t, c).0.Err? ==> RowCall(t, c).1 == t
  {
    if c.drawn.Some? { DrawingAbstracts(t, w.m, w.issued, TokensOf(c.drawn.value)); }
    if c.code in w.m.codes && c.drawn.Some? {
      var row := t.codes[c.code];
      ConsumingAbstracts(t, w.m, w.issued, c.code, c.now);
      InsertingAbstracts(t.(codes := t.codes[c.code := row.(consumedAt := Some(c.now))]), w.m.(codes := w.m.codes - {c.code}), w.issued,
                         c.drawn.value, row.code.client, row.code.principal, row.code.scopes, c.now);
    }
  }

  lemma RotationsAgree(w: World, t: Tables, c: Call)
    requires Fresh(w, c) && Abstracts(t, w.m, w.issued) && c.Rotate? && "" !in t.rows
    ensures SameAnswer(MapCall(w.m, c).0, RowCall(t, c).0)
    ensures MapCall(w.m, c).0 != Err(GenerationFailed) ==> Abstracts(RowCall(t, c).1, Step(w, c).m, Step(w, c).issued)
    ensures RowCall(t, c).0.Err? ==> RowCall(t, c).1 == t
  {
    if c.drawn.Some? { DrawingAbstracts(t, w.m, w.issued, TokensOf(c.drawn.value)); }
    if c.refresh in w.m.refresh && c.drawn.Some? {
      var row := t.rows[c.refresh];
      RevokingAbstracts(t, w.m, w.issued, c.refresh, c.now);
      InsertingAbstracts(t.(rows := t.rows[c.refresh := row.(revokedAt := Some(c.now))]), Superseded(w.m, c.refresh), w.issued,
                         c.drawn.value, row.client, row.principal, row.scopes, c.now);
    }
  }

  /** Both forms authenticate the same tokens, as the same principals, at the same moments. */
  lemma AuthenticationsAgree(codes: map<string, Code>, w: World, t: Tables, token: Token, now: int)
    requires Inv(codes, w) && Abstracts(t, w.m, w.issued) && token != ""
    ensures RowAuthenticate(t, token, now) == MapAuthenticate(w.m, token, now)
  {
    if k :| k in t.rows && Carries(t.rows[k], token, now) {
      assert k in w.m.refresh && GrantOk(w.m, w.m.refresh[k]);
    }
    if MapAuthenticate(w.m, token, now).Some? {
      var k :| k in w.m.refresh && w.m.refresh[k].access == token;
      assert GrantOk(w.m, w.m.refresh[k]);
      assert Carries(t.rows[k], token, now);
    }
  }

  /** Tables behind the same calls; the rows never hold an empty key. */
  ghost predicate IsRowRun(codes: map<string, Code>, tables: seq<Tables>, calls: seq<Call>) {
    && |tables| == |calls| + 1
    && tables[0] == Tables(map k | k in codes :: CodeRow(codes[k], None), map[])
    && forall i: nat :: i < |calls| ==> tables[i + 1] == RowCall(tables[i], calls[i]).1
  }

  lemma RowsHaveNames(w: World, t: Tables, c: Call)
    requires Fresh(w, c) && "" !in t.codes && "" !in t.rows
    ensures "" !in RowCall(t, c).1.codes && "" !in RowCall(t, c).1.rows
  {
  }

  /** The draw fails on a call that presents a stored, unexpired grant as the one it was given to. */
  predicate Loses(m: Maps, c: Call) {
    && c.drawn.None?
    && match c
       case Exchange(code, client, redirect, now, _) =>
         code in m.codes && m.codes[code].client == client && m.codes[code].redirect == redirect && now < m.codes[code].expiresAt
       case Rotate(refresh, client, now, _) =>
         refresh in m.refresh && m.refresh[refresh].client == client && now < m.refresh[refresh].expiresAt
  }

  ghost predicate NoneLost(worlds: seq<World>, calls: seq<Call>, n: nat)
    requires n <= |calls| && n <= |worlds|
  {
    forall i: nat :: i < n ==> !Loses(worlds[i].m, calls[i])
  }

  /** While no draw has failed on a good grant, the unrevoked rows are exactly the grants the maps
      hold, so both forms answer the next call alike and authenticate the same tokens. */
  lemma {:induction false} RowsAbstractToMaps(codes: map<string, Code>, worlds: seq<World>, tables: seq<Tables>, calls: seq<Call>, n: nat)
    requires IsRun(codes, worlds, calls) && IsRowRun(codes, tables, calls) && n <= |calls| && "" !in codes
    requires NoneLost(worlds, calls, n)
    ensures Abstracts(tables[n], worlds[n].m, worlds[n].issued) && "" !in tables[n].codes && "" !in tables[n].rows
    ensures n < |calls| ==> SameAnswer(MapCall(worlds[n].m, calls[n]).0, RowCall(tables[n], calls[n]).0)
    ensures forall token, now :: token != "" ==> RowAuthenticate(tables[n], token, now) == MapAuthenticate(worlds[n].m, token, now)
    decreases n
  {
    if n > 0 {
      RowsAbstractToMaps(codes, worlds, tables, calls, n - 1);
      OneMoreAbstracts(worlds[n - 1], tables[n - 1], calls[n - 1]);
    }
    if n < |calls| { OneMoreAbstracts(worlds[n], tables[n], calls[n]); }
    InvHolds(codes, worlds, calls, n);
    forall token, now | token != "" ensures RowAuthenticate(tables[n], token, now) == MapAuthenticate(worlds[n].m, token, now) {
      AuthenticationsAgree(codes, worlds[n], tables[n], token, now);
    }
  }

  lemma OneMoreAbstracts(w: World, t: Tables, c: Call)
    requires Fresh(w, c) && Abstracts(t, w.m, w.issued) && "" !in t.codes && "" !in t.rows
    ensures SameAnswer(MapCall(w.m, c).0, RowCall(t, c).0)
    ensures !Loses(w.m, c) ==> Abstracts(RowCall(t, c).1, Step(w, c).m, Step(w, c).issued)
    ensures "" !in RowCall(t, c).1.codes && "" !in RowCall(t, c).1.rows
  {
    RowsHaveNames(w, t, c);
    if c.Exchange? { ExchangesAgree(w, t, c); } else { RotationsAgree(w, t, c); }
  }

  // ---------- a failed draw ----------

  function UnusedCodes(t: Tables): set<string> { set k | k in t.codes && t.codes[k].consumedAt.None? }

  function LiveRows(t: Tables): set<Token> { set k | k in t.rows && t.rows[k].revokedAt.None? }

  lemma RowExchangeConserves(t: Tables, code: string, client: string, redirect: string, now: int, drawn: Option<Pair>)
    ensures var t' := RowExchange(t, code, client, redirect, now, drawn).1; |UnusedCodes(t')| + |LiveRows(t')| == |UnusedCodes(t)| + |LiveRows(t)|
  {
    var (answer, t') := RowExchange(t, code, client, redirect, now, drawn);
    if answer.Ok? {
      assert UnusedCodes(t') == UnusedCodes(t) - {code} && code in UnusedCodes(t);
      assert LiveRows(t') == LiveRows(t) + {drawn.value.refresh} && drawn.value.refresh !in LiveRows(t);
    }
  }

  lemma RowRotateConserves(t: Tables, refresh: Token, client: string, now: int, drawn: Option<Pair>)
    ensures var t' := RowRotate(t, refresh, client, now, drawn).1; |UnusedCodes(t')| + |LiveRows(t')| == |UnusedCodes(t)| + |LiveRows(t)|
  {
    var (answer, t') := RowRotate(t, refresh, client, now, drawn);
    if answer.Ok? {
      assert UnusedCodes(t') == UnusedCodes(t);
      assert refresh in LiveRows(t) && drawn.value.refresh !in LiveRows(t);
      assert LiveRows(t') == LiveRows(t) - {refresh} + {drawn.value.refresh};
    }
  }

  /** The rows lose no grant, whatever fails: unused codes plus live rows stay the codes seeded. */
  lemma {:induction false} RowsAreConserved(codes: map<string, Code>, tables: seq<Tables>, calls: seq<Call>, n: nat)
    requires IsRowRun(codes, tables, calls) && n <= |calls|
    ensures |UnusedCodes(tables[n])| + |LiveRows(tables[n])| == |codes|
    decreases n
  {
    if n == 0 {
      assert UnusedCodes(tables[0]) == codes.Keys && LiveRows(tables[0]) == {};
    } else {
      RowsAreConserved(codes, tables, calls, n - 1);
      var t := tables[n - 1];
      match calls[n - 1]
      case Exchange(code, client, redirect, now, drawn) => RowExchangeConserves(t, code, client, redirect, now, drawn);
      case Rotate(refresh, client, now, drawn) => RowRotateConserves(t, refresh, client, now, drawn);
    }
  }

  lemma AbstractionCounts(t: Tables, m: Maps, issued: set<Token>)
    requires Abstracts(t, m, issued)
    ensures Standing(m) == |UnusedCodes(t)| + |LiveRows(t)|
  {
    assert m.codes.Keys == UnusedCodes(t) && m.refresh.Keys == LiveRows(t);
  }

  /** The unrevoked rows are the grants of the maps if and only if no draw has failed on a good
      grant: the maps lose that grant for ever, the rows keep it, so the two never agree again. */
  lemma RowsAbstractExactlyWhen(codes: map<string, Code>, worlds: seq<World>, tables: seq<Tables>, calls: seq<Call>, n: nat)
    requires IsRun(codes, worlds, calls) && IsRowRun(codes, tables, calls) && n <= |calls| && "" !in codes
    ensures Abstracts(tables[n], worlds[n].m, worlds[n].issued) <==> NoneLost(worlds, calls, n)
  {
    if NoneLost(worlds, calls, n) {
      RowsAbstractToMaps(codes, worlds, tables, calls, n);
    } else {
      var i: nat :| i < n && Loses(worlds[i].m, calls[i]);
      GrantsAreConserved(codes, worlds, calls, 0, i);
      InvHolds(codes, worlds, calls, i);
      StepKeeps(codes, worlds[i], calls[i]);
      GrantsAreConserved(codes, worlds, calls, i + 1, n);
      RowsAreConserved(codes, tables, calls, n);
      if Abstracts(tables[n], worlds[n].m, worlds[n].issued) { AbstractionCounts(tables[n], worlds[n].m, worlds[n].issued); }
    }
  }

  /** One code, one failed draw, and a second attempt: the maps refuse it, the rows honour it. */
  lemma FailedDrawParts(code: Code, pair: Pair, now: int)
    requires now < code.expiresAt && pair.access != pair.refresh && "" !in TokensOf(pair)
    ensures var codes := map["code" := code];
      var first := Exchange("code", code.client, code.redirect, now, None); var again := Exchange("code", code.client, code.redirect, now, Some(pair));
      var w := Step(Start(codes), first); var t := RowCall(Tables(map["code" := CodeRow(code, None)], map[]), first).1;
      && IsRun(codes, [Start(codes), w, Step(w, again)], [first, again])
      && MapCall(w.m, again).0 == Err(InvalidGrant) && RowCall(t, again).0 == Ok(pair)
      && MapAuthenticate(Step(w, again).m, pair.access, now) == None
      && RowAuthenticate(RowCall(t, again).1, pair.access, now) == Some(Scoped(code.principal, code.scopes))
  {
    var codes := map["code" := code];
    var first := Exchange("code", code.client, code.redirect, now, None);
    var again := Exchange("code", code.client, code.redirect, now, Some(pair));
    var w, t := Step(Start(codes), first), RowCall(Tables(map["code" := CodeRow(code, None)], map[]), first).1;
    assert RowCall(t, again).1.rows == map[pair.refresh := TokenRow(pair.access, code.client, code.principal, code.scopes, now + ACCESS_TTL, now + REFRESH_TTL, None)];
    assert Carries(RowCall(t, again).1.rows[pair.refresh], pair.access, now);
    var calls, worlds := [first, again], [Start(codes), w, Step(w, again)];
    forall i: nat | i < |calls| ensures Fresh(worlds[i], calls[i]) && worlds[i + 1] == Step(worlds[i], calls[i]) { assert i == 0 || i == 1; }
  }

  lemma FailedExchange(w: World, t: Tables, c: Call)
    requires Abstracts(t, w.m, w.issued) && c.Exchange? && Loses(w.m, c) && "" !in t.codes
    ensures RowCall(t, c) == (Err(GenerationFailed), t)
    ensures c.code in w.m.codes && c.code !in Step(w, c).m.codes
  {
  }

  lemma FailedRotation(w: World, t: Tables, c: Call)
    requires Abstracts(t, w.m, w.issued) && c.Rotate? && Loses(w.m, c) && "" !in t.rows
    ensures RowCall(t, c) == (Err(GenerationFailed), t)
    ensures c.refresh in w.m.refresh && c.refresh !in Step(w, c).m.refresh
  {
  }

  /** When drawing fails the two part: the rows keep the grant, the maps have already lost it. */
  lemma FailedGenerationDiffers(w: World, t: Tables, c: Call)
    requires Abstracts(t, w.m, w.issued) && Loses(w.m, c) && "" !in t.codes && "" !in t.rows
    ensures MapCall(w.m, c).0 == Err(GenerationFailed) && RowCall(t, c) == (Err(GenerationFailed), t)
    ensures !Abstracts(RowCall(t, c).1, Step(w, c).m, Step(w, c).issued)
  {
    if c.Exchange? { FailedExchange(w, t, c); } else { FailedRotation(w, t, c); }
  }
}
