/** Exactly when a grant is honoured and with which error it is refused, what an honoured call
    leaves, and for how long and for whom its tokens stand (sections 4.1.3, 5.2 and 6 of RFC 6749). */
module OAuthAcceptance {
  import opened Lib
  import opened OAuthGrants
  import opened OAuthGuarantees

  // ---------- answers ----------

  /** Exactly when the maps give each answer to an exchange of a code. */
  lemma MapExchangeAnswers(m: Maps, code: string, client: string, redirect: string, now: int, drawn: Option<Pair>)
    ensures var answer := MapExchange(m, code, client, redirect, now, drawn).0;
      var presented := code in m.codes && m.codes[code].client == client && m.codes[code].redirect == redirect;
      && (answer.Ok? <==> presented && now < m.codes[code].expiresAt && drawn.Some?)
      && (answer.Ok? ==> answer.value == drawn.value)
      && (answer == Err(InvalidGrant) <==> !presented)
      && (answer == Err(GrantExpired) <==> presented && m.codes[code].expiresAt <= now)
      && (answer == Err(GenerationFailed) <==> presented && now < m.codes[code].expiresAt && drawn.None?)
      && answer != Err(GrantConsumed) && answer != Err(Conflict)
  {
  }

  /** And to a rotation. */
  lemma MapRotateAnswers(m: Maps, refresh: Token, client: string, now: int, drawn: Option<Pair>)
    ensures var answer := MapRotate(m, refresh, client, now, drawn).0;
      var presented := refresh in m.refresh && m.refresh[refresh].client == client;
      && (answer.Ok? <==> presented && now < m.refresh[refresh].expiresAt && drawn.Some?)
      && (answer.Ok? ==> answer.value == drawn.value)
      && (answer == Err(InvalidGrant) <==> !presented)
      && (answer == Err(GrantExpired) <==> presented && m.refresh[refresh].expiresAt <= now)
      && (answer == Err(GenerationFailed) <==> presented && now < m.refresh[refresh].expiresAt && drawn.None?)
      && answer != Err(GrantConsumed) && answer != Err(Conflict)
  {
  }

  /** One of the two tokens is already in a row. */
  predicate Taken(t: Tables, p: Pair) { p.refresh in t.rows || exists k :: k in t.rows && t.rows[k].access == p.access }

  /** Exactly when the rows give each answer to an exchange of a code. */
  lemma RowExchangeAnswers(t: Tables, code: string, client: string, redirect: string, now: int, drawn: Option<Pair>)
    ensures var answer := RowExchange(t, code, client, redirect, now, drawn).0;
      var presented := code != "" && code in t.codes && t.codes[code].code.client == client && t.codes[code].code.redirect == redirect;
      var good := presented && t.codes[code].consumedAt.None? && now < t.codes[code].code.expiresAt;
      && (answer.Ok? <==> good && drawn.Some? && !Taken(t, drawn.value))
      && (answer.Ok? ==> answer.value == drawn.value)
      && (answer == Err(InvalidGrant) <==> !presented)
      && (answer == Err(GrantConsumed) <==> presented && t.codes[code].consumedAt.Some?)
      && (answer == Err(GrantExpired) <==> presented && t.codes[code].consumedAt.None? && t.codes[code].code.expiresAt <= now)
      && (answer == Err(GenerationFailed) <==> good && drawn.None?)
      && (answer == Err(Conflict) <==> good && drawn.Some? && Taken(t, drawn.value))
  {
  }

  /** And to a rotation. */
  lemma RowRotateAnswers(t: Tables, refresh: Token, client: string, now: int, drawn: Option<Pair>)
    ensures var answer := RowRotate(t, refresh, client, now, drawn).0;
      var presented := refresh != "" && refresh in t.rows && t.rows[refresh].client == client;
      var good := presented && t.rows[refresh].revokedAt.None? && now < t.rows[refresh].refreshExpiresAt;
      && (answer.Ok? <==> good && drawn.Some? && !Taken(t, drawn.value))
      && (answer.Ok? ==> answer.value == drawn.value)
      && (answer == Err(InvalidGrant) <==> !presented)
      && (answer == Err(GrantConsumed) <==> presented && t.rows[refresh].revokedAt.Some?)
      && (answer == Err(GrantExpired) <==> presented && t.rows[refresh].revokedAt.None? && t.rows[refresh].refreshExpiresAt <= now)
      && (answer == Err(GenerationFailed) <==> good && drawn.None?)
      && (answer == Err(Conflict) <==> good && drawn.Some? && Taken(t, drawn.value))
  {
    if refresh in t.rows && drawn.Some? {
      var revoked := t.rows[refresh := t.rows[refresh].(revokedAt := Some(now))];
      if k :| k in t.rows && t.rows[k].access == drawn.value.access { assert revoked[k].access == drawn.value.access; }
    }
  }

  // ---------- what an answer leaves ----------

  /** An honoured exchange spends the code and stores exactly its two tokens: an hour for access to
      what the principal and the scopes share, thirty days for the refresh. Any other answer leaves
      the maps alone, but for a failed draw, which spends the code for nothing. */
  lemma MapExchangeLeaves(m: Maps, code: string, client: string, redirect: string, now: int, drawn: Option<Pair>)
    ensures var (answer, m') := MapExchange(m, code, client, redirect, now, drawn);
      if answer.Ok? then
        var c := m.codes[code];
        && m'.codes == m.codes - {code}
        && m'.tokens == m.tokens[answer.value.access := Access(Principal(c.principal.id, Intersect(c.principal.permissions, c.scopes)), now + 3600)]
        && m'.refresh == m.refresh[answer.value.refresh := Grant(c.client, answer.value.access, c.principal, c.scopes, now + 2_592_000)]
      else if answer == Err(GenerationFailed) then m' == m.(codes := m.codes - {code})
      else m' == m
  {
  }

  /** An honoured rotation does the same for the grant's client, principal and scopes, and the old
      pair is gone. */
  lemma MapRotateLeaves(m: Maps, refresh: Token, client: string, now: int, drawn: Option<Pair>)
    ensures var (answer, m') := MapRotate(m, refresh, client, now, drawn);
      if answer.Ok? then
        var g := m.refresh[refresh];
        && m'.codes == m.codes
        && m'.tokens == (m.tokens - {g.access})[answer.value.access := Access(Principal(g.principal.id, Intersect(g.principal.permissions, g.scopes)), now + 3600)]
        && m'.refresh == (m.refresh - {refresh})[answer.value.refresh := Grant(g.client, answer.value.access, g.principal, g.scopes, now + 2_592_000)]
      else if answer == Err(GenerationFailed) then
        m' == m.(refresh := m.refresh - {refresh}, tokens := m.tokens - {m.refresh[refresh].access})
      else m' == m
  {
  }

  /** In rows an honoured exchange marks the code and inserts one row; any other answer changes
      nothing. */
  lemma RowExchangeLeaves(t: Tables, code: string, client: string, redirect: string, now: int, drawn: Option<Pair>)
    ensures var (answer, t') := RowExchange(t, code, client, redirect, now, drawn);
      if answer.Ok? then
        var c := t.codes[code].code;
        && t'.codes == t.codes[code := CodeRow(c, Some(now))]
        && t'.rows == t.rows[answer.value.refresh := TokenRow(answer.value.access, c.client, c.principal, c.scopes, now + 3600, now + 2_592_000, None)]
      else t' == t
  {
  }

  /** An honoured rotation marks the old row and inserts the new one. */
  lemma RowRotateLeaves(t: Tables, refresh: Token, client: string, now: int, drawn: Option<Pair>)
    ensures var (answer, t') := RowRotate(t, refresh, client, now, drawn);
      if answer.Ok? then
        var r := t.rows[refresh];
        && t'.codes == t.codes
        && t'.rows == t.rows[refresh := r.(revokedAt := Some(now))]
                            [answer.value.refresh := TokenRow(answer.value.access, r.client, r.principal, r.scopes, now + 3600, now + 2_592_000, None)]
      else t' == t
  {
  }

  // ---------- whom a live token goes back to ----------

  /** The call presented this code as the client it was given to, at its own redirect, in time. */
  predicate Presents(c: Call, name: string, code: Code) {
    c.Exchange? && c.code == name && c.client == code.client && c.redirect == code.redirect && c.now < code.expiresAt
  }

  /** One of the first n calls presented this code. */
  ghost predicate Presented(calls: seq<Call>, n: nat, name: string, code: Code)
    requires n <= |calls|
  {
    exists i :: 0 <= i < n && Presents(calls[i], name, code)
  }

  /** Every live grant goes back to a code that its own client presented, at the code's own redirect
      and before it expired, and is still that client's. */
  lemma {:induction false} LiveGrantsWerePresented(codes: map<string, Code>, worlds: seq<World>, calls: seq<Call>, n: nat, k: Token)
    requires IsRun(codes, worlds, calls) && n <= |calls| && k in worlds[n].m.refresh
    ensures k in worlds[n].origin && worlds[n].origin[k] in codes
    ensures Presented(calls, n, worlds[n].origin[k], codes[worlds[n].origin[k]])
    ensures worlds[n].m.refresh[k].client == codes[worlds[n].origin[k]].client
    decreases n
  {
    GrantHasOrigin(codes, worlds, calls, n, k);
    if n > 0 {
      var from := OriginBefore(codes, worlds, calls, n - 1, k);
      if from.Some? {
        LiveGrantsWerePresented(codes, worlds, calls, n - 1, from.value);
      } else {
        assert Presents(calls[n - 1], worlds[n].origin[k], codes[worlds[n].origin[k]]);
      }
    }
  }

  /** A live grant stood before the call, was rotated from one that did, or its code was presented. */
  lemma OriginBefore(codes: map<string, Code>, worlds: seq<World>, calls: seq<Call>, n: nat, k: Token) returns (from: Option<Token>)
    requires IsRun(codes, worlds, calls) && n < |calls| && k in worlds[n + 1].m.refresh
    ensures k in worlds[n + 1].origin && worlds[n + 1].origin[k] in codes
    ensures from.Some? ==> from.value in worlds[n].m.refresh && from.value in worlds[n].origin && worlds[n].origin[from.value] == worlds[n + 1].origin[k]
    ensures from.None? ==> Presents(calls[n], worlds[n + 1].origin[k], codes[worlds[n + 1].origin[k]])
  {
    GrantHasOrigin(codes, worlds, calls, n + 1, k);
    InvHolds(codes, worlds, calls, n);
    var w, c, w' := worlds[n], calls[n], worlds[n + 1];
    if k in w.m.refresh && w'.origin[k] == w.origin[k] {
      from := Some(k);
    } else if c.Rotate? {
      NewGrantFromRotation(codes, w, c, w', k);
      from := Some(c.refresh);
    } else {
      NewGrantFromCode(codes, w, c, w', k);
      from := None;
    }
  }

  lemma GrantHasOrigin(codes: map<string, Code>, worlds: seq<World>, calls: seq<Call>, n: nat, k: Token)
    requires IsRun(codes, worlds, calls) && n <= |calls| && k in worlds[n].m.refresh
    ensures k in worlds[n].origin && worlds[n].origin[k] in codes && worlds[n].m.refresh[k].client == codes[worlds[n].origin[k]].client
  {
    InvHolds(codes, worlds, calls, n);
  }

  lemma NewGrantFromRotation(codes: map<string, Code>, w: World, c: Call, w': World, k: Token)
    requires Inv(codes, w) && Fresh(w, c) && w' == Step(w, c) && c.Rotate? && k in w'.m.refresh && k in w'.origin
    requires !(k in w.m.refresh && w'.origin[k] == w.origin[k])
    ensures c.refresh in w.m.refresh && w'.origin[k] == w.origin[c.refresh]
  {
  }

  lemma NewGrantFromCode(codes: map<string, Code>, w: World, c: Call, w': World, k: Token)
    requires Inv(codes, w) && Fresh(w, c) && w' == Step(w, c) && c.Exchange? && k in w'.m.refresh && k in w'.origin
    requires !(k in w.m.refresh && w'.origin[k] == w.origin[k])
    ensures c.code in w.m.codes && c.code in codes && w'.origin[k] == c.code && Presents(c, c.code, codes[c.code])
  {
    MapExchangeAnswers(w.m, c.code, c.client, c.redirect, c.now, c.drawn);
  }

  // ---------- how long tokens stand ----------

  /** A grant that is there after a step and is not newly drawn was there before. */
  lemma GrantWasThere(codes: map<string, Code>, w: World, c: Call, w': World, k: Token)
    requires Inv(codes, w) && Fresh(w, c) && w' == Step(w, c) && k in w.issued && k in w'.m.refresh
    ensures k in w.m.refresh && w'.m.refresh[k] == w.m.refresh[k]
  {
  }

  lemma RefreshWasIssued(codes: map<string, Code>, worlds: seq<World>, calls: seq<Call>, i: nat, n: nat, k: Token)
    requires IsRun(codes, worlds, calls) && i <= n <= |calls| && k in worlds[i].m.refresh
    ensures k in worlds[n].issued
  {
    InvHolds(codes, worlds, calls, i);
    IssuedStays(worlds, calls, codes, i, n);
  }

  lemma GrantWasThereAt(codes: map<string, Code>, worlds: seq<World>, calls: seq<Call>, i: nat, n: nat, k: Token)
    requires IsRun(codes, worlds, calls) && i <= n < |calls| && k in worlds[i].m.refresh && k in worlds[n + 1].m.refresh
    ensures k in worlds[n].m.refresh && worlds[n + 1].m.refresh[k] == worlds[n].m.refresh[k]
  {
    InvHolds(codes, worlds, calls, n);
    RefreshWasIssued(codes, worlds, calls, i, n, k);
    GrantWasThere(codes, worlds[n], calls[n], worlds[n + 1], k);
  }

  lemma {:induction false} GrantStays(codes: map<string, Code>, worlds: seq<World>, calls: seq<Call>, i: nat, n: nat, k: Token)
    requires IsRun(codes, worlds, calls) && i <= n <= |calls| && k in worlds[i].m.refresh && k in worlds[n].m.refresh
    ensures worlds[n].m.refresh[k] == worlds[i].m.refresh[k]
    decreases n
  {
    if i < n {
      GrantWasThereAt(codes, worlds, calls, i, n - 1, k);
      GrantStays(codes, worlds, calls, i, n - 1, k);
    }
  }

  lemma {:induction false} IssuedStays(worlds: seq<World>, calls: seq<Call>, codes: map<string, Code>, i: nat, n: nat)
    requires IsRun(codes, worlds, calls) && i <= n <= |calls|
    ensures worlds[i].issued <= worlds[n].issued
    decreases n
  {
    if i < n { IssuedStays(worlds, calls, codes, i, n - 1); }
  }

  lemma IssuedGrant(codes: map<string, Code>, w: World, c: Call)
    requires Inv(codes, w) && Fresh(w, c) && MapCall(w.m, c).0.Ok?
    ensures var p := MapCall(w.m, c).0.value; var m' := Step(w, c).m;
      && p.refresh in m'.refresh && m'.refresh[p.refresh].access == p.access && m'.refresh[p.refresh].expiresAt == c.now + 2_592_000
      && p.access in Step(w, c).issued && p.refresh in Step(w, c).issued
  {
    match c
    case Exchange(code, client, redirect, now, drawn) => MapExchangeLeaves(w.m, code, client, redirect, now, drawn);
    case Rotate(refresh, client, now, drawn) => MapRotateLeaves(w.m, refresh, client, now, drawn);
  }

  /** While the refresh token of a pair has not been rotated away, its access token authenticates at
      every moment before an hour after the issue and at none from then on, and the refresh token is
      good for thirty days; once it has, neither is good for anything. */
  lemma IssuedTokensLast(codes: map<string, Code>, worlds: seq<World>, calls: seq<Call>, i: nat, n: nat, t: int)
    requires IsRun(codes, worlds, calls) && i < n <= |calls| && MapCall(worlds[i].m, calls[i]).0.Ok?
    ensures var p, m := MapCall(worlds[i].m, calls[i]).0.value, worlds[n].m;
      if p.refresh in m.refresh then
        && (MapAuthenticate(m, p.access, t).Some? <==> t < calls[i].now + 3600)
        && m.refresh[p.refresh].expiresAt == calls[i].now + 2_592_000
      else MapAuthenticate(m, p.access, t) == None
  {
    var p := MapCall(worlds[i].m, calls[i]).0.value;
    InvHolds(codes, worlds, calls, i);
    IssuedGrant(codes, worlds[i], calls[i]);
    InvHolds(codes, worlds, calls, n);
    if p.refresh in worlds[n].m.refresh {
      GrantStays(codes, worlds, calls, i + 1, n, p.refresh);
      assert GrantOk(worlds[n].m, worlds[n].m.refresh[p.refresh]);
    } else {
      AccessGoesWithRefresh(codes, worlds, calls, i + 1, n, p);
    }
  }

  /** The access token is stored as long as its refresh token is. */
  lemma {:induction false} AccessGoesWithRefresh(codes: map<string, Code>, worlds: seq<World>, calls: seq<Call>, i: nat, n: nat, p: Pair)
    requires IsRun(codes, worlds, calls) && i <= n <= |calls| && p.refresh in worlds[i].m.refresh && worlds[i].m.refresh[p.refresh].access == p.access
    requires p.refresh !in worlds[n].m.refresh && p.access in worlds[i].issued
    ensures p.access !in worlds[n].m.tokens
    decreases n
  {
    InvHolds(codes, worlds, calls, n - 1);
    if p.refresh in worlds[n - 1].m.refresh {
      GrantStays(codes, worlds, calls, i, n - 1, p.refresh);
      AccessLeaves(codes, worlds[n - 1], calls[n - 1], worlds[n], p);
    } else {
      AccessGoesWithRefresh(codes, worlds, calls, i, n - 1, p);
      IssuedStays(worlds, calls, codes, i, n - 1);
      OnlyFreshAccess(codes, worlds[n - 1], calls[n - 1], worlds[n], p.access);
    }
  }

  lemma AccessLeaves(codes: map<string, Code>, w: World, c: Call, w': World, p: Pair)
    requires Inv(codes, w) && Fresh(w, c) && w' == Step(w, c) && p.refresh in w.m.refresh && w.m.refresh[p.refresh].access == p.access
    requires p.refresh !in w'.m.refresh
    ensures p.access !in w'.m.tokens
  {
    assert GrantOk(w.m, w.m.refresh[p.refresh]);
  }

  lemma OnlyFreshAccess(codes: map<string, Code>, w: World, c: Call, w': World, a: Token)
    requires Inv(codes, w) && Fresh(w, c) && w' == Step(w, c) && a !in w.m.tokens && a in w.issued
    ensures a !in w'.m.tokens
  {
  }
}
