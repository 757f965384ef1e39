/**
 The proxy's session state: pending login transactions and revoked sessions, what each
 request and the cleanup do to them, and the server that does it.
 */
module ProxyServer {
  import opened Wrappers
  import opened GoTime
  import opened Jwt
  import opened ProxyHeaders
  import Records

  const LOGIN_TTL: int := 10 * MINUTE

  datatype Txn = Txn(returnTo: string, wardId: string, createdAt: int)

  /** Pending logins by state, and the expiry of each revoked session. */
  datatype Sessions = Sessions(txns: map<string, Txn>, revoked: map<string, int>)

  datatype Exchange = Exchange(principalId: string, wardId: string, sessionId: string)

  datatype Reply =
    | Forbidden
    | Forwarded(headers: Headers, remote: string)
    | LoginPage(state: string)
    | BadRequest
    | Unauthorized
    | Redirect(location: string, token: Token)

  datatype Inbound = Inbound(path: string, uri: string, headers: Headers, remote: string, cookie: Option<Token>)

  /** `agent` is the agent verifier's answer about the request's bearer token; the rest are readings and a fresh state. */
  datatype Outside = Outside(agent: Option<AgentClaims>, origin: Origin, verifiedAt: int, checkedAt: int, state: string, shownAt: int)

  predicate Opens(rule: Records.WhitelistRule, path: string) {
    (rule.kind == "exact" && path == rule.path) || (rule.kind == "prefix" && rule.path <= path)
  }

  predicate Whitelisted(rules: seq<Records.WhitelistRule>, path: string) {
    exists i :: 0 <= i < |rules| && Opens(rules[i], path)
  }

  /** Which paths need no login, rule by rule. */
  lemma WhitelistedExactly(rules: seq<Records.WhitelistRule>, path: string)
    ensures Whitelisted(rules, path) <==>
              exists i :: 0 <= i < |rules| && ((rules[i].kind == "exact" && path == rules[i].path)
                                               || (rules[i].kind == "prefix" && StartsWith(path, rules[i].path)))
  {
    forall rule: Records.WhitelistRule ensures rule.path <= path <==> StartsWith(path, rule.path) {
      if rule.path <= path {
        assert path == rule.path + path[|rule.path|..];
      }
    }
  }

  ghost predicate StartsWith(path: string, prefix: string) {
    exists rest: string :: path == prefix + rest
  }

  function OrRoot(s: string): string {
    if s == "" then "/" else s
  }

  predicate LoginExpired(t: Txn, now: int) {
    now - t.createdAt > LOGIN_TTL
  }

  /** The claims of a cookie that is valid for this ward at `now`. */
  function CookieClaims(wardId: string, cookie: Option<Token>, now: int): Option<Claims> {
    if cookie.None? || Verify(cookie.value, now).None? then None
    else
      var c := Verify(cookie.value, now).value;
      if c.wardId != wardId || c.aud != Audience(wardId) then None else Some(c)
  }

  /** A cookie is good exactly for a token that verifies, of this ward and for it. */
  lemma CookieExactly(wardId: string, cookie: Option<Token>, now: int)
    ensures CookieClaims(wardId, cookie, now).Some? <==>
              && cookie.Some? && Verify(cookie.value, now).Some?
              && cookie.value.payload.wardId == wardId
              && cookie.value.payload.aud != [] && cookie.value.payload.aud[0] == "ward:" + wardId
    ensures CookieClaims(wardId, cookie, now).Some? ==> CookieClaims(wardId, cookie, now) == Verify(cookie.value, now)
  {
  }

  function Lookup(m: map<string, int>, k: string): Option<int> {
    if k in m then Some(m[k]) else None
  }

  predicate Barred(entry: Option<int>, now: int) {
    entry.Some? && now < entry.value
  }

  function Remembered(s: Sessions, state: string, t: Txn): Sessions {
    s.(txns := s.txns[state := t])
  }

  function Taken(s: Sessions, state: string): (Sessions, Option<Txn>) {
    if state in s.txns then (s.(txns := s.txns - {state}), Some(s.txns[state])) else (s, None)
  }

  function Revoked(s: Sessions, c: Claims): Sessions {
    s.(revoked := s.revoked[c.sessionId := c.exp * SECOND])
  }

  function SweptTxns(m: map<string, Txn>, now: int): map<string, Txn> {
    map k | k in m && !LoginExpired(m[k], now) :: m[k]
  }

  function SweptRevoked(m: map<string, int>, now: int): map<string, int> {
    map k | k in m && now < m[k] :: m[k]
  }

  function Swept(s: Sessions, now: int): Sessions {
    Sessions(SweptTxns(s.txns, now), SweptRevoked(s.revoked, now))
  }

  /** The token of a completed login. */
  function SessionToken(x: Exchange, jti: string, now: int): Token {
    Sign(Claims(0, "", "", "", "", x.principalId, x.wardId, x.sessionId, 0, 0, 0), jti, now)
  }

  class Server {
    const wardId: string
    const active: bool
    const whitelist: seq<Records.WhitelistRule>
    var transactions: map<string, Txn>
    var revokedSessions: map<string, int>

    function View(): Sessions
      reads this
    {
      Sessions(transactions, revokedSessions)
    }

    constructor (wardId: string, active: bool, whitelist: seq<Records.WhitelistRule>)
      ensures this.wardId == wardId && this.active == active && this.whitelist == whitelist
      ensures View() == Sessions(map[], map[])
    {
      this.wardId, this.active, this.whitelist := wardId, active, whitelist;
      transactions, revokedSessions := map[], map[];
    }

    /** Any request outside the server's own paths. */
    method HandleDefault(req: Inbound, o: Outside) returns (reply: Reply)
      modifies this
      ensures var (h, remote) := TrustedForwarding(o.origin, req.headers, req.remote);
              var c := CookieClaims(wardId, req.cookie, o.verifiedAt);
              var admitted := c.Some? && !Barred(Lookup(old(revokedSessions), c.value.sessionId), o.checkedAt);
              var login := !admitted && active && !Whitelisted(whitelist, req.path) && Bearer(req.headers) == "";
              && View() == (if login then Remembered(old(View()), o.state, Txn(OrRoot(req.uri), wardId, o.shownAt)) else old(View()))
              && reply == (if !active then Forbidden
                           else if Whitelisted(whitelist, req.path) then Forwarded(Cleaned(h), remote)
                           else if Bearer(req.headers) != "" then
                             if o.agent.None? then Unauthorized else Forwarded(AgentHeaders(Cleaned(h), o.agent.value), remote)
                           else if login then LoginPage(o.state)
                           else Forwarded(SessionHeaders(Cleaned(h), c.value), remote))
      ensures active && req.cookie.None? && Bearer(req.headers) == "" ==>
                && (reply.Forwarded? <==>
                      exists i :: 0 <= i < |whitelist| && ((whitelist[i].kind == "exact" && req.path == whitelist[i].path)
                                                           || (whitelist[i].kind == "prefix" && StartsWith(req.path, whitelist[i].path))))
                && (!reply.Forwarded? ==>
                      && reply == LoginPage(o.state)
                      && transactions == old(transactions)[o.state := Txn(if req.uri == "" then "/" else req.uri, wardId, o.shownAt)])
    {
      WhitelistedExactly(whitelist, req.path);
      if !active {
        return Forbidden;
      }
      var headers, remote := ApplyTrustedProxyHeaders(o.origin, req.headers, req.remote);
      var open := IsWhitelisted(req.path);
      if open {
        headers := CleanInjectedIdentityHeaders(headers);
        return Forwarded(headers, remote);
      }
      if Bearer(req.headers) != "" {
        reply := HandleAgentBearer(o.agent, headers, remote);
        return;
      }
      var claims := CheckCookie(req.cookie, o.verifiedAt, o.checkedAt);
      if claims.None? {
        reply := ServeLoginPage(o.state, req.uri, o.shownAt);
        return;
      }
      headers := CleanInjectedIdentityHeaders(headers);
      headers := headers[FORWARDED_USER := [claims.value.principalId]];
      headers := headers[PRINCIPAL := [claims.value.principalId]];
      headers := headers[WARD := [claims.value.wardId]];
      return Forwarded(headers, remote);
    }

    method IsWhitelisted(path: string) returns (open: bool)
      ensures open == Whitelisted(whitelist, path)
    {
      for i := 0 to |whitelist|
        invariant forall k :: 0 <= k < i ==> !Opens(whitelist[k], path)
      {
        if whitelist[i].kind == "exact" {
          if path == whitelist[i].path {
            return true;
          }
        } else if whitelist[i].kind == "prefix" {
          if whitelist[i].path <= path {
            return true;
          }
        }
      }
      return false;
    }

    /** A missing verifier and a refused token look the same to the client. */
    method HandleAgentBearer(agent: Option<AgentClaims>, headers: Headers, remote: string) returns (reply: Reply)
      ensures reply == if agent.None? then Unauthorized else Forwarded(AgentHeaders(Cleaned(headers), agent.value), remote)
    {
      if agent.None? {
        return Unauthorized;
      }
      var out := CleanInjectedIdentityHeaders(headers);
      out := out - {AUTHORIZATION};
      out := out[FORWARDED_USER := [agent.value.principalId]];
      out := out[PRINCIPAL := [agent.value.principalId]];
      out := out[WARD := [agent.value.wardId]];
      out := out[AUTH_TYPE := ["ward_access_token"]];
      out := out[TOKEN_ID := [agent.value.jti]];
      if agent.value.tokenName != "" {
        out := out[CREDENTIAL := [agent.value.tokenName]];
      }
      return Forwarded(out, remote);
    }

    /** The checks of the session cookie, up to the lookup of revocations. */
    method CheckCookie(cookie: Option<Token>, verifiedAt: int, checkedAt: int) returns (admitted: Option<Claims>)
      ensures var c := CookieClaims(wardId, cookie, verifiedAt);
              admitted == if c.Some? && !Barred(Lookup(revokedSessions, c.value.sessionId), checkedAt) then c else None
    {
      if cookie.None? {
        return None;
      }
      var claims := Verify(cookie.value, verifiedAt);
      if claims.None? || claims.value.wardId != wardId || claims.value.aud != Audience(wardId) {
        return None;
      }
      var id := claims.value.sessionId;
      if id in revokedSessions && checkedAt < revokedSessions[id] {
        return None;
      }
      return claims;
    }

    method ServeLoginPage(state: string, uri: string, now: int) returns (reply: Reply)
      modifies this
      ensures reply == LoginPage(state)
      ensures View() == Remembered(old(View()), state, Txn(OrRoot(uri), wardId, now))
    {
      var returnTo := uri;
      if returnTo == "" {
        returnTo := "/";
      }
      transactions := transactions[state := Txn(returnTo, wardId, now)];
      return LoginPage(state);
    }

    /** A transaction leaves the map before it is judged, whatever comes of it. */
    method HandleCallback(code: string, state: string, checkedAt: int, exchange: Option<Exchange>,
                          jti: string, signedAt: int) returns (reply: Reply)
      modifies this
      ensures code == "" || state == "" ==> reply == BadRequest && View() == old(View())
      ensures code != "" && state != "" ==>
                var (s, t) := Taken(old(View()), state);
                && View() == s
                && (if t.None? || LoginExpired(t.value, checkedAt) || t.value.wardId != wardId then reply == BadRequest
                    else if exchange.None? then reply == Unauthorized
                    else reply == Redirect(OrRoot(t.value.returnTo), SessionToken(exchange.value, jti, signedAt)))
      ensures reply.Redirect? <==>
                && code != "" && state != "" && state in old(transactions)
                && checkedAt <= old(transactions)[state].createdAt + 10 * MINUTE
                && old(transactions)[state].wardId == wardId && exchange.Some?
      ensures reply.Redirect? ==>
                reply.location == if old(transactions)[state].returnTo == "" then "/" else old(transactions)[state].returnTo
      ensures code != "" && state != "" ==> transactions == old(transactions) - {state} && revokedSessions == old(revokedSessions)
    {
      if code == "" || state == "" {
        return BadRequest;
      }
      if state !in transactions {
        return BadRequest;
      }
      var txn := transactions[state];
      transactions := transactions - {state};
      if checkedAt - txn.createdAt > LOGIN_TTL {
        return BadRequest;
      }
      if txn.wardId != wardId {
        return BadRequest;
      }
      if exchange.None? {
        return Unauthorized;
      }
      var token := SessionToken(exchange.value, jti, signedAt);
      var returnTo := txn.returnTo;
      if returnTo == "" {
        returnTo := "/";
      }
      return Redirect(returnTo, token);
    }

    /** Any valid token is revoked, for as long as it would have been valid. */
    method HandleLogout(cookie: Option<Token>, now: int)
      modifies this
      ensures View() == if cookie.Some? && Verify(cookie.value, now).Some?
                        then Revoked(old(View()), Verify(cookie.value, now).value) else old(View())
      ensures transactions == old(transactions)
      ensures revokedSessions == if cookie.Some? && Verify(cookie.value, now).Some?
                then old(revokedSessions)[cookie.value.payload.sessionId := cookie.value.payload.exp * 1_000_000_000]
                else old(revokedSessions)
    {
      if cookie.Some? {
        var claims := Verify(cookie.value, now);
        if claims.Some? && claims.value.sessionId != "" {
          revokedSessions := revokedSessions[claims.value.sessionId := claims.value.exp * SECOND];
        }
      }
    }

    /** Deletes while iterating, first from the one map and then from the other. */
    method CleanupExpiredState(now: int)
      modifies this
      ensures View() == Swept(old(View()), now)
      ensures forall k :: k in transactions <==> k in old(transactions) && now <= old(transactions)[k].createdAt + 10 * MINUTE
      ensures forall k :: k in revokedSessions <==> k in old(revokedSessions) && now < old(revokedSessions)[k]
      ensures forall k :: k in transactions ==> transactions[k] == old(transactions)[k]
      ensures forall k :: k in revokedSessions ==> revokedSessions[k] == old(revokedSessions)[k]
    {
      CleanupTransactions(now);
      CleanupRevoked(now);
    }

    method CleanupTransactions(now: int)
      modifies this`transactions
      ensures transactions == SweptTxns(old(transactions), now)
    {
      var states := transactions.Keys;
      while states != {}
        invariant states <= transactions.Keys
        invariant forall k :: k in transactions <==> k in old(transactions) && (k in states || !LoginExpired(old(transactions)[k], now))
        invariant forall k :: k in transactions ==> transactions[k] == old(transactions)[k]
        decreases |states|
      {
        var state :| state in states;
        states := states - {state};
        if now - transactions[state].createdAt > LOGIN_TTL {
          transactions := transactions - {state};
        }
      }
    }

    method CleanupRevoked(now: int)
      modifies this`revokedSessions
      ensures revokedSessions == SweptRevoked(old(revokedSessions), now)
    {
      var ids := revokedSessions.Keys;
      while ids != {}
        invariant ids <= revokedSessions.Keys
        invariant forall k :: k in revokedSessions <==> k in old(revokedSessions) && (k in ids || now < old(revokedSessions)[k])
        invariant forall k :: k in revokedSessions ==> revokedSessions[k] == old(revokedSessions)[k]
        decreases |ids|
      {
        var id :| id in ids;
        ids := ids - {id};
        if !(now < revokedSessions[id]) {
          revokedSessions := revokedSessions - {id};
        }
      }
    }
  }
}
