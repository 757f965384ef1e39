/** What the upstream sees of a request: forwarded headers, identity headers and bearer tokens. */
module ProxyHeaders {
  import opened Text
  import opened Jwt

  /** Header names as received, each with its values. */
  type Headers = map<string, seq<string>>

  const FORWARDED_FOR: string := "X-Forwarded-For"
  const FORWARDED_USER: string := "X-Forwarded-User"
  const PRINCIPAL: string := "X-Warded-Principal-Id"
  const WARD: string := "X-Warded-Ward-Id"
  const AUTH_TYPE: string := "X-Warded-Auth-Type"
  const TOKEN_ID: string := "X-Warded-Token-Jti"
  const CREDENTIAL: string := "X-Warded-Credential-Name"
  const AUTHORIZATION: string := "Authorization"

  function Upper(c: char): char {
    if 'a' <= c <= 'z' then (c as int - 32) as char else c
  }

  predicate TokenChar(c: char) {
    'a' <= c <= 'z' || 'A' <= c <= 'Z' || '0' <= c <= '9' || c in "!#$%&'*+-.^_`|~"
  }

  /** Header names are made of letters, digits and the marks of section 5.6.2 of RFC 9110. */
  lemma TokenCharExactly(c: char)
    ensures TokenChar(c) <==>
              || 97 <= c as int <= 122 || 65 <= c as int <= 90 || 48 <= c as int <= 57
              || c as int in {33, 35, 36, 37, 38, 39, 42, 43, 45, 46, 94, 95, 96, 124, 126}
  {
  }

  /** Small letters are capitalised, and nothing else changes. */
  lemma UpperExactly(c: char)
    ensures 97 <= c as int <= 122 ==> Upper(c) as int == c as int - 32
    ensures !(97 <= c as int <= 122) ==> Upper(c) == c
  {
  }

  function Capitalised(s: string, upper: bool): string {
    if s == "" then "" else [if upper then Upper(s[0]) else Lower(s[0])] + Capitalised(s[1..], s[0] == '-')
  }

  /** Go's canonical form; a name with a character no header name may have is left alone. */
  function Canonical(key: string): string {
    if forall c :: c in key ==> TokenChar(c) then Capitalised(key, true) else key
  }

  /** The names by which an upstream recognises who is asking. */
  predicate Identity(key: string) {
    var c := Canonical(key);
    c == FORWARDED_USER || c == "X-Auth-Request-User" || c == "Remote-User" || "X-Warded-" <= c
  }

  function First(h: Headers, key: string): string {
    if key in h && h[key] != [] then h[key][0] else ""
  }

  function Cleaned(h: Headers): Headers {
    map k | k in h && !Identity(k) :: h[k]
  }

  method CleanInjectedIdentityHeaders(h: Headers) returns (clean: Headers)
    ensures clean == Cleaned(h)
  {
    clean := h;
    var keys := h.Keys;
    while keys != {}
      invariant keys <= h.Keys
      invariant forall k :: k in clean <==> k in h && (k in keys || !Identity(k))
      invariant forall k :: k in clean ==> clean[k] == h[k]
      decreases |keys|
    {
      var key :| key in keys;
      keys := keys - {key};
      if Identity(key) {
        clean := clean - {key};
      }
    }
  }

  // ---------------------------------------------------------------- forwarded headers

  /** What the listener knows of a request's origin; the parsers of addresses are arbitrary. */
  datatype Origin = Origin(behindProxy: bool, trusted: bool, validIP: string -> bool)

  function FirstForwarded(value: string): string {
    var ip := TrimSpace(value);
    if Index(ip, ',') >= 0 then TrimSpace(ip[..Index(ip, ',')]) else ip
  }

  function Joined(ip: string): string {
    if ':' in ip then "[" + ip + "]:0" else ip + ":0"
  }

  /** Headers and remote address after the rules for trusted proxies. */
  function TrustedForwarding(o: Origin, h: Headers, remote: string): (Headers, string) {
    if !o.behindProxy then (h, remote)
    else if !o.trusted then (h - {FORWARDED_FOR, "X-Forwarded-Host", "X-Forwarded-Proto", "X-Real-Ip"}, remote)
    else
      var ip := FirstForwarded(First(h, FORWARDED_FOR));
      (h - {FORWARDED_FOR}, if ip == "" || !o.validIP(ip) then remote else Joined(ip))
  }

  method ApplyTrustedProxyHeaders(o: Origin, h: Headers, remote: string) returns (headers: Headers, addr: string)
    ensures (headers, addr) == TrustedForwarding(o, h, remote)
  {
    headers, addr := h, remote;
    if !o.behindProxy {
      return;
    }
    if !o.trusted {
      headers := headers - {FORWARDED_FOR};
      headers := headers - {"X-Forwarded-Host"};
      headers := headers - {"X-Forwarded-Proto"};
      headers := headers - {"X-Real-Ip"};
      assert headers == h - {FORWARDED_FOR, "X-Forwarded-Host", "X-Forwarded-Proto", "X-Real-Ip"};
      return;
    }
    var clientIP := FirstForwarded(First(headers, FORWARDED_FOR));
    headers := headers - {FORWARDED_FOR};
    if clientIP == "" || !o.validIP(clientIP) {
      return;
    }
    addr := Joined(clientIP);
  }

  // ---------------------------------------------------------------- identities

  datatype AgentClaims = AgentClaims(principalId: string, wardId: string, jti: string, tokenName: string)

  function SessionHeaders(h: Headers, c: Claims): Headers {
    h[FORWARDED_USER := [c.principalId]][PRINCIPAL := [c.principalId]][WARD := [c.wardId]]
  }

  function AgentHeaders(h: Headers, a: AgentClaims): Headers {
    var named := (h - {AUTHORIZATION})[FORWARDED_USER := [a.principalId]][PRINCIPAL := [a.principalId]][WARD := [a.wardId]];
    var typed := named[AUTH_TYPE := ["ward_access_token"]][TOKEN_ID := [a.jti]];
    if a.tokenName != "" then typed[CREDENTIAL := [a.tokenName]] else typed
  }

  /** The token of an `Authorization: Bearer` header, or nothing. */
  function Bearer(h: Headers): string {
    var value := TrimSpace(First(h, AUTHORIZATION));
    if "Bearer " <= value then TrimSpace(value[7..]) else ""
  }

  // ---------------------------------------------------------------- what the readers of headers find

  /** A bearer token is what stands after the word, whatever the spaces around it. */
  lemma BearerFound(h: Headers, before: string, gap: string, token: string, after: string)
    requires All(before, Space) && All(gap, Space) && All(after, Space) && token != "" && Bare(token, Space)
    requires AUTHORIZATION in h && h[AUTHORIZATION] == [before + ("Bearer " + gap + token) + after]
    ensures Bearer(h) == token
  {
    var core := "Bearer " + gap + token;
    assert core[|core| - 1] == token[|token| - 1];
    TrimPad(before, core, after, Space);
    assert core[7..] == gap + token + "";
    TrimPad(gap, token, "", Space);
  }

  /** Without the header, or with another scheme, there is none. */
  lemma BearerMissing(h: Headers)
    requires AUTHORIZATION !in h || h[AUTHORIZATION] == [] || forall rest: string :: TrimSpace(h[AUTHORIZATION][0]) != "Bearer " + rest
    ensures Bearer(h) == ""
  {
    var value := TrimSpace(First(h, AUTHORIZATION));
    if AUTHORIZATION !in h || h[AUTHORIZATION] == [] {
      TrimFree("", Space);
    } else {
      PrefixSplits("Bearer ", value);
    }
  }

  lemma PrefixSplits(prefix: string, s: string)
    ensures prefix <= s <==> exists rest: string :: s == prefix + rest
  {
    if prefix <= s {
      assert s == prefix + s[|prefix|..];
    }
  }

  /** A single forwarded address is found, whatever the spaces around it. */
  lemma OnlyForwardedFound(before: string, ip: string, after: string)
    requires All(before, Space) && All(after, Space) && ip != "" && Bare(ip, Space) && ',' !in ip
    ensures FirstForwarded(before + ip + after) == ip
  {
    TrimPad(before, ip, after, Space);
  }

  /** A list that starts with a comma names nobody first. */
  lemma NobodyForwarded(before: string, others: string)
    requires All(before, Space) && others != "" && Bare(others, Space)
    ensures FirstForwarded(before + ("," + others)) == ""
  {
    var list := "," + others;
    assert list[|list| - 1] == others[|others| - 1];
    assert before + list == before + list + "";
    TrimPad(before, list, "", Space);
    assert list[0] == ',' && list[..0] == "";
    TrimFree("", Space);
  }

  /** Of a list of forwarded addresses the first counts. */
  lemma FirstForwardedFound(before: string, ip: string, after: string, others: string)
    requires All(before, Space) && All(after, Space) && ip != "" && Bare(ip, Space) && ',' !in ip
    requires others != "" && Bare(others, Space)
    ensures FirstForwarded(before + (ip + after + "," + others)) == ip
  {
    var list := ip + after + "," + others;
    assert list[|list| - 1] == others[|others| - 1] && list[0] == ip[0];
    assert before + list == before + list + "";
    TrimPad(before, list, "", Space);
    FirstComma(ip + after, others, ip, after);
    var cut := |ip + after|;
    assert list == ip + after + "," + others && list[..cut] == "" + ip + after;
    TrimPad("", ip, after, Space);
  }

  lemma FirstComma(head: string, others: string, ip: string, after: string)
    requires head == ip + after && All(after, Space) && ',' !in ip
    ensures Index(head + "," + others, ',') == |head|
  {
    var list := head + "," + others;
    assert list[|head|] == ',';
    forall k | 0 <= k < |head| ensures list[k] != ',' {
      if k < |ip| { assert list[k] == ip[k] && ip[k] in ip; } else { assert list[k] == after[k - |ip|]; }
    }
  }

  /** Behind a proxy the four forwarding headers are believed exactly from trusted addresses. */
  lemma ForwardingExactly(o: Origin, h: Headers, remote: string, k: string)
    ensures var (out, addr) := TrustedForwarding(o, h, remote);
            && (k in out ==> k in h && out[k] == h[k])
            && (k in h && k !in out <==>
                  k in h && o.behindProxy && (k == "X-Forwarded-For"
                                              || (!o.trusted && (k == "X-Forwarded-Host" || k == "X-Forwarded-Proto" || k == "X-Real-Ip"))))
            && (addr != remote ==> o.behindProxy && o.trusted)
    ensures var ip := FirstForwarded(First(h, "X-Forwarded-For"));
            o.behindProxy && o.trusted && ip != "" && o.validIP(ip) ==>
              TrustedForwarding(o, h, remote).1 == if ':' in ip then "[" + ip + "]:0" else ip + ":0"
    ensures !o.validIP(FirstForwarded(First(h, "X-Forwarded-For"))) ==> TrustedForwarding(o, h, remote).1 == remote
  {
  }

  // ---------------------------------------------------------------- which names are identities

  lemma {:induction false} LowerCapitalised(s: string, upper: bool)
    ensures ToLower(Capitalised(s, upper)) == ToLower(s)
    ensures Capitalised(ToLower(s), upper) == Capitalised(s, upper)
    decreases |s|
  {
    if s != "" {
      var rest := s[1..];
      LowerCapitalised(rest, s[0] == '-');
      HeadAndTail(s);
      HeadAndTail(Capitalised(s, upper));
      assert Capitalised(s, upper)[1..] == Capitalised(rest, s[0] == '-');
    }
  }

  lemma HeadAndTail(s: string)
    requires s != ""
    ensures ToLower(s) == [Lower(s[0])] + ToLower(s[1..]) && ToLower(s)[1..] == ToLower(s[1..])
  {
    assert s == [s[0]] + s[1..];
  }

  /** In whatever case a name is sent, two names are one header exactly when they are equal in lower case. */
  lemma OneHeaderExactly(a: string, b: string)
    requires (forall c :: c in a ==> TokenChar(c)) && (forall c :: c in b ==> TokenChar(c))
    ensures Canonical(a) == Canonical(b) <==> ToLower(a) == ToLower(b)
  {
    LowerCapitalised(a, true);
    LowerCapitalised(b, true);
  }

  const SESSION_KEYS: set<string> := {FORWARDED_USER, PRINCIPAL, WARD}
  const AGENT_KEYS: set<string> := SESSION_KEYS + {AUTH_TYPE, TOKEN_ID, CREDENTIAL}

  /** Canonical form of a name with a dash: each side by itself, the second starting afresh. */
  lemma {:induction false} CapitalisedAppend(a: string, b: string, upper: bool)
    ensures Capitalised(a + "-" + b, upper) == Capitalised(a, upper) + "-" + Capitalised(b, true)
    decreases |a|
  {
    var s := a + "-" + b;
    if a == "" {
      assert s[0] == '-' && s[1..] == b;
    } else {
      assert s[0] == a[0] && s[1..] == a[1..] + "-" + b;
      CapitalisedAppend(a[1..], b, a[0] == '-');
    }
  }

  /** A word of one capital and small letters is in canonical form. */
  lemma {:induction false} WordStays(s: string)
    requires s != "" ==> Upper(s[0]) == s[0] && s[0] != '-'
    requires forall i :: 0 < i < |s| ==> Lower(s[i]) == s[i] && s[i] != '-'
    ensures Capitalised(s, true) == s
  {
    if s != "" {
      SmallStays(s[1..]);
    }
  }

  lemma {:induction false} SmallStays(s: string)
    requires forall i :: 0 <= i < |s| ==> Lower(s[i]) == s[i] && s[i] != '-'
    ensures Capitalised(s, false) == s
  {
    if s != "" {
      SmallStays(s[1..]);
    }
  }

  /** A leading word with its dash stays, and what follows starts afresh. */
  lemma WordThen(word: string, rest: string)
    requires word != "" && Upper(word[0]) == word[0] && word[0] != '-'
    requires forall i :: 0 < i < |word| ==> Lower(word[i]) == word[i] && word[i] != '-'
    ensures Capitalised(word + "-" + rest, true) == word + "-" + Capitalised(rest, true)
  {
    CapitalisedAppend(word, rest, true);
    WordStays(word);
  }

  lemma Regroup(a: string, b: string, rest: string)
    ensures (a + b) + rest == a + (b + rest)
  {
  }

  lemma WardedCapitalised(rest: string)
    ensures Capitalised("X-Warded-" + rest, true) == "X-Warded-" + Capitalised(rest, true)
  {
    WordThen("Warded", rest);
    WordThen("X", "Warded" + "-" + rest);
    assert ("X" + "-") + ("Warded" + "-") == "X-Warded-";
    Regroup("X" + "-", "Warded" + "-", rest);
    Regroup("X" + "-", "Warded" + "-", Capitalised(rest, true));
  }

  /** Canonical names joined by a dash are canonical. */
  lemma JoinStays(a: string, b: string)
    requires Capitalised(a, true) == a && Capitalised(b, true) == b
    ensures Capitalised(a + "-" + b, true) == a + "-" + b
  {
    CapitalisedAppend(a, b, true);
  }

  /** The spellings of the longer names, word by word. */
  lemma Spelled()
    ensures "Forwarded" + "-" + "User" == "Forwarded-User"
    ensures "X" + "-" + "Forwarded-User" == "X-Forwarded-User"
  {
  }

  lemma SpelledToo()
    ensures "Request" + "-" + "User" == "Request-User"
    ensures "Auth" + "-" + "Request-User" == "Auth-Request-User"
    ensures "X" + "-" + "Auth-Request-User" == "X-Auth-Request-User"
  {
  }

  lemma ForwardedUserStays()
    ensures Capitalised("X-Forwarded-User", true) == "X-Forwarded-User"
  {
    Spelled();
    WordStays("X");
    WordStays("Forwarded");
    WordStays("User");
    JoinStays("Forwarded", "User");
    JoinStays("X", "Forwarded-User");
  }

  lemma AuthRequestUserStays()
    ensures Capitalised("X-Auth-Request-User", true) == "X-Auth-Request-User"
  {
    SpelledToo();
    WordStays("X");
    WordStays("Auth");
    WordStays("Request");
    WordStays("User");
    JoinStays("Request", "User");
    JoinStays("Auth", "Request-User");
    JoinStays("X", "Auth-Request-User");
  }

  lemma RemoteUserStays()
    ensures Capitalised("Remote-User", true) == "Remote-User"
  {
    WordStays("Remote");
    WordStays("User");
    JoinStays("Remote", "User");
    assert "Remote" + "-" + "User" == "Remote-User";
  }

  lemma PrefixByCase(k: string)
    ensures "X-Warded-" <= Capitalised(k, true) <==> ToLower("X-Warded-") <= ToLower(k)
  {
    LowerCapitalised(k, true);
    var c := Capitalised(k, true);
    if "X-Warded-" <= c {
      assert c == "X-Warded-" + c[9..];
      LowerAppend("X-Warded-", c[9..]);
    }
    if ToLower("X-Warded-") <= ToLower(k) {
      var rest := k[9..];
      LowerAppend("X-Warded-", rest);
      assert ToLower(k) == ToLower("X-Warded-" + rest);
      LowerCapitalised("X-Warded-" + rest, true);
      WardedCapitalised(rest);
    }
  }

  /** A well-formed name is an identity exactly when, in whatever case, it is one of three or starts as the proxy's own. */
  lemma IdentityExactly(k: string)
    requires forall c :: c in k ==> TokenChar(c)
    ensures Identity(k) <==>
              || ToLower(k) == ToLower("X-Forwarded-User") || ToLower(k) == ToLower("X-Auth-Request-User")
              || ToLower(k) == ToLower("Remote-User") || ToLower("X-Warded-") <= ToLower(k)
  {
    ForwardedUserStays();
    AuthRequestUserStays();
    RemoteUserStays();
    PrefixByCase(k);
    LowerCapitalised(k, true);
    LowerCapitalised("X-Forwarded-User", true);
    LowerCapitalised("X-Auth-Request-User", true);
    LowerCapitalised("Remote-User", true);
  }

  lemma WardedIsIdentity(rest: string)
    requires forall c :: c in rest ==> TokenChar(c)
    ensures Identity("X-Warded-" + rest)
  {
    WardedCapitalised(rest);
    var key := "X-Warded-" + rest;
    forall c | c in key ensures TokenChar(c) {
      assert c in "X-Warded-" || c in rest;
    }
  }

  /** A client's identity headers never reach the upstream, in whatever case they were sent. */
  lemma NobodyIsSpoofed(o: Origin, h: Headers, remote: string, c: Claims, k: string)
    ensures var out := SessionHeaders(Cleaned(TrustedForwarding(o, h, remote).0), c);
            && out["X-Forwarded-User"] == out["X-Warded-Principal-Id"] == [c.principalId] && out["X-Warded-Ward-Id"] == [c.wardId]
            && (k in out && k !in SESSION_KEYS ==> !Identity(k) && k in h && out[k] == h[k])
            && (k in h && !Identity(k) && !o.behindProxy ==> k in out && (k !in SESSION_KEYS ==> out[k] == h[k]))
  {
  }

  lemma CredentialSpelled()
    ensures CREDENTIAL == "X-Warded-" + "Credential-Name"
  {
  }

  lemma CredentialIsIdentity()
    ensures Identity(CREDENTIAL)
  {
    CredentialSpelled();
    WardedIsIdentity("Credential-Name");
  }

  /** The same for an agent's request, whose own token is not passed on. */
  lemma NoAgentIsSpoofed(o: Origin, h: Headers, remote: string, a: AgentClaims, k: string)
    ensures var out := AgentHeaders(Cleaned(TrustedForwarding(o, h, remote).0), a);
            && AUTHORIZATION !in out
            && out["X-Forwarded-User"] == out["X-Warded-Principal-Id"] == [a.principalId] && out["X-Warded-Ward-Id"] == [a.wardId]
            && out["X-Warded-Auth-Type"] == ["ward_access_token"] && out["X-Warded-Token-Jti"] == [a.jti]
            && (k in out && k !in AGENT_KEYS ==> !Identity(k) && k in h && out[k] == h[k])
            && (k in h && !Identity(k) && !o.behindProxy && k != "Authorization" && k !in AGENT_KEYS ==> k in out && out[k] == h[k])
  {
  }

  /** A credential name the upstream sees is the agent token's own. */
  lemma CredentialIsTheTokens(o: Origin, h: Headers, remote: string, a: AgentClaims)
    ensures var out := AgentHeaders(Cleaned(TrustedForwarding(o, h, remote).0), a);
            if a.tokenName == "" then CREDENTIAL !in out else CREDENTIAL in out && out[CREDENTIAL] == [a.tokenName]
  {
    CredentialIsIdentity();
    assert CREDENTIAL !in Cleaned(TrustedForwarding(o, h, remote).0);
  }

  /** Without a session nobody is named at all. */
  lemma NobodyIsNamed(o: Origin, h: Headers, remote: string, k: string)
    ensures var out := Cleaned(TrustedForwarding(o, h, remote).0);
            && (k in out ==> !Identity(k) && k in h && out[k] == h[k])
            && (o.behindProxy ==> FORWARDED_FOR !in out)
  {
  }
}
