/** Which ward a request is for: host normalisation and dispatch by it. */
module Hosts {
  import opened Wrappers
  import opened Text

  predicate Bracket(c: char) {
    c == '[' || c == ']'
  }

  /** The host part of `host:port`, or `[host]:port`, as Go's `net.SplitHostPort` has it. */
  function SplitHostPort(s: string): Option<string> {
    var i := LastIndex(s, ':');
    if i < 0 then None
    else if s[0] == '[' then
      var end := Index(s, ']');
      if end < 0 || end + 1 != i then None
      else if '[' in s[1..] || ']' in s[end + 1..] then None
      else Some(s[1..end])
    else if ':' in s[..i] || '[' in s || ']' in s then None
    else Some(s[..i])
  }

  /** A name and a port come apart at the colon. */
  lemma PlainSplits(host: string, port: string)
    requires Name(host) && Name(port)
    ensures SplitHostPort(host + ":" + port) == Some(host)
  {
    LastColon(host, port);
    PlainJoined(host, port);
    var s := host + ":" + port;
    assert s[..|host|] == host && s[0] in s;
  }

  /** So do a bracketed host and a port. */
  lemma BracketedSplits(host: string, port: string)
    requires Name(host) && Name(port)
    ensures SplitHostPort("[" + host + "]:" + port) == Some(host)
  {
    var t := "[" + host + "]:" + port;
    assert t == "[" + host + "]" + ":" + port;
    LastColon("[" + host + "]", port);
    FirstBracket(host, port);
    assert t[0] == '[' && t[1..|host| + 1] == host;
    BracketTails(host, port);
  }

  lemma BracketTails(host: string, port: string)
    requires Name(host) && Name(port)
    ensures var t := "[" + host + "]:" + port; '[' !in t[1..] && ']' !in t[|host| + 2..]
  {
    var t := "[" + host + "]:" + port;
    assert t[1..] == host + "]:" + port && t[|host| + 2..] == ":" + port;
    assert forall c :: c in host + "]:" + port ==> c in host || c == ']' || c == ':' || c in port;
    assert forall c :: c in ":" + port ==> c == ':' || c in port;
  }

  /** A name alone does not come apart, nor does a bracketed one. */
  lemma Unsplit(host: string)
    requires Name(host)
    ensures SplitHostPort(host).None? && SplitHostPort("[" + host + "]").None?
  {
    assert forall c :: c in "[" + host + "]" ==> c == '[' || c in host || c == ']';
  }

  lemma FirstBracket(host: string, port: string)
    requires Name(host)
    ensures Index("[" + host + "]:" + port, ']') == |host| + 1
  {
    var t := "[" + host + "]:" + port;
    assert t[|host| + 1] == ']';
    forall k | 0 <= k < |host| + 1 ensures t[k] != ']' {
      if k > 0 { assert t[k] == host[k - 1] && host[k - 1] in host; }
    }
  }

  function NormalizeHost(value: string): string {
    var s := TrimSpace(ToLower(value));
    if s == "" then ""
    else if s[0] == '[' && LastIndex(s, ']') >= 0 then Trim(s[..LastIndex(s, ']') + 1], Bracket)
    else if SplitHostPort(s).Some? then Trim(SplitHostPort(s).value, Bracket)
    else if LastIndex(s, ':') > -1 && Count(s, ':') == 1 then s[..LastIndex(s, ':')]
    else Trim(s, Bracket)
  }

  // ---------------------------------------------------------------- spellings of one host

  predicate Plain(s: string) {
    s != "" && forall c :: c in s ==> !Space(c) && !Bracket(c)
  }

  predicate Name(s: string) {
    Plain(s) && ':' !in s
  }

  /** Of IPv6 literals only this matters: they have at least two colons. */
  predicate Literal(s: string) {
    Plain(s) && Count(s, ':') >= 2
  }

  predicate Host(s: string) {
    Name(s) || Literal(s)
  }

  datatype Spelling = Spelling(before: string, host: string, bracketed: bool, port: Option<string>, after: string)

  function Core(sp: Spelling): string {
    (if sp.bracketed then "[" + sp.host + "]" else sp.host) + (if sp.port.Some? then ":" + sp.port.value else "")
  }

  function Spell(sp: Spelling): string {
    sp.before + Core(sp) + sp.after
  }

  predicate Proper(sp: Spelling) {
    && All(sp.before, Space) && All(sp.after, Space) && Host(sp.host)
    && (sp.port.Some? ==> sp.port.value == "" || Name(sp.port.value))
    && (sp.port.Some? && Literal(sp.host) ==> sp.bracketed)
  }

  lemma LowerPlain(s: string)
    ensures Plain(s) ==> Plain(ToLower(s))
    ensures ':' in s <==> ':' in ToLower(s)
  {
    var t := ToLower(s);
    if ':' in s { var i :| 0 <= i < |s| && s[i] == ':'; assert t[i] == ':'; }
    if ':' in t { var i :| 0 <= i < |t| && t[i] == ':'; assert s[i] == ':'; }
  }

  lemma {:induction false} LowerCount(s: string)
    ensures Count(ToLower(s), ':') == Count(s, ':')
  {
    if s != "" {
      var a, b := s[..1], s[1..];
      assert s == a + b;
      LowerCount(b);
      LowerAppend(a, b);
      CountAppend(a, b, ':');
      CountAppend(ToLower(a), ToLower(b), ':');
      assert ToLower(a) == [Lower(s[0])] && a == [s[0]];
    }
  }

  /** Lower-casing a spelling gives the spelling of the lower-cased host. */
  function Lowered(sp: Spelling): Spelling {
    Spelling(ToLower(sp.before), ToLower(sp.host), sp.bracketed,
             if sp.port.Some? then Some(ToLower(sp.port.value)) else None, ToLower(sp.after))
  }

  lemma LowerProper(sp: Spelling)
    requires Proper(sp)
    ensures Proper(Lowered(sp))
  {
    LowerPlain(sp.host);
    LowerCount(sp.host);
    if sp.port.Some? {
      LowerPlain(sp.port.value);
    }
  }

  lemma LowerSpell(sp: Spelling)
    ensures ToLower(Spell(sp)) == Spell(Lowered(sp))
  {
  }

  lemma TrimSpell(sp: Spelling)
    requires Proper(sp)
    ensures TrimSpace(Spell(sp)) == Core(sp)
  {
    var core := Core(sp);
    if sp.port.Some? && sp.port.value != "" {
      assert core[|core| - 1] == sp.port.value[|sp.port.value| - 1];
    }
    TrimPad(sp.before, core, sp.after, Space);
  }

  lemma BracketedCore(sp: Spelling)
    requires Proper(sp) && sp.bracketed
    ensures var s := Core(sp);
            s[0] == '[' && LastIndex(s, ']') == |sp.host| + 1 && Trim(s[..|sp.host| + 2], Bracket) == sp.host
  {
    var s := Core(sp);
    var close := |sp.host| + 1;
    assert s[close] == ']';
    forall k | close < k < |s| ensures s[k] != ']' {
      if k > close + 1 { assert s[k] == sp.port.value[k - close - 2] && s[k] in sp.port.value; }
    }
    assert s[..close + 1] == "[" + sp.host + "]";
    TrimPad("[", sp.host, "]", Bracket);
  }

  lemma {:induction false} LastColon(a: string, b: string)
    requires ':' !in b
    ensures LastIndex(a + ":" + b, ':') == |a|
    decreases |b|
  {
    var s := a + ":" + b;
    if b == "" {
      assert s[|s| - 1] == ':';
    } else {
      var c := b[|b| - 1];
      assert s[|s| - 1] == c && c in b;
      assert s[..|s| - 1] == a + ":" + b[..|b| - 1];
      LastColon(a, b[..|b| - 1]);
    }
  }

  lemma PlainJoined(a: string, b: string)
    requires Plain(a) && (b == "" || Plain(b))
    ensures '[' !in a + ":" + b && ']' !in a + ":" + b
  {
    assert forall c :: c in a + ":" + b ==> c in a || c == ':' || c in b;
  }

  lemma NameCore(sp: Spelling)
    requires Proper(sp) && !sp.bracketed && Name(sp.host) && sp.port.Some?
    ensures SplitHostPort(Core(sp)) == Some(sp.host) && Core(sp)[0] != '['
  {
    var a, b := sp.host, sp.port.value;
    var s := a + ":" + b;
    assert Core(sp) == s;
    LastColon(a, b);
    PlainJoined(a, b);
    assert s[..|a|] == a && s[0] in s;
  }

  /** Every case, padding, bracket and port spelling of a host has its lower-case form as key. */
  lemma SpellingsNormalise(sp: Spelling)
    requires Proper(sp)
    ensures NormalizeHost(Spell(sp)) == ToLower(sp.host)
  {
    var low := Lowered(sp);
    LowerSpell(sp);
    LowerProper(sp);
    TrimSpell(low);
    var s := Core(low);
    if low.bracketed {
      BracketedCore(low);
    } else {
      TrimFree(low.host, Bracket);
      CountFree(low.host, ':');
      if low.port.Some? {
        NameCore(low);
      } else {
        assert s == low.host;
        if Literal(low.host) { ManyColons(low.host); }
      }
    }
  }

  /** Two spellings have one key exactly when they spell one host up to case. */
  lemma SameKeyExactly(a: Spelling, b: Spelling)
    requires Proper(a) && Proper(b)
    ensures NormalizeHost(Spell(a)) == NormalizeHost(Spell(b)) <==> ToLower(a.host) == ToLower(b.host)
  {
    SpellingsNormalise(a);
    SpellingsNormalise(b);
  }

  // ---------------------------------------------------------------- where normalising is stable

  predicate SpaceOrBracket(c: char) {
    Space(c) || Bracket(c)
  }

  lemma OnlyShorter(s: string)
    requires s != "" && s == TrimSpace(ToLower(s))
    requires s[0] == '[' || s[|s| - 1] == ']' || s[|s| - 1] == '[' || s[0] == ']' || Count(s, ':') == 1
    ensures |NormalizeHost(s)| < |s|
  {
    TrimIs(s, Bracket);
    if s[0] == '[' && LastIndex(s, ']') >= 0 {
      var t := s[..LastIndex(s, ']') + 1];
      TrimIs(t, Bracket);
    } else if SplitHostPort(s).Some? {
      TrimIs(SplitHostPort(s).value, Bracket);
    } else if Count(s, ':') == 1 {
      CountFree(s, ':');
    }
  }

  /**
   Normalising leaves a key alone exactly when the key is lower-case, begins and ends with
   neither space nor bracket, and does not have exactly one colon.
   */
  lemma StableExactly(s: string)
    ensures NormalizeHost(s) == s <==> ToLower(s) == s && Bare(s, SpaceOrBracket) && Count(s, ':') != 1
  {
    var low := ToLower(s);
    TrimIs(low, Space);
    if s != "" {
      if NormalizeHost(s) == s {
        StableIsBare(s);
      } else if low == s && Bare(s, SpaceOrBracket) && Count(s, ':') != 1 {
        assert TrimSpace(low) == s;
        TrimIs(s, Bracket);
        CountFree(s, ':');
        if Count(s, ':') >= 2 { ManyColons(s); }
      }
    }
  }

  lemma ManyColons(s: string)
    requires s != "" && s[0] != '[' && Count(s, ':') >= 2
    ensures SplitHostPort(s).None?
  {
    var i := LastIndex(s, ':');
    CountFree(s, ':');
    if ':' !in s[..i] {
      assert s == s[..i] + [':'] + s[i + 1..];
      CountAppend(s[..i] + [':'], s[i + 1..], ':');
      CountAppend(s[..i], [':'], ':');
      CountFree(s[..i], ':');
      CountFree(s[i + 1..], ':');
    }
  }

  lemma NotLonger(s: string)
    ensures |NormalizeHost(s)| <= |TrimSpace(ToLower(s))| <= |s|
    ensures forall c :: c in NormalizeHost(s) ==> c in ToLower(s)
  {
    var t := TrimSpace(ToLower(s));
    TrimIs(ToLower(s), Space);
    TrimIs(t, Bracket);
    if t != "" && t[0] == '[' && LastIndex(t, ']') >= 0 {
      TrimIs(t[..LastIndex(t, ']') + 1], Bracket);
    } else if t != "" && SplitHostPort(t).Some? {
      TrimIs(SplitHostPort(t).value, Bracket);
    }
  }

  lemma StableIsBare(s: string)
    requires s != "" && NormalizeHost(s) == s
    ensures ToLower(s) == s && Bare(s, SpaceOrBracket) && Count(s, ':') != 1
  {
    NotLonger(s);
    var low := ToLower(s);
    forall i | 0 <= i < |s| ensures low[i] == s[i] {
      assert s[i] in s;
      var k :| 0 <= k < |low| && low[k] == s[i];
      assert Lower(s[k]) == s[i];
    }
    assert low == s;
    TrimIs(low, Space);
    if s[0] == '[' || s[|s| - 1] == ']' || s[|s| - 1] == '[' || s[0] == ']' || Count(s, ':') == 1 {
      OnlyShorter(s);
    }
  }

  /** Keys are therefore not stable in general: brackets around `a:b` take three rounds to settle. */
  lemma NormaliseTwiceDiffers()
    ensures NormalizeHost("[a:b]") == "a:b" && NormalizeHost("a:b") == "a"
  {
    var s := "[a:b]";
    assert ToLower(s) == s;
    TrimIs(s, Space);
    assert s[..5] == "[" + "a:b" + "]";
    TrimPad("[", "a:b", "]", Bracket);
    var t := "a:b";
    assert ToLower(t) == t;
    TrimIs(t, Space);
    assert t[..1] == "a";
    assert SplitHostPort(t) == Some("a");
    TrimIs("a", Bracket);
  }

  // ---------------------------------------------------------------- where normalising twice is normalising once

  /** Judged on the trimmed lower-case input, branch by branch: what normalising leaves is final. */
  predicate Settles(t: string) {
    if t == "" then true
    else if t[0] == '[' && LastIndex(t, ']') >= 0 then
      var b := t[..LastIndex(t, ']') + 1];
      Count(b, ':') != 1 && Bare(Trim(b, Bracket), Space)
    else if Count(t, ':') == 1 then Bare(t[..LastIndex(t, ':')], SpaceOrBracket)
    else Bare(Trim(t, Bracket), Space)
  }

  lemma {:induction false} TrimLeftCount(s: string)
    ensures Count(TrimLeft(s, Bracket), ':') == Count(s, ':')
    decreases |s|
  {
    if s != "" && Bracket(s[0]) {
      TrimLeftCount(s[1..]);
      assert s == s[..1] + s[1..];
      CountAppend(s[..1], s[1..], ':');
    }
  }

  lemma {:induction false} TrimRightCount(s: string)
    ensures Count(TrimRight(s, Bracket), ':') == Count(s, ':')
    decreases |s|
  {
    if s != "" && Bracket(s[|s| - 1]) {
      TrimRightCount(s[..|s| - 1]);
      assert s == s[..|s| - 1] + s[|s| - 1..];
      CountAppend(s[..|s| - 1], s[|s| - 1..], ':');
    }
  }

  lemma TrimCount(s: string)
    ensures Count(Trim(s, Bracket), ':') == Count(s, ':')
  {
    TrimLeftCount(s);
    TrimRightCount(TrimLeft(s, Bracket));
  }

  lemma BareBoth(s: string)
    requires Bare(s, Bracket)
    ensures Bare(s, SpaceOrBracket) <==> Bare(s, Space)
  {
  }

  /** What is left of a single colon is the key, whether or not the port could be split off. */
  lemma OneColonKey(t: string)
    requires t != "" && !(t[0] == '[' && LastIndex(t, ']') >= 0) && Count(t, ':') == 1
    requires TrimSpace(ToLower(t)) == t
    ensures NormalizeHost(t) == t[..LastIndex(t, ':')] && Count(t[..LastIndex(t, ':')], ':') == 0
  {
    var i := LastIndex(t, ':');
    CountFree(t, ':');
    assert t == t[..i] + [':'] + t[i + 1..];
    CountAppend(t[..i] + [':'], t[i + 1..], ':');
    CountAppend(t[..i], [':'], ':');
    if SplitHostPort(t).Some? && t[0] != '[' {
      TrimFree(t[..i], Bracket);
    }
  }

  /** The key is lower-case, and its colons and ends are those of the branch that made it. */
  lemma SettledKey(t: string)
    requires TrimSpace(ToLower(t)) == t && ToLower(NormalizeHost(t)) == NormalizeHost(t)
    ensures NormalizeHost(NormalizeHost(t)) == NormalizeHost(t) <==> Settles(t)
  {
    var key := NormalizeHost(t);
    StableExactly(key);
    if t != "" {
      if t[0] == '[' && LastIndex(t, ']') >= 0 {
        var b := t[..LastIndex(t, ']') + 1];
        TrimCount(b);
        TrimIs(b, Bracket);
        BareBoth(key);
      } else if Count(t, ':') == 1 {
        OneColonKey(t);
      } else {
        CountFree(t, ':');
        if t[0] != '[' && Count(t, ':') >= 2 { ManyColons(t); }
        TrimCount(t);
        TrimIs(t, Bracket);
        BareBoth(key);
      }
    }
  }

  lemma {:induction false} LowerIsLower(r: string, s: string)
    requires forall c :: c in r ==> c in ToLower(s)
    ensures ToLower(r) == r
  {
    forall i | 0 <= i < |r| ensures Lower(r[i]) == r[i] {
      assert r[i] in r;
      var k :| 0 <= k < |s| && ToLower(s)[k] == r[i];
      assert Lower(s[k]) == r[i];
    }
  }

  /** Normalising a second time changes nothing exactly when the branch of the input settles it. */
  lemma IdempotentExactly(v: string)
    ensures NormalizeHost(NormalizeHost(v)) == NormalizeHost(v) <==> Settles(TrimSpace(ToLower(v)))
  {
    var t := TrimSpace(ToLower(v));
    TrimIs(ToLower(v), Space);
    TrimIs(t, Space);
    LowerIsLower(t, v);
    assert NormalizeHost(t) == NormalizeHost(v);
    NotLonger(v);
    LowerIsLower(NormalizeHost(v), v);
    SettledKey(t);
  }

  // ---------------------------------------------------------------- dispatch

  datatype Site = Site(wardId: string, domain: string, servesTLS: bool)

  datatype MultiServer = MultiServer(entries: map<string, Site>, servesTLS: bool)

  datatype Error = NoServers | NilServer | NoDomain(wardId: string) | Duplicate(key: string) | MixedTLS

  function Lookup(m: MultiServer, key: string): Option<Site> {
    if key in m.entries then Some(m.entries[key]) else None
  }

  /** The request's host decides; failing that, the name the TLS handshake asked for. */
  function Dispatch(m: MultiServer, host: string, serverName: Option<string>): Option<Site> {
    var byHost := Lookup(m, NormalizeHost(host));
    if byHost.Some? then byHost
    else if serverName.Some? then Lookup(m, NormalizeHost(serverName.value))
    else None
  }

  /** The site at each position has a key, and no two have the same. */
  predicate KeysDiffer(ss: seq<Option<Site>>) {
    forall i, j :: 0 <= i < j < |ss| && ss[i].Some? && ss[j].Some? ==> Key(ss[i].value) != Key(ss[j].value)
  }

  function Key(s: Site): string {
    NormalizeHost(s.domain)
  }

  predicate KeyOk(s: Option<Site>) {
    s.Some? && Key(s.value) != ""
  }

  predicate AllKeyed(ss: seq<Option<Site>>) {
    forall i :: 0 <= i < |ss| ==> KeyOk(ss[i])
  }

  predicate Finds(entries: map<string, Site>, s: Option<Site>) {
    s.Some? && Key(s.value) in entries && entries[Key(s.value)] == s.value
  }

  /** `entries` has each site under its key, and nothing else. */
  predicate Indexes(entries: map<string, Site>, ss: seq<Option<Site>>) {
    && (forall i :: 0 <= i < |ss| ==> Finds(entries, ss[i]))
    && (forall k :: k in entries ==> Some(entries[k]) in ss && Key(entries[k]) == k)
  }

  predicate Acceptable(ss: seq<Option<Site>>) {
    |ss| > 0 && AllKeyed(ss) && KeysDiffer(ss)
    && forall i :: 0 <= i < |ss| ==> ss[i].value.servesTLS == ss[0].value.servesTLS
  }

  lemma IndexMore(entries: map<string, Site>, ss: seq<Option<Site>>, s: Site)
    requires Indexes(entries, ss) && AllKeyed(ss) && KeysDiffer(ss) && Key(s) != ""
    ensures Key(s) in entries ==> !KeysDiffer(ss + [Some(s)])
    ensures Key(s) !in entries ==>
              Indexes(entries[Key(s) := s], ss + [Some(s)]) && AllKeyed(ss + [Some(s)]) && KeysDiffer(ss + [Some(s)])
  {
    var tt := ss + [Some(s)];
    assert tt[|ss|] == Some(s);
    if Key(s) in entries {
      var j :| 0 <= j < |ss| && ss[j] == Some(entries[Key(s)]);
      assert tt[j] == ss[j];
    } else {
      var more := entries[Key(s) := s];
      forall i | 0 <= i < |ss| ensures Key(ss[i].value) != Key(s) && Finds(more, tt[i]) {
        assert Finds(entries, ss[i]);
      }
      forall k | k in more ensures Some(more[k]) in tt && Key(more[k]) == k {
        if k != Key(s) {
          assert Some(entries[k]) in ss;
        }
      }
    }
  }

  method NewMultiServer(ss: seq<Option<Site>>) returns (r: Result<MultiServer, Error>)
    ensures r.Ok? <==> Acceptable(ss)
    ensures r.Ok? ==> Indexes(r.value.entries, ss) && r.value.servesTLS == ss[0].value.servesTLS
    ensures r == Err(NoServers) <==> |ss| == 0
    ensures r.Ok? ==> ss != [] && forall i :: 0 <= i < |ss| ==> ss[i].Some? && ss[i].value.servesTLS == r.value.servesTLS
    ensures r == Err(MixedTLS) ==> exists i, j :: 0 <= i < |ss| && 0 <= j < |ss| && ss[i].Some? && ss[j].Some? && ss[i].value.servesTLS != ss[j].value.servesTLS
    ensures r.Err? ==>
              match r.error
              case NoServers => ss == []
              case MixedTLS => ss != [] && AllKeyed(ss) && KeysDiffer(ss)
              case e => exists i: nat :: FirstFault(ss, i, e)
  {
    if |ss| == 0 {
      return Err(NoServers);
    }
    var entries := FillEntries(ss);
    if entries.Err? {
      return Err(entries.error);
    }
    assert Finds(entries.value, ss[0]);
    var servesTLS := ss[0].value.servesTLS;
    var i := 0;
    while i < |ss|
      invariant i <= |ss| && forall k :: 0 <= k < i ==> ss[k].Some? && ss[k].value.servesTLS == servesTLS
    {
      assert Finds(entries.value, ss[i]);
      if ss[i].value.servesTLS != servesTLS {
        return Err(MixedTLS);
      }
      i := i + 1;
    }
    return Ok(MultiServer(entries.value, servesTLS));
  }

  /** The error for the site at `i`, when all before it could be entered. */
  predicate FirstFault(ss: seq<Option<Site>>, i: nat, e: Error) {
    && i < |ss| && AllKeyed(ss[..i]) && KeysDiffer(ss[..i])
    && match e
       case NilServer => ss[i].None?
       case NoDomain(wardId) => ss[i].Some? && Key(ss[i].value) == "" && ss[i].value.wardId == wardId
       case Duplicate(key) => ss[i].Some? && Key(ss[i].value) == key && exists j :: 0 <= j < i && HasKey(ss[j], key)
       case _ => false
  }

  predicate HasKey(s: Option<Site>, key: string) {
    s.Some? && Key(s.value) == key
  }

  predicate Filled(entries: map<string, Site>, ss: seq<Option<Site>>) {
    Indexes(entries, ss) && AllKeyed(ss) && KeysDiffer(ss)
  }

  lemma EarlierKey(entries: map<string, Site>, ss: seq<Option<Site>>, key: string)
    requires Indexes(entries, ss) && key in entries
    ensures exists j :: 0 <= j < |ss| && HasKey(ss[j], key)
  {
    var j :| 0 <= j < |ss| && ss[j] == Some(entries[key]);
    assert HasKey(ss[j], key);
  }

  /** A key that is taken is a duplicate. */
  lemma FillClash(entries: map<string, Site>, ss: seq<Option<Site>>, i: nat, s: Site)
    requires i < |ss| && ss[i] == Some(s) && Filled(entries, ss[..i]) && Key(s) != "" && Key(s) in entries
    ensures !KeysDiffer(ss) && FirstFault(ss, i, Duplicate(Key(s)))
  {
    EarlierKey(entries, ss[..i], Key(s));
    var j :| 0 <= j < i && HasKey(ss[..i][j], Key(s));
    assert HasKey(ss[j], Key(s));
  }

  lemma OneMore<T>(ss: seq<T>, i: nat)
    requires i < |ss|
    ensures ss[..i + 1] == ss[..i] + [ss[i]]
  {
  }

  /** A key that is free is entered. */
  lemma FillMore(entries: map<string, Site>, ss: seq<Option<Site>>, i: nat, s: Site)
    requires i < |ss| && ss[i] == Some(s) && Filled(entries, ss[..i]) && Key(s) != "" && Key(s) !in entries
    ensures Filled(entries[Key(s) := s], ss[..i + 1])
  {
    OneMore(ss, i);
    IndexMore(entries, ss[..i], s);
  }

  method FillEntries(ss: seq<Option<Site>>) returns (r: Result<map<string, Site>, Error>)
    ensures r.Ok? <==> AllKeyed(ss) && KeysDiffer(ss)
    ensures r.Ok? ==> Filled(r.value, ss)
    ensures r.Err? ==> exists i: nat :: FirstFault(ss, i, r.error)
  {
    var entries: map<string, Site> := map[];
    var i := 0;
    while i < |ss|
      invariant i <= |ss| && Filled(entries, ss[..i])
    {
      var fault, more := Enter(entries, ss, i);
      if fault.Some? {
        return Err(fault.value);
      }
      entries := more;
      i := i + 1;
    }
    assert ss[..i] == ss;
    return Ok(entries);
  }

  /** One turn of the filling loop. */
  method Enter(entries: map<string, Site>, ss: seq<Option<Site>>, i: nat) returns (fault: Option<Error>, more: map<string, Site>)
    requires i < |ss| && Filled(entries, ss[..i])
    ensures fault.Some? ==> FirstFault(ss, i, fault.value) && !(AllKeyed(ss) && KeysDiffer(ss))
    ensures fault.None? ==> Filled(more, ss[..i + 1])
  {
    more := entries;
    if ss[i].None? {
      assert !KeyOk(ss[i]);
      return Some(NilServer), more;
    }
    var s := ss[i].value;
    var domain := NormalizeHost(s.domain);
    assert domain == Key(s);
    if domain == "" {
      assert !KeyOk(ss[i]);
      return Some(NoDomain(s.wardId)), more;
    }
    if domain in entries {
      FillClash(entries, ss, i, s);
      return Some(Duplicate(domain)), more;
    }
    FillMore(entries, ss, i, s);
    more := entries[domain := s];
    return None, more;
  }

  lemma DomainIsKey(domain: string)
    requires Host(domain)
    ensures NormalizeHost(domain) == ToLower(domain)
  {
    var own := Spelling("", domain, false, None, "");
    assert Spell(own) == domain;
    SpellingsNormalise(own);
  }

  /** However a request spells its host, it reaches the site whose domain is that host up to case. */
  lemma DispatchFinds(m: MultiServer, ss: seq<Option<Site>>, sp: Spelling, i: nat, sni: Option<string>)
    requires Indexes(m.entries, ss) && i < |ss| && ss[i].Some? && Host(ss[i].value.domain) && Proper(sp)
    requires ToLower(ss[i].value.domain) == ToLower(sp.host)
    ensures Dispatch(m, Spell(sp), sni) == Some(ss[i].value)
  {
    SpellingsNormalise(sp);
    DomainIsKey(ss[i].value.domain);
    assert Finds(m.entries, ss[i]);
  }

  /** Without a handshake name it reaches nobody else: the site found has the host as its domain. */
  lemma DispatchOnlyOwn(m: MultiServer, ss: seq<Option<Site>>, sp: Spelling)
    requires Indexes(m.entries, ss) && Proper(sp)
    requires forall k :: 0 <= k < |ss| && ss[k].Some? ==> Host(ss[k].value.domain)
    ensures var found := Dispatch(m, Spell(sp), None);
            found.Some? ==> found in ss && ToLower(found.value.domain) == ToLower(sp.host)
    ensures Dispatch(m, Spell(sp), None).None? ==>
              forall name :: Dispatch(m, Spell(sp), Some(name)) == Lookup(m, NormalizeHost(name))
  {
    SpellingsNormalise(sp);
    var found := Dispatch(m, Spell(sp), None);
    if found.Some? {
      assert found in ss;
      DomainIsKey(found.value.domain);
    }
  }
}
