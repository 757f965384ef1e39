/** Which wards may share one listener, and why the dispatcher then accepts them. */
module ServeGroup {
  import opened Wrappers
  import opened Text
  import opened Records
  import opened RuntimeObject
  import Hosts
  import PendingConfig

  function Mode(i: IngressSpec): string {
    OrString(i.mode, STANDALONE)
  }

  function ServesTLS(i: IngressSpec): bool {
    Mode(i) != BEHIND_PROXY
  }

  function Port(i: IngressSpec): int {
    if i.listenPort > 0 then i.listenPort else 443
  }

  function ListenHost(i: IngressSpec): string {
    OrString(TrimSpace(i.listenHost), PendingConfig.ANY_HOST)
  }

  function Family(i: IngressSpec): string {
    OrString(i.family, "ipv4")
  }

  function PublicPort(i: IngressSpec): int {
    if i.publicPort > 0 then i.publicPort else if Mode(i) == STANDALONE then Port(i) else 443
  }

  /** An ingress with its defaults written out. */
  function Effective(i: IngressSpec): IngressSpec {
    IngressSpec(Mode(i), ServesTLS(i), Port(i), ListenHost(i), Family(i), PublicPort(i), i.trustedProxyCIDRs)
  }

  lemma EffectiveTwice(i: IngressSpec)
    ensures Effective(Effective(i)) == Effective(i)
  {
    TrimIs(i.listenHost, Space);
    TrimIs(TrimSpace(i.listenHost), Space);
    TrimFree(PendingConfig.ANY_HOST, Space);
  }

  function Normalised(r: Runtime): Runtime {
    r.(ingress := Effective(r.ingress))
  }

  datatype GroupError =
    | NoRuntime | NilRuntime | NotCommitted | NoDomain | NoSecret
    | OtherListener | OtherMode | BadIngress(e: PendingConfig.Error) | Duplicate

  predicate SameGroup(a: IngressSpec, b: IngressSpec) {
    ListenHost(a) == ListenHost(b) && Port(a) == Port(b) && Family(a) == Family(b)
  }

  predicate SameMode(a: IngressSpec, b: IngressSpec) {
    Mode(a) == Mode(b) && ServesTLS(a) == ServesTLS(b)
  }

  type Loopback = string -> bool

  function IngressFault(i: IngressSpec, loopback: Loopback): Option<PendingConfig.Error> {
    PendingConfig.IngressError(Mode(i), false, PublicPort(i), Port(i), loopback(ListenHost(i)), i.trustedProxyCIDRs)
  }

  function DomainKey(d: string): string {
    ToLower(TrimSpace(d))
  }

  predicate MemberOk(first: Runtime, r: Runtime, loopback: Loopback) {
    && r.wardId != "" && TrimSpace(r.domain.domain) != "" && r.jwtSecret != ""
    && SameGroup(first.ingress, r.ingress) && SameMode(first.ingress, r.ingress)
    && IngressFault(r.ingress, loopback).None?
  }

  /** What may share a listener: like members with different domains. */
  predicate Shareable(rs: seq<Runtime>, loopback: Loopback) {
    && |rs| > 0
    && (forall i :: 0 <= i < |rs| ==> MemberOk(rs[0], rs[i], loopback))
    && (forall i, j :: 0 <= i < j < |rs| ==> DomainKey(rs[i].domain.domain) != DomainKey(rs[j].domain.domain))
  }

  /** Writing the defaults out changes no answer about a runtime. */
  lemma NormalisedAlike(first: Runtime, r: Runtime, loopback: Loopback)
    ensures MemberFault(Normalised(first), r, loopback) == MemberFault(first, r, loopback) == MemberFault(first, Normalised(r), loopback)
    ensures Normalised(Normalised(r)) == Normalised(r)
  {
    EffectiveTwice(first.ingress);
    EffectiveTwice(r.ingress);
  }

  /** Who may share the first ward's listener, in terms of what is stored. */
  lemma MemberExactly(first: Runtime, r: Runtime, loopback: Loopback)
    ensures MemberOk(first, r, loopback) <==>
              && r.wardId != "" && r.jwtSecret != "" && (exists c :: c in r.domain.domain && !Space(c))
              && AddressOf(first.ingress) == AddressOf(r.ingress)
              && (r.ingress.mode == "behind_proxy" <==> first.ingress.mode == "behind_proxy")
              && (r.ingress.mode in {"", "standalone", "behind_proxy"} && first.ingress.mode in {"", "standalone", "behind_proxy"})
              && (if r.ingress.mode == "behind_proxy"
                  then r.ingress.publicPort <= 65535 && (loopback(AddressOf(r.ingress).0) || r.ingress.trustedProxyCIDRs != [])
                  else AddressOf(r.ingress).1 <= 65535 && (r.ingress.publicPort <= 0 || r.ingress.publicPort == AddressOf(r.ingress).1))
  {
    NotBlank(r.domain.domain);
    RunsExactly(r.ingress, loopback);
    assert SameGroup(first.ingress, r.ingress) <==> AddressOf(first.ingress) == AddressOf(r.ingress);
  }

  /** Which ingress can be served. */
  lemma RunsExactly(i: IngressSpec, loopback: Loopback)
    ensures IngressFault(i, loopback).None? <==>
              && i.mode in {"", "standalone", "behind_proxy"}
              && (if i.mode == "behind_proxy"
                  then i.publicPort <= 65535 && (loopback(AddressOf(i).0) || i.trustedProxyCIDRs != [])
                  else AddressOf(i).1 <= 65535 && (i.publicPort <= 0 || i.publicPort == AddressOf(i).1))
  {
  }

  /** Host, port and family a listener has, with the defaults of an empty setup. */
  function AddressOf(i: IngressSpec): (string, int, string) {
    (if TrimSpace(i.listenHost) == "" then "0.0.0.0" else TrimSpace(i.listenHost),
     if i.listenPort <= 0 then 443 else i.listenPort,
     if i.family == "" then "ipv4" else i.family)
  }

  lemma NotBlank(s: string)
    ensures TrimSpace(s) != "" <==> exists c :: c in s && !Space(c)
  {
    TrimIs(s, Space);
    if TrimSpace(s) != "" {
      var c := TrimSpace(s)[0];
      assert c in TrimSpace(s) && c in s;
    } else {
      TrimmedAway(s, Space);
    }
  }

  /** The defaults written out before serving. */
  lemma EffectiveExactly(i: IngressSpec)
    ensures var e := Effective(i);
            && (e.listenHost, e.listenPort, e.family) == AddressOf(i)
            && e.mode == (if i.mode == "" then "standalone" else i.mode) && (e.serveTLS <==> i.mode != "behind_proxy")
            && (i.publicPort > 0 ==> e.publicPort == i.publicPort)
            && (i.publicPort <= 0 ==> e.publicPort == if e.mode == "standalone" then e.listenPort else 443)
            && e.trustedProxyCIDRs == i.trustedProxyCIDRs
  {
  }

  /** The answer for one member, in the order of the checks. */
  function MemberFault(first: Runtime, r: Runtime, loopback: Loopback): (e: Option<GroupError>)
    ensures e.None? <==> MemberOk(first, r, loopback)
  {
    if r.wardId == "" then Some(NotCommitted)
    else if TrimSpace(r.domain.domain) == "" then Some(NoDomain)
    else if r.jwtSecret == "" then Some(NoSecret)
    else if !SameGroup(first.ingress, r.ingress) then Some(OtherListener)
    else if !SameMode(first.ingress, r.ingress) then Some(OtherMode)
    else if IngressFault(r.ingress, loopback).Some? then Some(BadIngress(IngressFault(r.ingress, loopback).value))
    else None
  }

  /** A refusal names something that is wrong. */
  lemma FaultsHold(first: Runtime, r: Runtime, loopback: Loopback)
    requires MemberFault(first, r, loopback).Some?
    ensures match MemberFault(first, r, loopback).value
            case NotCommitted => r.wardId == ""
            case NoDomain => forall c :: c in r.domain.domain ==> Space(c)
            case NoSecret => r.jwtSecret == ""
            case OtherListener => AddressOf(first.ingress) != AddressOf(r.ingress)
            case OtherMode => Effective(first.ingress).mode != Effective(r.ingress).mode
            case BadIngress(_) => AddressOf(first.ingress) == AddressOf(r.ingress) && !MemberOk(first, r, loopback)
            case _ => false
  {
    NotBlank(r.domain.domain);
  }

  ghost function Values(rs: seq<LocalWardRuntime?>): (v: seq<Runtime>)
    reads rs
    ensures |v| == |rs|
    ensures forall i :: 0 <= i < |rs| && rs[i] != null ==> v[i] == rs[i].it
  {
    seq(|rs|, i requires 0 <= i < |rs| reads rs => if rs[i] != null then rs[i].it else EMPTY_RUNTIME)
  }

  /** A runtime as it was, or with its defaults written out. */
  predicate Either(now: Runtime, was: Runtime) {
    now == was || now == Normalised(was)
  }

  method CheckMember(first: LocalWardRuntime, r: LocalWardRuntime, loopback: Loopback, ghost f: Runtime, ghost w: Runtime)
    returns (e: Option<GroupError>)
    requires Either(first.it, f) && Either(r.it, w)
    modifies r
    ensures e == MemberFault(f, w, loopback)
    ensures if e.None? then r.it == Normalised(w) else Either(r.it, w)
  {
    NormalisedAlike(f, w, loopback);
    NormalisedAlike(f, r.it, loopback);
    if r.it.wardId == "" {
      return Some(NotCommitted);
    }
    if TrimSpace(r.it.domain.domain) == "" {
      return Some(NoDomain);
    }
    if r.it.jwtSecret == "" {
      return Some(NoSecret);
    }
    if !SameGroup(first.it.ingress, r.it.ingress) {
      return Some(OtherListener);
    }
    if !SameMode(first.it.ingress, r.it.ingress) {
      return Some(OtherMode);
    }
    EffectiveTwice(r.it.ingress);
    r.it := r.it.(ingress := Effective(r.it.ingress));
    var fault := IngressFault(r.it.ingress, loopback);
    e := if fault.Some? then Some(BadIngress(fault.value)) else None;
  }

  /** A runtime that occurs twice has one value. */
  ghost predicate OneEach(rs: seq<LocalWardRuntime?>, was: seq<Runtime>)
    requires |rs| == |was|
  {
    forall i, j :: 0 <= i < |rs| && 0 <= j < |rs| && rs[i] == rs[j] && rs[i] != null ==> was[i] == was[j]
  }

  /** The first `n` runtimes are like members, their defaults written out. */
  ghost predicate Checked(rs: seq<LocalWardRuntime?>, was: seq<Runtime>, n: nat, loopback: Loopback)
    requires n <= |rs| == |was|
    reads rs
  {
    && OneEach(rs, was)
    && (forall k :: 0 <= k < |rs| && rs[k] != null ==> Either(rs[k].it, was[k]))
    && (forall k :: 0 <= k < n ==> rs[k] != null && rs[k].it == Normalised(was[k]) && MemberOk(was[0], was[k], loopback))
  }

  /** `domains` has the keys of the first `n` runtimes, which differ. */
  predicate Keyed(domains: map<string, string>, was: seq<Runtime>, n: nat)
    requires n <= |was|
  {
    && (forall k :: 0 <= k < n ==> DomainKey(was[k].domain.domain) in domains)
    && (forall d :: d in domains ==> domains[d] != "" && exists k :: 0 <= k < n && DomainKey(was[k].domain.domain) == d)
    && (forall i, j :: 0 <= i < j < n ==> DomainKey(was[i].domain.domain) != DomainKey(was[j].domain.domain))
  }

  lemma KeyedMore(domains: map<string, string>, was: seq<Runtime>, n: nat, wardId: string)
    requires n < |was| && Keyed(domains, was, n) && wardId != ""
    ensures var key := DomainKey(was[n].domain.domain);
            if key in domains then exists i :: 0 <= i < n && DomainKey(was[i].domain.domain) == key
            else Keyed(domains[key := wardId], was, n + 1)
  {
    var key := DomainKey(was[n].domain.domain);
    var more := domains[key := wardId];
    if key in domains {
      var i :| 0 <= i < n && DomainKey(was[i].domain.domain) == key;
    } else {
      forall d | d in more ensures more[d] != "" && exists k :: 0 <= k < n + 1 && DomainKey(was[k].domain.domain) == d {
        if d == key {
          assert DomainKey(was[n].domain.domain) == d;
        } else {
          var k :| 0 <= k < n && DomainKey(was[k].domain.domain) == d;
        }
      }
      forall i | 0 <= i < n ensures DomainKey(was[i].domain.domain) != key {
        assert DomainKey(was[i].domain.domain) in domains;
      }
    }
  }

  /** The error for the runtime at `i`, when all before it were admitted. */
  ghost predicate FirstFault(rs: seq<LocalWardRuntime?>, was: seq<Runtime>, i: nat, e: GroupError, loopback: Loopback)
    requires |rs| == |was|
  {
    && i < |rs|
    && (forall k :: 0 <= k < i ==> rs[k] != null && MemberOk(was[0], was[k], loopback))
    && (if rs[i] == null then e == NilRuntime
        else if MemberOk(was[0], was[i], loopback)
        then e == Duplicate && exists k :: 0 <= k < i && DomainKey(was[k].domain.domain) == DomainKey(was[i].domain.domain)
        else MemberFault(was[0], was[i], loopback) == Some(e))
  }

  ghost predicate Nonnull(rs: seq<LocalWardRuntime?>) {
    forall i :: 0 <= i < |rs| ==> rs[i] != null
  }

  /** One turn of the loop. */
  method AdmitMember(rs: seq<LocalWardRuntime?>, i: nat, domains: map<string, string>, loopback: Loopback, ghost was: seq<Runtime>)
    returns (e: Option<GroupError>, more: map<string, string>)
    requires i < |rs| == |was| && Checked(rs, was, i, loopback) && Keyed(domains, was, i)
    modifies rs
    ensures e.None? ==> Checked(rs, was, i + 1, loopback) && Keyed(more, was, i + 1)
    ensures e.Some? ==> Checked(rs, was, 0, loopback) && !(Nonnull(rs) && Shareable(was, loopback))
    ensures e.Some? ==> FirstFault(rs, was, i, e.value, loopback)
  {
    more := domains;
    if rs[i] == null {
      return Some(NilRuntime), more;
    }
    var first, r := rs[0], rs[i];
    ghost var before := Values(rs);
    e := CheckMember(first, r, loopback, was[0], was[i]);
    StillChecked(rs, before, was, i, r, loopback);
    if e.Some? {
      return;
    }
    var key := DomainKey(r.it.domain.domain);
    KeyedMore(domains, was, i, r.it.wardId);
    if key in domains && domains[key] != "" {
      return Some(Duplicate), more;
    }
    more := domains[key := r.it.wardId];
  }

  /** Checking one runtime leaves the others checked, even when it occurs among them. */
  lemma StillChecked(rs: seq<LocalWardRuntime?>, before: seq<Runtime>, was: seq<Runtime>, n: nat, r: LocalWardRuntime, loopback: Loopback)
    requires n < |rs| == |was| == |before| && rs[n] == r && OneEach(rs, was)
    requires forall k :: 0 <= k < |rs| && rs[k] != null ==> Either(before[k], was[k])
    requires forall k :: 0 <= k < n ==> rs[k] != null && before[k] == Normalised(was[k]) && MemberOk(was[0], was[k], loopback)
    requires forall k :: 0 <= k < |rs| && rs[k] != null && rs[k] != r ==> rs[k].it == before[k]
    requires if MemberOk(was[0], was[n], loopback) then r.it == Normalised(was[n]) else Either(r.it, was[n])
    ensures Checked(rs, was, 0, loopback)
    ensures MemberOk(was[0], was[n], loopback) ==> Checked(rs, was, n + 1, loopback)
  {
  }

  /** On the way the ingress defaults of the runtimes seen are written out. */
  method ValidateSharedServeRuntimes(rs: seq<LocalWardRuntime?>, loopback: Loopback) returns (e: Option<GroupError>)
    modifies rs
    ensures e.None? <==> Nonnull(rs) && Shareable(old(Values(rs)), loopback)
    ensures e.Some? ==> (rs == [] && e.value == NoRuntime) || exists i: nat :: FirstFault(rs, old(Values(rs)), i, e.value, loopback)
    ensures e.None? ==> forall i :: 0 <= i < |rs| ==> rs[i].it == Normalised(old(Values(rs))[i])
    ensures forall i :: 0 <= i < |rs| && rs[i] != null ==> Either(rs[i].it, old(Values(rs))[i])
  {
    if |rs| == 0 {
      return Some(NoRuntime);
    }
    ghost var was := Values(rs);
    var domains: map<string, string> := map[];
    var i := 0;
    while i < |rs|
      invariant i <= |rs|
      invariant Checked(rs, was, i, loopback) && Keyed(domains, was, i)
    {
      e, domains := AdmitMember(rs, i, domains, loopback, was);
      if e.Some? {
        return;
      }
      i := i + 1;
    }
    CheckedShareable(rs, was, domains, loopback);
    return None;
  }

  lemma CheckedShareable(rs: seq<LocalWardRuntime?>, was: seq<Runtime>, domains: map<string, string>, loopback: Loopback)
    requires |rs| == |was| > 0 && Checked(rs, was, |rs|, loopback) && Keyed(domains, was, |rs|)
    ensures Nonnull(rs) && Shareable(was, loopback)
    ensures forall i :: 0 <= i < |rs| ==> rs[i].it == Normalised(was[i])
  {
  }

  // ---------------------------------------------------------------- the dispatcher accepts the group

  function SiteOf(r: Runtime): Hosts.Site {
    Hosts.Site(r.wardId, r.domain.domain, ServesTLS(r.ingress))
  }

  function Sites(rs: seq<Runtime>): seq<Option<Hosts.Site>> {
    seq(|rs|, i requires 0 <= i < |rs| => Some(SiteOf(rs[i])))
  }

  lemma HostKey(d: string)
    requires Hosts.Host(d)
    ensures DomainKey(d) == Hosts.NormalizeHost(d) != ""
  {
    Hosts.DomainIsKey(d);
    assert Free(d, Space) by {
      forall i | 0 <= i < |d| ensures !Space(d[i]) { assert d[i] in d; }
    }
    TrimFree(d, Space);
  }

  /** Every domain has a key for the dispatcher, and no two have the same. */
  predicate KeysApart(rs: seq<Runtime>) {
    && (forall i :: 0 <= i < |rs| ==> Hosts.NormalizeHost(rs[i].domain.domain) != "")
    && (forall i, j :: 0 <= i < j < |rs| ==> Hosts.NormalizeHost(rs[i].domain.domain) != Hosts.NormalizeHost(rs[j].domain.domain))
  }

  lemma SitesKeyed(rs: seq<Runtime>)
    ensures Hosts.AllKeyed(Sites(rs)) && Hosts.KeysDiffer(Sites(rs)) <==> KeysApart(rs)
  {
    var ss := Sites(rs);
    forall i | 0 <= i < |rs| ensures Hosts.KeyOk(ss[i]) <==> Hosts.NormalizeHost(rs[i].domain.domain) != "" {
      assert ss[i].value == SiteOf(rs[i]);
    }
    forall i | 0 <= i < |rs| ensures Hosts.Key(ss[i].value) == Hosts.NormalizeHost(rs[i].domain.domain) {
      assert ss[i].value == SiteOf(rs[i]);
    }
  }

  /**
   Of wards that may share a listener the dispatcher refuses exactly those whose domains
   lack a key or share one; its test of the TLS modes refuses none of them.
   */
  lemma AcceptedExactly(rs: seq<Runtime>, loopback: Loopback)
    requires Shareable(rs, loopback)
    ensures Hosts.Acceptable(Sites(rs)) <==> KeysApart(rs)
  {
    SitesKeyed(rs);
    forall i | 0 <= i < |rs| ensures Sites(rs)[i].value.servesTLS == Sites(rs)[0].value.servesTLS {
      assert MemberOk(rs[0], rs[i], loopback);
    }
  }

  /** Wards that may share a listener, with proper hosts for domains, are accepted by the dispatcher. */
  lemma ShareableAccepted(rs: seq<Runtime>, loopback: Loopback)
    requires Shareable(rs, loopback) && forall i :: 0 <= i < |rs| ==> Hosts.Host(rs[i].domain.domain)
    ensures Hosts.Acceptable(Sites(rs))
  {
    forall i | 0 <= i < |rs|
      ensures Hosts.NormalizeHost(rs[i].domain.domain) == DomainKey(rs[i].domain.domain) != ""
    {
      HostKey(rs[i].domain.domain);
    }
    AcceptedExactly(rs, loopback);
  }

  lemma PortKeys()
    ensures DomainKey("a:1") != DomainKey("a:2") && Hosts.NormalizeHost("a:1") == Hosts.NormalizeHost("a:2")
  {
    TrimFree("a:1", Space);
    TrimFree("a:2", Space);
    assert ToLower("a:1")[2] == '1' && ToLower("a:2")[2] == '2';
    var one := Hosts.Spelling("", "a", false, Some("1"), "");
    var two := Hosts.Spelling("", "a", false, Some("2"), "");
    assert Hosts.Spell(one) == "a:1" && Hosts.Spell(two) == "a:2";
    Hosts.SameKeyExactly(one, two);
  }

  lemma ClashRefused(ss: seq<Option<Hosts.Site>>)
    requires |ss| == 2 && ss[0].Some? && ss[1].Some? && Hosts.Key(ss[0].value) == Hosts.Key(ss[1].value)
    ensures !Hosts.Acceptable(ss)
  {
  }

  lemma PairShareable(r: Runtime, s: Runtime, loopback: Loopback)
    requires MemberOk(r, r, loopback) && MemberOk(r, s, loopback)
    requires DomainKey(r.domain.domain) != DomainKey(s.domain.domain)
    ensures Shareable([r, s], loopback)
  {
  }

  /** Domains written with a port can differ as strings and still be one host to the dispatcher. */
  lemma PortsCollide(r: Runtime, s: Runtime, loopback: Loopback)
    requires r.domain.domain == "a:1" && s.domain.domain == "a:2"
    requires MemberOk(r, r, loopback) && MemberOk(r, s, loopback)
    ensures Shareable([r, s], loopback) && !Hosts.Acceptable(Sites([r, s]))
  {
    PortKeys();
    PairShareable(r, s, loopback);
    ClashRefused(Sites([r, s]));
  }
}
