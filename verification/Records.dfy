/**
 The local runtime of a ward: the value the application works on, the record the store
 keeps on disk, the mapping between them, and the mapping of platform responses.
 */
module Records {
  import opened Wrappers
  import opened GoTime

  const STANDALONE: string := "standalone"
  const BEHIND_PROXY: string := "behind_proxy"
  const DAEMON: string := "daemon"
  const PLATFORM_SUBDOMAIN: string := "platform_subdomain"
  const CUSTOM_DOMAIN: string := "custom_domain"
  const INITIALIZING: string := "initializing"
  const ACTIVE: string := "active"
  const STARTER: string := "starter"
  const PRO: string := "pro"
  const ZERO_TIME: int := 0

  datatype UpstreamSpec = UpstreamSpec(addr: string, port: int, mode: string, command: string)

  datatype IngressSpec = IngressSpec(
    mode: string, serveTLS: bool, listenPort: int, listenHost: string,
    family: string, publicPort: int, trustedProxyCIDRs: seq<string>)

  datatype DomainSpec = DomainSpec(kind: string, requestedDomain: string, domain: string, tlsMode: string)

  datatype PublicKey = PublicKey(kid: string, key: string, notAfter: string)

  datatype WhitelistRule = WhitelistRule(kind: string, path: string)

  datatype Runtime = Runtime(
    site: string, wardDraftId: string, wardDraftSecret: string,
    wardId: string, wardSecret: string, jwtSecret: string,
    wardStatus: string, spec: string, billingMode: string, activationMode: string,
    domain: DomainSpec, upstream: UpstreamSpec, ingress: IngressSpec,
    lastPublicIP: string, lastPublicIPReportedAt: int, expiresAt: int,
    lastCertRenewedAt: int, lastRefreshedAt: int, activationURL: string,
    keys: seq<PublicKey>, whitelist: seq<WhitelistRule>, updatedAt: int)

  datatype Record = Record(
    version: int, listenAddr: string,
    site: string, wardDraftId: string, wardDraftSecret: string,
    wardId: string, wardSecret: string, jwtSecret: string,
    wardStatus: string, spec: string, billingMode: string, activationMode: string,
    domain: DomainSpec, upstream: UpstreamSpec, ingress: IngressSpec,
    lastPublicIP: string, lastPublicIPReportedAt: Option<int>, expiresAt: Option<int>,
    lastCertRenewedAt: Option<int>, lastRefreshedAt: Option<int>, activationURL: string,
    keys: seq<PublicKey>, whitelist: seq<WhitelistRule>, updatedAt: int)

  /** The zero value of a runtime. */
  const EMPTY_RUNTIME: Runtime := Runtime("", "", "", "", "", "", "", "", "", "",
    DomainSpec("", "", "", ""), UpstreamSpec("", 0, "", ""), IngressSpec("", false, 0, "", "", 0, []),
    "", ZERO_TIME, ZERO_TIME, ZERO_TIME, ZERO_TIME, "", [], [], ZERO_TIME)

  function Stamp(t: int): Option<int> {
    if t == ZERO_TIME then None else Some(t)
  }

  function Instant(t: Option<int>): int {
    if t.None? then ZERO_TIME else t.value
  }

  function ToRecord(r: Runtime): Record {
    Record(1, "", r.site, r.wardDraftId, r.wardDraftSecret, r.wardId, r.wardSecret, r.jwtSecret,
           r.wardStatus, r.spec, r.billingMode, r.activationMode, r.domain, r.upstream, r.ingress,
           r.lastPublicIP, Stamp(r.lastPublicIPReportedAt), Stamp(r.expiresAt),
           Stamp(r.lastCertRenewedAt), Stamp(r.lastRefreshedAt), r.activationURL,
           r.keys, r.whitelist, r.updatedAt)
  }

  function FromRecord(r: Record): Runtime {
    Runtime(r.site, r.wardDraftId, r.wardDraftSecret, r.wardId, r.wardSecret, r.jwtSecret,
            r.wardStatus, r.spec, r.billingMode, r.activationMode, r.domain, r.upstream, r.ingress,
            r.lastPublicIP, Instant(r.lastPublicIPReportedAt), Instant(r.expiresAt),
            Instant(r.lastCertRenewedAt), Instant(r.lastRefreshedAt), r.activationURL,
            r.keys, r.whitelist, r.updatedAt)
  }

  /** The normalisation the store applies before every write and after every read. */
  function Normalise(r: Record): (n: Record)
    ensures n.ingress.publicPort != 0 && n.ingress.mode != "" && n.upstream.mode != ""
    ensures n.ingress.serveTLS <==> n.ingress.mode != BEHIND_PROXY
    ensures SameIdentity(n, r)
  {
    var up := if r.upstream.mode == "" then DAEMON else r.upstream.mode;
    var mode := if r.ingress.mode == "" then STANDALONE else r.ingress.mode;
    var port :=
      if r.ingress.publicPort != 0 then r.ingress.publicPort
      else if mode == STANDALONE && r.ingress.listenPort > 0 then r.ingress.listenPort
      else 443;
    r.(upstream := r.upstream.(mode := up),
       ingress := r.ingress.(mode := mode, publicPort := port, serveTLS := mode != BEHIND_PROXY))
  }

  /** The defaulting, and nothing else. */
  lemma NormaliseExactly(r: Record)
    ensures var n := Normalise(r);
            && n == r.(upstream := n.upstream, ingress := n.ingress)
            && n.upstream == r.upstream.(mode := if r.upstream.mode == "" then "daemon" else r.upstream.mode)
            && n.ingress == r.ingress.(mode := n.ingress.mode, publicPort := n.ingress.publicPort, serveTLS := n.ingress.serveTLS)
            && n.ingress.mode == (if r.ingress.mode == "" then "standalone" else r.ingress.mode)
            && (n.ingress.serveTLS <==> r.ingress.mode != "behind_proxy")
            && (r.ingress.publicPort != 0 ==> n.ingress.publicPort == r.ingress.publicPort)
            && (r.ingress.publicPort == 0 && r.ingress.mode in {"", "standalone"} && r.ingress.listenPort > 0 ==> n.ingress.publicPort == r.ingress.listenPort)
            && (r.ingress.publicPort == 0 && !(r.ingress.mode in {"", "standalone"} && r.ingress.listenPort > 0) ==> n.ingress.publicPort == 443)
  {
  }

  predicate SameIdentity(a: Record, b: Record) {
    && a.wardDraftId == b.wardDraftId && a.wardDraftSecret == b.wardDraftSecret
    && a.wardId == b.wardId && a.wardSecret == b.wardSecret && a.jwtSecret == b.jwtSecret
    && a.listenAddr == b.listenAddr && a.updatedAt == b.updatedAt
  }

  /** Reading back what was written gives the written record: normalising again changes nothing. */
  lemma NormaliseIdempotent(r: Record)
    ensures Normalise(Normalise(r)) == Normalise(r)
  {
  }

  /** A runtime survives the trip through its record. */
  lemma RuntimeRoundTrip(r: Runtime)
    ensures FromRecord(ToRecord(r)) == r
  {
  }

  /** A record survives the other trip exactly when it is current, not deprecated and holds no zero times. */
  lemma RecordRoundTripExactly(r: Record)
    ensures ToRecord(FromRecord(r)) == r
            <==> && r.version == 1 && r.listenAddr == ""
                 && r.lastPublicIPReportedAt != Some(ZERO_TIME) && r.expiresAt != Some(ZERO_TIME)
                 && r.lastCertRenewedAt != Some(ZERO_TIME) && r.lastRefreshedAt != Some(ZERO_TIME)
  {
  }

  /** A record names each value of its runtime as the runtime does. */
  lemma RecordFields(r: Runtime)
    ensures var k := ToRecord(r);
            && k.version == 1 && k.listenAddr == ""
            && k.site == r.site && k.wardDraftId == r.wardDraftId && k.wardDraftSecret == r.wardDraftSecret
            && k.wardId == r.wardId && k.wardSecret == r.wardSecret && k.jwtSecret == r.jwtSecret
            && k.wardStatus == r.wardStatus && k.spec == r.spec && k.billingMode == r.billingMode && k.activationMode == r.activationMode
            && k.domain == r.domain && k.upstream == r.upstream && k.ingress == r.ingress && k.lastPublicIP == r.lastPublicIP
            && (k.expiresAt.None? <==> r.expiresAt == ZERO_TIME) && Instant(k.expiresAt) == r.expiresAt
            && Instant(k.lastPublicIPReportedAt) == r.lastPublicIPReportedAt && Instant(k.lastCertRenewedAt) == r.lastCertRenewedAt
            && Instant(k.lastRefreshedAt) == r.lastRefreshedAt && k.activationURL == r.activationURL
            && k.keys == r.keys && k.whitelist == r.whitelist && k.updatedAt == r.updatedAt
  {
  }

  // ---------------------------------------------------------------- platform responses

  datatype Claim = Claim(wardId: string, wardSecret: string, keys: Option<seq<PublicKey>>)

  /** The ward as the platform describes it; an unparsable or missing expiry is `None`. */
  datatype WardView = WardView(
    site: string, status: string, spec: string, billingMode: string, activationMode: string,
    domainKind: string, domain: string, upstream: UpstreamSpec, ingress: IngressSpec,
    cidrsPresent: bool, expiresAt: Option<int>, keys: Option<seq<PublicKey>>)

  /** `next` is the platform's hint for the next heartbeat, in seconds. */
  datatype Heartbeat = Heartbeat(status: string, expiresAt: Option<int>, keys: Option<seq<PublicKey>>, next: int)

  function TLSModeFor(kind: string): Option<string> {
    if kind == PLATFORM_SUBDOMAIN then Some("platform_wildcard")
    else if kind == CUSTOM_DOMAIN then Some("local_acme")
    else None
  }

  function OrString(a: string, b: string): string {
    if a == "" then b else a
  }

  function OrPort(a: int, b: int): int {
    if a <= 0 then b else a
  }

  /** The ingress of a response over the local one, field by field. */
  function MergedIngress(local: IngressSpec, remote: IngressSpec, cidrsPresent: bool): IngressSpec {
    var mode := OrString(remote.mode, local.mode);
    IngressSpec(mode, mode != BEHIND_PROXY, OrPort(remote.listenPort, local.listenPort),
                OrString(remote.listenHost, local.listenHost), OrString(remote.family, local.family),
                OrPort(remote.publicPort, local.publicPort),
                if cidrsPresent then remote.trustedProxyCIDRs else local.trustedProxyCIDRs)
  }

  predicate HasCredentials(claim: Claim) {
    claim.wardId != "" && claim.wardSecret != ""
  }

  predicate Claimable(claim: Claim, ward: WardView) {
    HasCredentials(claim) && TLSModeFor(ward.domainKind).Some?
  }

  /** What a claim sets before the domain type is looked at. */
  function ClaimHead(r: Runtime, claim: Claim, ward: WardView): Runtime {
    r.(wardId := claim.wardId, wardSecret := claim.wardSecret, wardDraftSecret := "",
       wardStatus := ward.status, billingMode := ward.billingMode, activationMode := ward.activationMode,
       keys := if ward.keys.Some? then ward.keys.value else if claim.keys.Some? then claim.keys.value else r.keys,
       site := OrString(r.site, ward.site))
  }

  /** The runtime after a successful claim and the ward read that follows it. */
  function Claimed(r: Runtime, claim: Claim, ward: WardView, now: int): Runtime
    requires Claimable(claim, ward)
  {
    ClaimHead(r, claim, ward).(
      domain := DomainSpec(ward.domainKind, r.domain.requestedDomain, ward.domain, TLSModeFor(ward.domainKind).value),
      upstream := ward.upstream.(mode := OrString(ward.upstream.mode, r.upstream.mode)),
      ingress := MergedIngress(r.ingress, ward.ingress, ward.cidrsPresent),
      expiresAt := if ward.expiresAt.Some? then ward.expiresAt.value else r.expiresAt,
      activationURL := "", updatedAt := now)
  }

  /** The runtime after a ward read outside a claim. */
  function Refreshed(r: Runtime, ward: WardView, now: int): Runtime {
    r.(wardStatus := OrString(ward.status, r.wardStatus), spec := ward.spec,
       billingMode := ward.billingMode, activationMode := ward.activationMode,
       upstream := ward.upstream.(addr := OrString(ward.upstream.addr, r.upstream.addr),
                                  mode := OrString(ward.upstream.mode, r.upstream.mode)),
       ingress := MergedIngress(r.ingress, ward.ingress, ward.cidrsPresent),
       domain := r.domain.(kind := OrString(ward.domainKind, r.domain.kind),
                           domain := OrString(ward.domain, r.domain.domain)),
       expiresAt := if ward.expiresAt.Some? then ward.expiresAt.value else r.expiresAt,
       keys := if ward.keys.Some? then ward.keys.value else r.keys,
       lastRefreshedAt := now, updatedAt := now)
  }

  function Beaten(r: Runtime, hb: Heartbeat, now: int): Runtime {
    r.(wardStatus := OrString(hb.status, r.wardStatus),
       expiresAt := if hb.expiresAt.Some? then hb.expiresAt.value else r.expiresAt,
       keys := if hb.keys.Some? then hb.keys.value else r.keys,
       lastRefreshedAt := now, updatedAt := now)
  }

  const DEFAULT_HEARTBEAT: int := 60 * SECOND

  /** The interval a heartbeat answer asks for; the product with one second can wrap. */
  function HeartbeatInterval(seconds: int): int {
    if seconds <= 0 then DEFAULT_HEARTBEAT else Wrap64(seconds * SECOND)
  }

  /** Serving goes on only for an active ward or one without a status. */
  predicate Serves(r: Runtime) {
    r.wardStatus == "" || r.wardStatus == ACTIVE
  }

  // ---------------------------------------------------------------- drafts

  /** What `new` submits; validated and defaulted. */
  datatype DraftInput = DraftInput(
    site: string, spec: string, billingMode: string, domainKind: string, tlsMode: string,
    upstream: UpstreamSpec, ingress: IngressSpec, publicBaseURL: string)

  datatype DraftReply = DraftReply(draftId: string, requestedDomain: string, publicIP: string)

  /** The runtime after a create-or-update reply: an id it already has is kept. */
  function Drafted(r: Runtime, input: DraftInput, reply: DraftReply, activationURL: string, now: int): Runtime {
    r.(wardDraftId := if r.wardDraftId == "" then reply.draftId else r.wardDraftId,
       wardStatus := if r.wardDraftId == "" then INITIALIZING else r.wardStatus,
       spec := input.spec, billingMode := input.billingMode,
       domain := DomainSpec(input.domainKind, reply.requestedDomain, "", input.tlsMode),
       upstream := input.upstream, ingress := input.ingress, activationURL := activationURL,
       lastPublicIP := reply.publicIP, site := input.site, updatedAt := now)
  }

  function DraftCleared(r: Runtime): Runtime {
    r.(wardDraftId := "", wardDraftSecret := "", activationURL := "")
  }

  /** What `new --commit` forgets of the platform's answers before it submits again. */
  function PlatformDraftCleared(r: Runtime): Runtime {
    var c := r.(wardDraftId := "", activationURL := "", lastPublicIP := "",
                lastPublicIPReportedAt := ZERO_TIME, expiresAt := ZERO_TIME);
    if r.wardId != "" then c
    else c.(domain := c.domain.(domain := ""), activationMode := "", wardSecret := "", wardStatus := INITIALIZING)
  }

  /** What is forgotten of the platform's answers before a setup is submitted again. */
  lemma PlatformDraftClearedExactly(r: Runtime)
    ensures var c := PlatformDraftCleared(r);
            && c.wardDraftId == "" && c.activationURL == "" && c.lastPublicIP == ""
            && c.lastPublicIPReportedAt == ZERO_TIME && c.expiresAt == ZERO_TIME
            && c.wardDraftSecret == r.wardDraftSecret && c.jwtSecret == r.jwtSecret && c.wardId == r.wardId
            && c.site == r.site && c.spec == r.spec && c.billingMode == r.billingMode && c.upstream == r.upstream && c.ingress == r.ingress
            && c.domain == r.domain.(domain := c.domain.domain)
            && (r.wardId == "" ==> c.domain.domain == "" && c.wardSecret == "" && c.activationMode == "" && c.wardStatus == "initializing")
            && (r.wardId != "" ==> c.domain == r.domain && c.wardSecret == r.wardSecret && c.activationMode == r.activationMode && c.wardStatus == r.wardStatus)
            && c.keys == r.keys && c.whitelist == r.whitelist && c.lastRefreshedAt == r.lastRefreshedAt && c.updatedAt == r.updatedAt
  {
  }
}
