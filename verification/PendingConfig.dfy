/** Merging command-line flags into the pending setup, and the normal form that results. */
module PendingConfig {
  import opened Wrappers
  import opened Records

  /** Parsers of addresses; what they accept is not part of this model. */
  datatype Parsers = Parsers(
    upstreamOk: string -> bool,
    upstreamOf: string -> string,
    portOf: string -> int,
    ipv4Ok: string -> bool,
    ipv6Ok: string -> bool,
    loopback: string -> bool)

  const DEFAULT_UPSTREAM: string := "127.0.0.1:18789"
  const ANY_HOST: string := "0.0.0.0"

  /** A flag: its value, and whether the user gave it. */
  datatype Flag<T> = Flag(value: T, changed: bool) {
    function Over(old_: T): T {
      if changed then value else old_
    }
  }

  datatype Input = Input(
    site: Flag<string>, spec: Flag<string>, billing: Flag<string>,
    domainKind: Flag<string>, requestedDomain: Flag<string>,
    upstream: Flag<string>, upstreamMode: Flag<string>, upstreamCommand: Flag<string>,
    ingressMode: Flag<string>, publicPort: Flag<int>, cidrs: Flag<seq<string>>,
    listen: Flag<string>, listenV6: Flag<string>, port: Flag<int>)

  datatype Error =
    | ListenConflict | BadUpstream | BadPort | BadListen | BadListenV6
    | BadPublicPort | PortsDiffer | NeedsTrustedProxy | BadMode | NeedsCustomDomain

  /** The ingress rules both `new` and `serve` enforce. */
  function IngressError(mode: string, publicPortChanged: bool, publicPort: int, listenPort: int,
                        loopbackHost: bool, cidrs: seq<string>): Option<Error> {
    var m := if mode == "" then STANDALONE else mode;
    if publicPort <= 0 || publicPort > 65535 then Some(BadPublicPort)
    else if m == STANDALONE then
      if publicPortChanged then Some(BadPublicPort)
      else if publicPort != listenPort then Some(PortsDiffer)
      else None
    else if m == BEHIND_PROXY then
      if !loopbackHost && cidrs == [] then Some(NeedsTrustedProxy) else None
    else Some(BadMode)
  }

  function OrPort0(a: int, b: int): int {
    if a == 0 then b else a
  }

  function MergedMode(old_: IngressSpec, input: Input): string {
    input.ingressMode.Over(OrString(old_.mode, STANDALONE))
  }

  function MergedListenPort(old_: IngressSpec, input: Input): int {
    input.port.Over(OrPort0(old_.listenPort, 443))
  }

  function MergedHost(old_: IngressSpec, input: Input): string {
    if input.listenV6.changed then input.listenV6.value
    else input.listen.Over(OrString(old_.listenHost, ANY_HOST))
  }

  function MergedFamily(old_: IngressSpec, input: Input): string {
    if input.listenV6.changed then "ipv6"
    else if input.listen.changed then "ipv4"
    else OrString(old_.family, "ipv4")
  }

  function MergedPublicPort(old_: IngressSpec, input: Input): int {
    if MergedMode(old_, input) == STANDALONE then MergedListenPort(old_, input)
    else if input.publicPort.changed then OrPort0(input.publicPort.value, 443)
    else if input.ingressMode.changed then 443
    else if old_.publicPort != 0 then old_.publicPort
    else 443
  }

  function MergedIngressOf(old_: IngressSpec, input: Input): IngressSpec {
    var standalone := MergedMode(old_, input) == STANDALONE;
    IngressSpec(MergedMode(old_, input), standalone, MergedListenPort(old_, input), MergedHost(old_, input),
                MergedFamily(old_, input), MergedPublicPort(old_, input),
                if standalone then [] else input.cidrs.Over(old_.trustedProxyCIDRs))
  }

  function MergedUpstream(old_: UpstreamSpec, input: Input, ps: Parsers): UpstreamSpec {
    var addr := if input.upstream.changed then ps.upstreamOf(input.upstream.value) else OrString(old_.addr, DEFAULT_UPSTREAM);
    var mode := if input.upstreamMode.changed && input.upstreamMode.value != "" then input.upstreamMode.value
                else OrString(old_.mode, DAEMON);
    var command := if input.upstreamMode.changed && input.upstreamMode.value == DAEMON then "" else old_.command;
    UpstreamSpec(addr, ps.portOf(addr), mode, input.upstreamCommand.Over(command))
  }

  function MergedDomain(old_: DomainSpec, input: Input): DomainSpec {
    var kind := input.domainKind.Over(OrString(old_.kind, input.domainKind.value));
    DomainSpec(kind, input.requestedDomain.Over(old_.requestedDomain), old_.domain,
               if TLSModeFor(kind).Some? then TLSModeFor(kind).value else old_.tlsMode)
  }

  function FlagError(input: Input, ps: Parsers): Option<Error> {
    if input.listen.changed && input.listenV6.changed then Some(ListenConflict)
    else if input.upstream.changed && !ps.upstreamOk(input.upstream.value) then Some(BadUpstream)
    else if input.port.changed && (input.port.value <= 0 || input.port.value > 65535) then Some(BadPort)
    else if input.listen.changed && !ps.ipv4Ok(input.listen.value) then Some(BadListen)
    else if input.listenV6.changed && !ps.ipv6Ok(input.listenV6.value) then Some(BadListenV6)
    else None
  }

  function ModeError(ingress: IngressSpec, kind: string, ps: Parsers): Option<Error> {
    var e := IngressError(ingress.mode, false, ingress.publicPort, ingress.listenPort,
                          ps.loopback(ingress.listenHost), ingress.trustedProxyCIDRs);
    if e.Some? then e
    else if ingress.mode == BEHIND_PROXY && kind == PLATFORM_SUBDOMAIN then Some(NeedsCustomDomain)
    else None
  }

  /** The merged setup, field by field. */
  function Merge(existing: Option<Runtime>, input: Input, ps: Parsers,
                 jwtSecret: string, draftSecret: string, now: int): Result<Runtime, Error> {
    var old_ := if existing.Some? then existing.value else EMPTY_RUNTIME;
    var ingress := MergedIngressOf(old_.ingress, input);
    var domain := MergedDomain(old_.domain, input);
    if FlagError(input, ps).Some? then Err(FlagError(input, ps).value)
    else if ModeError(ingress, domain.kind, ps).Some? then Err(ModeError(ingress, domain.kind, ps).value)
    else Ok(old_.(
      site := input.site.Over(OrString(old_.site, input.site.value)),
      spec := input.spec.Over(OrString(old_.spec, input.spec.value)),
      billingMode := input.billing.Over(OrString(old_.billingMode, input.billing.value)),
      domain := domain,
      upstream := MergedUpstream(old_.upstream, input, ps),
      ingress := ingress,
      wardStatus := OrString(old_.wardStatus, INITIALIZING),
      jwtSecret := OrString(old_.jwtSecret, jwtSecret),
      wardDraftSecret := OrString(old_.wardDraftSecret, draftSecret),
      updatedAt := now))
  }

  /** The ingress a successful merge can leave behind. */
  predicate NormalForm(r: Runtime, ps: Parsers) {
    var i := r.ingress;
    || (i.mode == STANDALONE && i.serveTLS && i.publicPort == i.listenPort && 1 <= i.publicPort <= 65535
        && i.trustedProxyCIDRs == [])
    || (i.mode == BEHIND_PROXY && !i.serveTLS && 1 <= i.publicPort <= 65535
        && r.domain.kind != PLATFORM_SUBDOMAIN
        && (ps.loopback(i.listenHost) || i.trustedProxyCIDRs != []))
  }

  /** The flag value for the mode has been parsed. */
  predicate ParsedMode(input: Input) {
    input.ingressMode.value == STANDALONE || input.ingressMode.value == BEHIND_PROXY
  }

  lemma MergeGivesNormalForm(existing: Option<Runtime>, input: Input, ps: Parsers,
                             jwtSecret: string, draftSecret: string, now: int)
    requires ParsedMode(input)
    requires Merge(existing, input, ps, jwtSecret, draftSecret, now).Ok?
    ensures NormalForm(Merge(existing, input, ps, jwtSecret, draftSecret, now).value, ps)
  {
  }

  // ---------------------------------------------------------------- which merges succeed, and what they contain

  /** The stored setup, or the zero value. */
  function Stored(existing: Option<Runtime>): Runtime {
    if existing.Some? then existing.value else EMPTY_RUNTIME
  }

  predicate ValidPort(p: int) {
    1 <= p <= 65535
  }

  /** Each flag that is given is acceptable by itself, and at most one address to listen on is given. */
  predicate FlagsWellFormed(input: Input, ps: Parsers) {
    && !(input.listen.changed && input.listenV6.changed)
    && (input.upstream.changed ==> ps.upstreamOk(input.upstream.value))
    && (input.port.changed ==> ValidPort(input.port.value))
    && (input.listen.changed ==> ps.ipv4Ok(input.listen.value))
    && (input.listenV6.changed ==> ps.ipv6Ok(input.listenV6.value))
  }

  /** A standalone setup needs a port. */
  predicate CanStandAlone(old_: Runtime, input: Input) {
    input.port.changed || old_.ingress.listenPort == 0 || ValidPort(old_.ingress.listenPort)
  }

  /** A proxied one needs a public port, a domain of the user's own, and a proxy it can believe. */
  predicate CanBeProxied(old_: Runtime, input: Input, ps: Parsers) {
    && (if input.publicPort.changed then input.publicPort.value == 0 || ValidPort(input.publicPort.value)
        else input.ingressMode.changed || old_.ingress.publicPort == 0 || ValidPort(old_.ingress.publicPort))
    && (if input.domainKind.changed || old_.domain.kind == "" then input.domainKind.value != "platform_subdomain"
        else old_.domain.kind != "platform_subdomain")
    && ((if input.cidrs.changed then input.cidrs.value != [] else old_.ingress.trustedProxyCIDRs != [])
        || ps.loopback(if input.listenV6.changed then input.listenV6.value
                       else if input.listen.changed then input.listen.value
                       else if old_.ingress.listenHost != "" then old_.ingress.listenHost
                       else "0.0.0.0"))
  }

  /** The mode asked for, or the stored one, standalone if there is neither. */
  predicate Asks(mode: string, old_: Runtime, input: Input) {
    if input.ingressMode.changed then input.ingressMode.value == mode
    else old_.ingress.mode == mode || (old_.ingress.mode == "" && mode == "standalone")
  }

  /** A merge succeeds exactly when its flags are well formed and the setup can run in the mode asked for. */
  lemma MergeSucceedsExactly(existing: Option<Runtime>, input: Input, ps: Parsers, jwtSecret: string, draftSecret: string, now: int)
    requires ParsedMode(input)
    ensures Merge(existing, input, ps, jwtSecret, draftSecret, now).Ok? <==>
              && FlagsWellFormed(input, ps)
              && ((Asks("standalone", Stored(existing), input) && CanStandAlone(Stored(existing), input))
                  || (Asks("behind_proxy", Stored(existing), input) && CanBeProxied(Stored(existing), input, ps)))
  {
    var old_ := Stored(existing).ingress;
    var mode := MergedMode(old_, input);
    assert mode == "standalone" <==> Asks("standalone", Stored(existing), input);
    assert mode == "behind_proxy" <==> Asks("behind_proxy", Stored(existing), input);
  }

  /** A refusal names something that is wrong. */
  lemma MergeErrorsHold(existing: Option<Runtime>, input: Input, ps: Parsers, jwtSecret: string, draftSecret: string, now: int)
    requires ParsedMode(input) && Merge(existing, input, ps, jwtSecret, draftSecret, now).Err?
    ensures var old_ := Stored(existing);
            match Merge(existing, input, ps, jwtSecret, draftSecret, now).error
            case ListenConflict => input.listen.changed && input.listenV6.changed
            case BadUpstream => input.upstream.changed && !ps.upstreamOk(input.upstream.value)
            case BadPort => input.port.changed && !ValidPort(input.port.value)
            case BadListen => input.listen.changed && !ps.ipv4Ok(input.listen.value)
            case BadListenV6 => input.listenV6.changed && !ps.ipv6Ok(input.listenV6.value)
            case BadPublicPort => if Asks("standalone", old_, input) then !CanStandAlone(old_, input) else !CanBeProxied(old_, input, ps)
            case NeedsTrustedProxy => Asks("behind_proxy", old_, input) && !CanBeProxied(old_, input, ps)
            case NeedsCustomDomain => Asks("behind_proxy", old_, input) && !CanBeProxied(old_, input, ps)
            case BadMode => !Asks("standalone", old_, input) && !Asks("behind_proxy", old_, input)
            case PortsDiffer => false
  {
    MergeSucceedsExactly(existing, input, ps, jwtSecret, draftSecret, now);
  }

  /** What was given is in the result. */
  lemma MergeHonoursFlags(existing: Option<Runtime>, input: Input, ps: Parsers, jwtSecret: string, draftSecret: string, now: int)
    requires Merge(existing, input, ps, jwtSecret, draftSecret, now).Ok?
    ensures var r := Merge(existing, input, ps, jwtSecret, draftSecret, now).value;
            && (input.site.changed ==> r.site == input.site.value)
            && (input.spec.changed ==> r.spec == input.spec.value)
            && (input.billing.changed ==> r.billingMode == input.billing.value)
            && (input.domainKind.changed ==> r.domain.kind == input.domainKind.value)
            && (input.requestedDomain.changed ==> r.domain.requestedDomain == input.requestedDomain.value)
            && (input.upstream.changed ==> r.upstream.addr == ps.upstreamOf(input.upstream.value))
            && (input.upstreamMode.changed && input.upstreamMode.value != "" ==> r.upstream.mode == input.upstreamMode.value)
            && (input.upstreamCommand.changed ==> r.upstream.command == input.upstreamCommand.value)
            && (input.upstreamMode.changed && input.upstreamMode.value == "daemon" && !input.upstreamCommand.changed ==> r.upstream.command == "")
            && (input.ingressMode.changed ==> r.ingress.mode == input.ingressMode.value)
            && (input.port.changed ==> r.ingress.listenPort == input.port.value)
            && (input.listen.changed ==> r.ingress.listenHost == input.listen.value && r.ingress.family == "ipv4")
            && (input.listenV6.changed ==> r.ingress.listenHost == input.listenV6.value && r.ingress.family == "ipv6")
            && (input.publicPort.changed && input.publicPort.value != 0 && r.ingress.mode != "standalone" ==> r.ingress.publicPort == input.publicPort.value)
            && (input.cidrs.changed && r.ingress.mode != "standalone" ==> r.ingress.trustedProxyCIDRs == input.cidrs.value)
            && r.upstream.port == ps.portOf(r.upstream.addr) && r.updatedAt == now
            && (r.domain.kind == "platform_subdomain" ==> r.domain.tlsMode == "platform_wildcard")
            && (r.domain.kind == "custom_domain" ==> r.domain.tlsMode == "local_acme")
  {
  }

  /** What was not given stays as stored. */
  lemma MergeKeepsStored(r0: Runtime, input: Input, ps: Parsers, jwtSecret: string, draftSecret: string, now: int)
    requires Merge(Some(r0), input, ps, jwtSecret, draftSecret, now).Ok?
    ensures var r := Merge(Some(r0), input, ps, jwtSecret, draftSecret, now).value;
            && (!input.site.changed && r0.site != "" ==> r.site == r0.site)
            && (!input.spec.changed && r0.spec != "" ==> r.spec == r0.spec)
            && (!input.billing.changed && r0.billingMode != "" ==> r.billingMode == r0.billingMode)
            && (!input.domainKind.changed && r0.domain.kind != "" ==> r.domain.kind == r0.domain.kind)
            && (!input.requestedDomain.changed ==> r.domain.requestedDomain == r0.domain.requestedDomain)
            && (!input.upstream.changed && r0.upstream.addr != "" ==> r.upstream.addr == r0.upstream.addr)
            && (!input.upstreamMode.changed && r0.upstream.mode != "" ==> r.upstream.mode == r0.upstream.mode)
            && (!input.upstreamCommand.changed && !(input.upstreamMode.changed && input.upstreamMode.value == "daemon") ==> r.upstream.command == r0.upstream.command)
            && (!input.ingressMode.changed && r0.ingress.mode != "" ==> r.ingress.mode == r0.ingress.mode)
            && (!input.port.changed && r0.ingress.listenPort != 0 ==> r.ingress.listenPort == r0.ingress.listenPort)
            && (!input.listen.changed && !input.listenV6.changed && r0.ingress.listenHost != "" ==> r.ingress.listenHost == r0.ingress.listenHost)
            && (!input.listen.changed && !input.listenV6.changed && r0.ingress.family != "" ==> r.ingress.family == r0.ingress.family)
            && (!input.publicPort.changed && !input.ingressMode.changed && r0.ingress.mode == "behind_proxy" && r0.ingress.publicPort != 0
                ==> r.ingress.publicPort == r0.ingress.publicPort)
            && (!input.cidrs.changed && r.ingress.mode != "standalone" ==> r.ingress.trustedProxyCIDRs == r0.ingress.trustedProxyCIDRs)
            && (r0.wardStatus != "" ==> r.wardStatus == r0.wardStatus)
            && (r0.jwtSecret != "" ==> r.jwtSecret == r0.jwtSecret) && (r0.wardDraftSecret != "" ==> r.wardDraftSecret == r0.wardDraftSecret)
            && r.wardDraftId == r0.wardDraftId && r.wardId == r0.wardId && r.wardSecret == r0.wardSecret
            && r.domain.domain == r0.domain.domain && r.whitelist == r0.whitelist && r.keys == r0.keys
            && r.activationURL == r0.activationURL && r.activationMode == r0.activationMode
            && r.lastPublicIP == r0.lastPublicIP && r.lastPublicIPReportedAt == r0.lastPublicIPReportedAt
            && r.expiresAt == r0.expiresAt && r.lastCertRenewedAt == r0.lastCertRenewedAt && r.lastRefreshedAt == r0.lastRefreshedAt
  {
  }

  /** What is neither given nor stored has its default. */
  lemma MergeDefaults(input: Input, ps: Parsers, jwtSecret: string, draftSecret: string, now: int)
    requires Merge(None, input, ps, jwtSecret, draftSecret, now).Ok?
    ensures var r := Merge(None, input, ps, jwtSecret, draftSecret, now).value;
            && r.site == input.site.value && r.spec == input.spec.value && r.billingMode == input.billing.value
            && r.domain.kind == input.domainKind.value
            && (!input.upstream.changed ==> r.upstream.addr == "127.0.0.1:18789")
            && (!input.upstreamMode.changed ==> r.upstream.mode == "daemon")
            && (!input.ingressMode.changed ==> r.ingress.mode == "standalone")
            && (!input.port.changed ==> r.ingress.listenPort == 443)
            && (!input.listen.changed && !input.listenV6.changed ==> r.ingress.listenHost == "0.0.0.0" && r.ingress.family == "ipv4")
            && (r.ingress.mode != "standalone" && !input.publicPort.changed ==> r.ingress.publicPort == 443)
            && r.wardStatus == "initializing" && r.jwtSecret == jwtSecret && r.wardDraftSecret == draftSecret && r.wardId == ""
  {
  }

  lemma MergedIngressStable(old_: IngressSpec, input: Input)
    requires ParsedMode(input)
    ensures MergedIngressOf(MergedIngressOf(old_, input), input) == MergedIngressOf(old_, input)
  {
  }

  lemma MergedUpstreamStable(old_: UpstreamSpec, input: Input, ps: Parsers)
    ensures MergedUpstream(MergedUpstream(old_, input, ps), input, ps) == MergedUpstream(old_, input, ps)
  {
  }

  lemma MergedDomainStable(old_: DomainSpec, input: Input)
    ensures MergedDomain(MergedDomain(old_, input), input) == MergedDomain(old_, input)
  {
  }

  /** Merging the same flags again, at any time and with any fresh secrets, changes only the timestamp. */
  lemma MergeIdempotent(existing: Option<Runtime>, input: Input, ps: Parsers,
                        jwt1: string, draft1: string, now1: int, jwt2: string, draft2: string, now2: int)
    requires ParsedMode(input) && jwt1 != "" && draft1 != ""
    requires Merge(existing, input, ps, jwt1, draft1, now1).Ok?
    ensures var once := Merge(existing, input, ps, jwt1, draft1, now1).value;
            Merge(Some(once), input, ps, jwt2, draft2, now2) == Ok(once.(updatedAt := now2))
  {
    var old_ := if existing.Some? then existing.value else EMPTY_RUNTIME;
    MergedIngressStable(old_.ingress, input);
    MergedUpstreamStable(old_.upstream, input, ps);
    MergedDomainStable(old_.domain, input);
  }

  /** The ingress fields: defaults first, then the flags in order, then the rule of the mode. */
  method MergeIngressFields(old_: IngressSpec, input: Input, ps: Parsers) returns (r: Result<IngressSpec, Error>)
    requires !(input.listen.changed && input.listenV6.changed)
    ensures input.port.changed && (input.port.value <= 0 || input.port.value > 65535) <==> r == Err(BadPort)
    ensures r.Err? && r.error != BadPort ==>
      r.error == if input.listen.changed && !ps.ipv4Ok(input.listen.value) then BadListen else BadListenV6
    ensures r.Ok? <==> && !(input.port.changed && (input.port.value <= 0 || input.port.value > 65535))
                       && !(input.listen.changed && !ps.ipv4Ok(input.listen.value))
                       && !(input.listenV6.changed && !ps.ipv6Ok(input.listenV6.value))
    ensures r.Ok? ==> r.value == MergedIngressOf(old_, input)
  {
    var mode, port, host, family := old_.mode, old_.listenPort, old_.listenHost, old_.family;
    var public, cidrs, serveTLS := old_.publicPort, old_.trustedProxyCIDRs, old_.serveTLS;
    if port == 0 { port := 443; }
    if host == "" { host := ANY_HOST; }
    if family == "" { family := "ipv4"; }
    if mode == "" { mode := STANDALONE; }
    if public == 0 { public := if mode == STANDALONE then port else 443; }
    serveTLS := mode != BEHIND_PROXY;
    if input.ingressMode.changed { mode := input.ingressMode.value; }
    if input.publicPort.changed { public := input.publicPort.value; }
    if input.cidrs.changed { cidrs := input.cidrs.value; }
    if input.port.changed {
      if input.port.value <= 0 || input.port.value > 65535 {
        return Err(BadPort);
      }
      port := input.port.value;
    }
    if input.listen.changed {
      if !ps.ipv4Ok(input.listen.value) {
        return Err(BadListen);
      }
      host, family := input.listen.value, "ipv4";
    }
    if input.listenV6.changed {
      if !ps.ipv6Ok(input.listenV6.value) {
        return Err(BadListenV6);
      }
      host, family := input.listenV6.value, "ipv6";
    }
    if mode == STANDALONE {
      serveTLS, public, cidrs := true, port, [];
    } else {
      serveTLS := false;
      if public == 0 || (input.ingressMode.changed && !input.publicPort.changed) {
        public := 443;
      }
    }
    assert mode == MergedMode(old_, input) && port == MergedListenPort(old_, input);
    assert host == MergedHost(old_, input) && family == MergedFamily(old_, input);
    assert public == MergedPublicPort(old_, input);
    return Ok(IngressSpec(mode, serveTLS, port, host, family, public, cidrs));
  }

  /** The upstream fields; `None` is a rejected address. */
  method MergeUpstreamFields(old_: UpstreamSpec, input: Input, ps: Parsers) returns (r: Option<UpstreamSpec>)
    ensures r.None? <==> input.upstream.changed && !ps.upstreamOk(input.upstream.value)
    ensures r.Some? ==> r.value == MergedUpstream(old_, input, ps)
  {
    var up := old_;
    if up.addr == "" { up := up.(addr := DEFAULT_UPSTREAM); }
    if up.mode == "" { up := up.(mode := DAEMON); }
    if input.upstream.changed {
      if !ps.upstreamOk(input.upstream.value) {
        return None;
      }
      up := up.(addr := ps.upstreamOf(input.upstream.value));
    }
    if input.upstreamMode.changed {
      if input.upstreamMode.value != "" { up := up.(mode := input.upstreamMode.value); }
      if input.upstreamMode.value == DAEMON { up := up.(command := ""); }
    }
    if input.upstreamCommand.changed { up := up.(command := input.upstreamCommand.value); }
    up := up.(port := ps.portOf(up.addr));
    return Some(up);
  }

  method MergeDomainFields(old_: DomainSpec, input: Input) returns (dom: DomainSpec)
    ensures dom == MergedDomain(old_, input)
  {
    dom := old_;
    if dom.kind == "" { dom := dom.(kind := input.domainKind.value); }
    if input.domainKind.changed { dom := dom.(kind := input.domainKind.value); }
    if input.requestedDomain.changed { dom := dom.(requestedDomain := input.requestedDomain.value); }
    var tls := TLSModeFor(dom.kind);
    if tls.Some? { dom := dom.(tlsMode := tls.value); }
  }

  method MergePendingRuntime(existing: Option<Runtime>, input: Input, ps: Parsers,
                             jwtSecret: string, draftSecret: string, now: int) returns (r: Result<Runtime, Error>)
    ensures r == Merge(existing, input, ps, jwtSecret, draftSecret, now)
  {
    if input.listen.changed && input.listenV6.changed {
      return Err(ListenConflict);
    }
    var rt := EMPTY_RUNTIME;
    if existing.Some? {
      rt := existing.value;
    }
    var dom := MergeDomainFields(rt.domain, input);
    var up := MergeUpstreamFields(rt.upstream, input, ps);
    if up.None? {
      return Err(BadUpstream);
    }
    var ingress := MergeIngressFields(rt.ingress, input, ps);
    if ingress.Err? {
      return Err(ingress.error);
    }
    var ing := ingress.value;
    var invalid := IngressError(ing.mode, false, ing.publicPort, ing.listenPort,
                                ps.loopback(ing.listenHost), ing.trustedProxyCIDRs);
    if invalid.Some? {
      return Err(invalid.value);
    }
    if ing.mode == BEHIND_PROXY && dom.kind == PLATFORM_SUBDOMAIN {
      return Err(NeedsCustomDomain);
    }
    assert FlagError(input, ps).None? && ModeError(ing, dom.kind, ps).None?;
    var site, spec, billing, status := rt.site, rt.spec, rt.billingMode, rt.wardStatus;
    var jwt, draft := rt.jwtSecret, rt.wardDraftSecret;
    if site == "" || input.site.changed { site := input.site.value; }
    if spec == "" || input.spec.changed { spec := input.spec.value; }
    if billing == "" || input.billing.changed { billing := input.billing.value; }
    if status == "" { status := INITIALIZING; }
    if jwt == "" { jwt := jwtSecret; }
    if draft == "" { draft := draftSecret; }
    return Ok(rt.(site := site, spec := spec, billingMode := billing, domain := dom, upstream := up.value,
                  ingress := ing, wardStatus := status, jwtSecret := jwt, wardDraftSecret := draft, updatedAt := now));
  }
}
