/** The runtime object that the services change in place, one group of fields after another. */
module RuntimeObject {
  import opened Records

  class LocalWardRuntime {
    var it: Runtime

    constructor (r: Runtime)
      ensures it == r
    {
      it := r;
    }

    /** Fails without effect on missing credentials, and half-way on an unknown domain type. */
    method ApplyClaimAndWardResponse(claim: Claim, ward: WardView, now: int) returns (ok: bool)
      modifies this
      ensures ok == Claimable(claim, ward)
      ensures it == if ok then Claimed(old(it), claim, ward, now)
                    else if HasCredentials(claim) then ClaimHead(old(it), claim, ward)
                    else old(it)
    {
      if claim.wardId == "" || claim.wardSecret == "" {
        return false;
      }
      var keys, site := it.keys, it.site;
      if ward.keys.Some? {
        keys := ward.keys.value;
      } else if claim.keys.Some? {
        keys := claim.keys.value;
      }
      if site == "" {
        site := ward.site;
      }
      it := it.(wardId := claim.wardId, wardSecret := claim.wardSecret, wardDraftSecret := "",
                wardStatus := ward.status, billingMode := ward.billingMode,
                activationMode := ward.activationMode, keys := keys, site := site);
      var tlsMode := TLSModeFor(ward.domainKind);
      if tlsMode.None? {
        return false;
      }
      var domain := DomainSpec(ward.domainKind, it.domain.requestedDomain, ward.domain, tlsMode.value);
      var mode, expiresAt := ward.upstream.mode, it.expiresAt;
      if mode == "" {
        mode := it.upstream.mode;
      }
      var ingress := OverlayIngress(ward.ingress, ward.cidrsPresent);
      if ward.expiresAt.Some? {
        expiresAt := ward.expiresAt.value;
      }
      it := it.(domain := domain, upstream := ward.upstream.(mode := mode), ingress := ingress,
                expiresAt := expiresAt, activationURL := "", updatedAt := now);
      return true;
    }

    method OverlayIngress(remote: IngressSpec, cidrsPresent: bool) returns (ingress: IngressSpec)
      ensures ingress == MergedIngress(it.ingress, remote, cidrsPresent)
    {
      var mode, family, host := remote.mode, remote.family, remote.listenHost;
      var port, public, cidrs := remote.listenPort, remote.publicPort, remote.trustedProxyCIDRs;
      if mode == "" { mode := it.ingress.mode; }
      if family == "" { family := it.ingress.family; }
      if port <= 0 { port := it.ingress.listenPort; }
      if host == "" { host := it.ingress.listenHost; }
      if public <= 0 { public := it.ingress.publicPort; }
      if !cidrsPresent { cidrs := it.ingress.trustedProxyCIDRs; }
      ingress := IngressSpec(mode, mode != BEHIND_PROXY, port, host, family, public, cidrs);
    }

    method ApplyGetWardResponseToStatus(ward: WardView, now: int)
      modifies this
      ensures it == Refreshed(old(it), ward, now)
    {
      var status, mode, addr := it.wardStatus, ward.upstream.mode, ward.upstream.addr;
      if ward.status != "" { status := ward.status; }
      if mode == "" { mode := it.upstream.mode; }
      if addr == "" { addr := it.upstream.addr; }
      var ingress := OverlayIngress(ward.ingress, ward.cidrsPresent);
      var kind, name := ward.domainKind, ward.domain;
      if kind == "" { kind := it.domain.kind; }
      if name == "" { name := it.domain.domain; }
      var expiresAt, keys := it.expiresAt, it.keys;
      if ward.expiresAt.Some? { expiresAt := ward.expiresAt.value; }
      if ward.keys.Some? { keys := ward.keys.value; }
      it := it.(wardStatus := status, spec := ward.spec, billingMode := ward.billingMode,
                activationMode := ward.activationMode, upstream := ward.upstream.(addr := addr, mode := mode),
                ingress := ingress, domain := it.domain.(kind := kind, domain := name),
                expiresAt := expiresAt, keys := keys, lastRefreshedAt := now, updatedAt := now);
    }

    /** `interval` is when to beat next; `serves` is false for a status that ends serving. */
    method ApplyHeartbeatResponse(hb: Heartbeat, now: int) returns (interval: int, serves: bool)
      modifies this
      ensures it == Beaten(old(it), hb, now)
      ensures serves == Serves(it)
      ensures interval == if serves then HeartbeatInterval(hb.next) else DEFAULT_HEARTBEAT
    {
      if hb.status != "" {
        it := it.(wardStatus := hb.status);
      }
      if hb.expiresAt.Some? {
        it := it.(expiresAt := hb.expiresAt.value);
      }
      if hb.keys.Some? {
        it := it.(keys := hb.keys.value);
      }
      it := it.(lastRefreshedAt := now, updatedAt := now);
      if it.wardStatus == "" || it.wardStatus == ACTIVE {
        return HeartbeatInterval(hb.next), true;
      }
      return DEFAULT_HEARTBEAT, false;
    }

    method ApplyCreateDraftResponse(input: DraftInput, reply: DraftReply, url: string, now: int)
      modifies this
      ensures it == Drafted(old(it), input, reply, url, now)
    {
      if it.wardDraftId == "" {
        it := it.(wardDraftId := reply.draftId, wardStatus := INITIALIZING);
      }
      it := it.(spec := input.spec, billingMode := input.billingMode,
                domain := DomainSpec(input.domainKind, reply.requestedDomain, "", input.tlsMode),
                upstream := input.upstream, ingress := input.ingress,
                activationURL := url, lastPublicIP := reply.publicIP, site := input.site, updatedAt := now);
    }

    method ClearDraftState()
      modifies this
      ensures it == DraftCleared(old(it))
    {
      it := it.(wardDraftId := "", wardDraftSecret := "", activationURL := "");
    }

    method ClearPlatformDraftState()
      modifies this
      ensures it == PlatformDraftCleared(old(it))
    {
      it := it.(wardDraftId := "", activationURL := "", lastPublicIP := "",
                lastPublicIPReportedAt := ZERO_TIME, expiresAt := ZERO_TIME);
      if it.wardId == "" {
        it := it.(domain := it.domain.(domain := ""), activationMode := "", wardSecret := "",
                  wardStatus := INITIALIZING);
      }
    }
  }
}
