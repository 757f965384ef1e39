/**
 What is on disk once a command has spoken to the platform: field by field, a value in the
 answer is what is saved, and an absent one leaves what was stored.
 */
module AnswersSaved {
  import opened Wrappers
  import opened Records
  import opened Store
  import opened StoreNaming
  import opened Lifecycle
  import opened NewService
  import opened Activation

  function Text(answer: string, stored: string): string {
    if answer != "" then answer else stored
  }

  function Number(answer: int, stored: int): int {
    if answer > 0 then answer else stored
  }

  function Moment(answer: Option<int>, stored: Option<int>): int {
    match answer
    case Some(t) => t
    case None => Instant(stored)
  }

  /** Nothing that identifies the runtime has changed. */
  predicate SameSecrets(rec: Record, stored: Record) {
    rec.wardDraftId == stored.wardDraftId && rec.wardId == stored.wardId && rec.wardSecret == stored.wardSecret
    && rec.jwtSecret == stored.jwtSecret && rec.wardDraftSecret == stored.wardDraftSecret
  }

  /** The ingress of the answer over the stored one. */
  predicate IngressAnswered(rec: IngressSpec, stored: IngressSpec, ward: WardView) {
    && rec.mode == Text(ward.ingress.mode, stored.mode)
    && (rec.serveTLS <==> rec.mode != "behind_proxy")
    && rec.listenPort == Number(ward.ingress.listenPort, stored.listenPort)
    && rec.publicPort == Number(ward.ingress.publicPort, stored.publicPort)
    && rec.listenHost == Text(ward.ingress.listenHost, stored.listenHost)
    && rec.family == Text(ward.ingress.family, stored.family)
    && rec.trustedProxyCIDRs == (if ward.cidrsPresent then ward.ingress.trustedProxyCIDRs else stored.trustedProxyCIDRs)
  }

  /** A refresh of a ward. */
  predicate RefreshSaved(rec: Record, stored: Record, ward: WardView, now: int) {
    && SameSecrets(rec, stored) && rec.site == stored.site
    && rec.wardStatus == Text(ward.status, stored.wardStatus)
    && rec.spec == ward.spec && rec.billingMode == ward.billingMode && rec.activationMode == ward.activationMode
    && rec.upstream.addr == Text(ward.upstream.addr, stored.upstream.addr) && rec.upstream.port == ward.upstream.port
    && rec.upstream.mode == Text(ward.upstream.mode, stored.upstream.mode) && rec.upstream.command == ward.upstream.command
    && IngressAnswered(rec.ingress, stored.ingress, ward)
    && rec.domain.kind == Text(ward.domainKind, stored.domain.kind) && rec.domain.domain == Text(ward.domain, stored.domain.domain)
    && rec.domain.requestedDomain == stored.domain.requestedDomain && rec.domain.tlsMode == stored.domain.tlsMode
    && Instant(rec.expiresAt) == Moment(ward.expiresAt, stored.expiresAt)
    && rec.keys == (if ward.keys.Some? then ward.keys.value else stored.keys)
    && rec.activationURL == stored.activationURL && rec.whitelist == stored.whitelist && rec.lastPublicIP == stored.lastPublicIP
    && Instant(rec.lastPublicIPReportedAt) == Instant(stored.lastPublicIPReportedAt)
    && Instant(rec.lastCertRenewedAt) == Instant(stored.lastCertRenewedAt)
    && Instant(rec.lastRefreshedAt) == now && rec.updatedAt == now
  }

  /** A claim, and the ward as read after it. */
  predicate ClaimSaved(rec: Record, stored: Record, claim: Claim, ward: WardView, now: int) {
    && rec.wardId == claim.wardId && rec.wardSecret == claim.wardSecret && rec.wardDraftSecret == ""
    && rec.wardDraftId == stored.wardDraftId && rec.jwtSecret == stored.jwtSecret && rec.activationURL == ""
    && rec.site == Text(stored.site, ward.site)
    && rec.wardStatus == ward.status && rec.spec == stored.spec
    && rec.billingMode == ward.billingMode && rec.activationMode == ward.activationMode
    && rec.upstream.addr == ward.upstream.addr && rec.upstream.port == ward.upstream.port
    && rec.upstream.mode == Text(ward.upstream.mode, stored.upstream.mode) && rec.upstream.command == ward.upstream.command
    && IngressAnswered(rec.ingress, stored.ingress, ward)
    && rec.domain.kind == ward.domainKind && rec.domain.domain == ward.domain
    && rec.domain.requestedDomain == stored.domain.requestedDomain
    && rec.domain.tlsMode == (if ward.domainKind == "custom_domain" then "local_acme" else "platform_wildcard")
    && Instant(rec.expiresAt) == Moment(ward.expiresAt, stored.expiresAt)
    && rec.keys == (if ward.keys.Some? then ward.keys.value else if claim.keys.Some? then claim.keys.value else stored.keys)
    && rec.whitelist == stored.whitelist && rec.lastPublicIP == stored.lastPublicIP && rec.updatedAt == now
  }

  /** A poll of a draft that is not ready. */
  predicate PollSaved(rec: Record, stored: Record, status: string, now: int) {
    && SameSecrets(rec, stored) && rec.site == stored.site && rec.wardStatus == Text(status, stored.wardStatus)
    && rec.spec == stored.spec && rec.billingMode == stored.billingMode && rec.activationMode == stored.activationMode
    && rec.domain == stored.domain && rec.upstream == stored.upstream && rec.ingress == stored.ingress
    && Instant(rec.expiresAt) == Instant(stored.expiresAt) && rec.keys == stored.keys && rec.activationURL == stored.activationURL
    && Instant(rec.lastRefreshedAt) == now && rec.updatedAt == now
  }

  /** A heartbeat of a serving ward. */
  predicate BeatSaved(rec: Record, was: Runtime, hb: Heartbeat, now: int) {
    && rec.wardId == was.wardId && rec.wardSecret == was.wardSecret && rec.jwtSecret == was.jwtSecret
    && rec.wardStatus == Text(hb.status, was.wardStatus)
    && Instant(rec.expiresAt) == (if hb.expiresAt.Some? then hb.expiresAt.value else was.expiresAt)
    && rec.keys == (if hb.keys.Some? then hb.keys.value else was.keys)
    && rec.domain == was.domain && rec.site == was.site && rec.spec == was.spec
    && Instant(rec.lastRefreshedAt) == now && rec.updatedAt == now
  }

  /** The record as read back from where the store's cursor then stands. */
  ghost predicate Holds(s: State, rec: Record) {
    s.cursor.Some? && Load(s.disk, s.cursor.value) == Ok(Some(rec))
  }

  lemma SaveHolds(s: State, r: Runtime)
    requires !SaveFails(s, r) && s.cursor.Some?
    ensures Holds(SaveWard(s, ToRecord(r)).0, Normalise(ToRecord(r)))
    ensures r.wardId != "" ==> SaveWard(s, ToRecord(r)).0.cursor == Some(r.wardId)
  {
    NormaliseIdempotent(ToRecord(r));
  }

  /** What a load hands out has been normalised. */
  predicate Settled(rec: Record) {
    rec.ingress.publicPort != 0 && rec.ingress.mode != "" && rec.upstream.mode != "" && Normalise(rec) == rec
  }

  lemma LoadedSettled(s: State)
    requires LoadWard(s).1.Ok? && LoadWard(s).1.value.Some?
    ensures Settled(LoadWard(s).1.value.value) && LoadWard(s).0.cursor.Some? && LoadWard(s).0.disk == s.disk
  {
    var (s1, loaded) := LoadWard(s);
    assert s1.cursor.Some? && loaded == Load(s.disk, s1.cursor.value);
    NormaliseIdempotent(s.disk[s1.cursor.value].file.record);
  }

  lemma ClaimedSaves(stored: Record, claim: Claim, ward: WardView, now: int)
    requires Settled(stored) && Claimable(claim, ward)
    ensures var rec := Normalise(ToRecord(Claimed(FromRecord(stored), claim, ward, now)));
            ClaimSaved(rec, stored, claim, ward, now) && Settled(rec) && rec == ToRecord(Claimed(FromRecord(stored), claim, ward, now))
  {
    NormaliseIdempotent(ToRecord(Claimed(FromRecord(stored), claim, ward, now)));
  }

  lemma RefreshedSaves(r: Runtime, ward: WardView, now: int)
    requires Settled(ToRecord(r))
    ensures RefreshSaved(Normalise(ToRecord(Refreshed(r, ward, now))), ToRecord(r), ward, now)
  {
  }

  lemma FirstEntry(s: State, es: seq<Entry>)
    ensures Stored(s, [LOAD] + es) == Stored(LoadWard(s).0, es)
  {
    assert ([LOAD] + es)[1..] == es;
  }

  lemma OneSaveStored(s: State, r: Runtime)
    ensures Stored(s, [SaveOf(r)]) == SaveWard(s, ToRecord(r)).0
  {
    assert [SaveOf(r)][1..] == [];
  }

  lemma AskThenSave(s: State, ask: Entry, r: Runtime)
    requires ask.AskClaim?
    ensures Stored(s, [ask, SaveOf(r)]) == SaveWard(s, ToRecord(r)).0
  {
    assert [ask, SaveOf(r)][1..] == [SaveOf(r)];
    OneSaveStored(s, r);
  }

  /** A draft that has not been claimed, and the platform's word that it can be. */
  predicate Awaiting(rec: Record) {
    rec.wardId == "" && rec.wardDraftId != "" && rec.wardDraftSecret != ""
  }

  predicate SaysReady(status: StatusAnswer) {
    match status
    case StatusIs(word) => word == "converted_pending_claim" || word == "claimed"
    case _ => false
  }

  /** An activation succeeds exactly for a waiting draft, with the platform ready, full credentials, a known domain type and a save. */
  lemma ConvertsExactly(s: State, status: StatusAnswer, a: Answers)
    ensures var (s1, loaded) := LoadWard(s);
            Finalized(s, status, a).1.Converted? <==>
              && loaded.Ok? && loaded.value.Some? && Awaiting(loaded.value.value) && SaysReady(status)
              && a.claim.Some? && a.claim.value.wardId != "" && a.claim.value.wardSecret != ""
              && a.ward.Some? && (a.ward.value.domainKind == "platform_subdomain" || a.ward.value.domainKind == "custom_domain")
              && !SaveFails(s1, Claimed(FromRecord(loaded.value.value), a.claim.value, a.ward.value, a.claimedAt))
  {
  }

  /** It then has on disk, under the ward's name, what the platform answered. */
  lemma ConversionSaves(s: State, status: StatusAnswer, a: Answers) returns (rec: Record)
    requires Finalized(s, status, a).1.Converted?
    ensures var final := Stored(s, Finalized(s, status, a).0);
            && final.cursor == Some(a.claim.value.wardId) && Holds(final, rec)
            && ClaimSaved(rec, LoadWard(s).1.value.value, a.claim.value, a.ward.value, a.claimedAt)
    ensures Settled(rec) && rec == ToRecord(Finalized(s, status, a).1.ward)
  {
    ConvertsExactly(s, status, a);
    LoadedSettled(s);
    var s1 := LoadWard(s).0;
    var stored := LoadWard(s).1.value.value;
    var c := Claimed(FromRecord(stored), a.claim.value, a.ward.value, a.claimedAt);
    var ask := AskClaim(stored.wardDraftId, stored.wardDraftSecret, a.claim);
    assert Finalized(s, status, a).0 == [LOAD] + [ask, SaveOf(c)];
    FirstEntry(s, [ask, SaveOf(c)]);
    AskThenSave(s1, ask, c);
    SaveHolds(s1, c);
    ClaimedSaves(stored, a.claim.value, a.ward.value, a.claimedAt);
    rec := Normalise(ToRecord(c));
  }

  /** An activation that finds its draft void forgets it; any other that does not convert saves nothing. */
  lemma UnconvertedSaves(s: State, status: StatusAnswer, a: Answers)
    requires !Finalized(s, status, a).1.Converted? && LoadWard(s).1.Ok? && LoadWard(s).1.value.Some?
    requires !SaysReady(status)
    ensures var (s1, loaded) := LoadWard(s);
            var stored := FromRecord(loaded.value.value);
            var forgotten := stored.(wardDraftId := "", wardDraftSecret := "", activationURL := "", updatedAt := a.clearedAt);
            Stored(s, Finalized(s, status, a).0)
            == if Awaiting(loaded.value.value) && SaysVoid(status) then SaveWard(s1, ToRecord(forgotten)).0 else s1
  {
    var s1 := LoadWard(s).0;
    var stored := FromRecord(LoadWard(s).1.value.value);
    var es := Finalized(s, status, a).0;
    assert es == [LOAD] + es[1..];
    FirstEntry(s, es[1..]);
    if es[1..] != [] {
      var c := DraftCleared(stored).(updatedAt := a.clearedAt);
      assert es[1..] == [SaveOf(c)];
      OneSaveStored(s1, c);
    } else {
      assert Stored(s1, []) == s1;
    }
  }

  // ---------------------------------------------------------------- the status command

  lemma WardPartSaves(s: State, r: Runtime, a: Answers)
    requires s.cursor.Some? && Settled(ToRecord(r)) && WardPart(s, r, a).1.Some?
    ensures var final := Stored(s, WardPart(s, r, a).0);
            if r.wardId != "" && r.wardSecret != "" && a.refresh.Some?
            then exists rec :: Holds(final, rec) && RefreshSaved(rec, ToRecord(r), a.refresh.value, a.refreshedAt)
            else final == s
  {
    if WardPart(s, r, a).0 != [] {
      var f := Refreshed(r, a.refresh.value, a.refreshedAt);
      OneSaveStored(s, f);
      SaveHolds(s, f);
      RefreshedSaves(r, a.refresh.value, a.refreshedAt);
    }
  }

  lemma StatusParts(s: State, a: Answers)
    requires StatusRun(s, a).1.Some? && LoadWard(s).1.value.Some?
    ensures var (s1, loaded) := LoadWard(s);
            var r := FromRecord(loaded.value.value);
            var (e1, r1, _) := DraftPart(s1, r, a);
            && r1.Some? && WardPart(Stored(s1, e1), r1.value, a).1.Some?
            && Stored(s, StatusRun(s, a).0) == Stored(Stored(s1, e1), WardPart(Stored(s1, e1), r1.value, a).0)
  {
    var (s1, loaded) := LoadWard(s);
    var (e1, r1, _) := DraftPart(s1, FromRecord(loaded.value.value), a);
    var e2 := WardPart(Stored(s1, e1), r1.value, a).0;
    assert StatusRun(s, a).0 == [LOAD] + (e1 + e2);
    FirstEntry(s, e1 + e2);
    StoredAppend(s1, e1, e2);
  }

  lemma FromToSettled(rec: Record)
    requires Settled(rec)
    ensures Settled(ToRecord(FromRecord(rec)))
  {
  }

  /** A successful status command has refreshed a stored ward from the answer, or left it alone without one. */
  lemma StatusRefreshes(s: State, a: Answers)
    requires StatusRun(s, a).1.Some? && LoadWard(s).1.value.Some? && LoadWard(s).1.value.value.wardId != ""
    requires LoadWard(s).1.value.value.wardSecret != ""
    ensures var stored := LoadWard(s).1.value.value;
            var final := Stored(s, StatusRun(s, a).0);
            if a.refresh.Some? then exists rec :: Holds(final, rec) && RefreshSaved(rec, stored, a.refresh.value, a.refreshedAt)
            else final == LoadWard(s).0
  {
    LoadedSettled(s);
    StatusParts(s, a);
    var s1 := LoadWard(s).0;
    var r := FromRecord(LoadWard(s).1.value.value);
    FromToSettled(LoadWard(s).1.value.value);
    assert DraftPart(s1, r, a).0 == [] && Stored(s1, []) == s1;
    WardPartSaves(s1, r, a);
    if a.refresh.Some? {
      var rec :| Holds(Stored(s, StatusRun(s, a).0), rec) && RefreshSaved(rec, ToRecord(r), a.refresh.value, a.refreshedAt);
      assert RefreshSaved(rec, LoadWard(s).1.value.value, a.refresh.value, a.refreshedAt);
    }
  }

  /** A successful status command on a waiting draft that is not ready has saved the poll. */
  lemma StatusPolls(s: State, a: Answers)
    requires StatusRun(s, a).1.Some? && LoadWard(s).1.value.Some? && Awaiting(LoadWard(s).1.value.value)
    requires a.status.StatusIs? && !SaysReady(a.status)
    ensures var stored := LoadWard(s).1.value.value;
            exists rec :: Holds(Stored(s, StatusRun(s, a).0), rec) && PollSaved(rec, stored, a.status.status, a.polledAt)
  {
    LoadedSettled(s);
    StatusParts(s, a);
    var s1 := LoadWard(s).0;
    var stored := LoadWard(s).1.value.value;
    var p := Polled(FromRecord(stored), a.status.status, a.polledAt);
    assert DraftPart(s1, FromRecord(stored), a).0 == [SaveOf(p)];
    OneSaveStored(s1, p);
    SaveHolds(s1, p);
    var s2 := SaveWard(s1, ToRecord(p)).0;
    assert Stored(s2, []) == s2;
    assert PollSaved(Normalise(ToRecord(p)), stored, a.status.status, a.polledAt);
  }

  /** A status command that finds a draft ready claims it, and refreshes the new ward at once if it can. */
  lemma StatusClaims(s: State, a: Answers) returns (claimed: Record)
    requires StatusRun(s, a).1.Some? && StatusRun(s, a).1.value.claimed
    ensures LoadWard(s).1.Ok? && LoadWard(s).1.value.Some? && a.claim.Some? && a.ward.Some?
    ensures ClaimSaved(claimed, LoadWard(s).1.value.value, a.claim.value, a.ward.value, a.claimedAt)
    ensures var final := Stored(s, StatusRun(s, a).0);
            if a.refresh.Some? then exists rec :: Holds(final, rec) && RefreshSaved(rec, claimed, a.refresh.value, a.refreshedAt)
            else Holds(final, claimed)
  {
    StatusParts(s, a);
    LoadedSettled(s);
    var s1 := LoadWard(s).0;
    var stored := LoadWard(s).1.value.value;
    SecondLoad(s);
    claimed := ConversionSaves(s1, a.status, a);
    var e1 := DraftPart(s1, FromRecord(stored), a).0;
    WardPartSaves(Stored(s1, e1), Finalized(s1, a.status, a).1.ward, a);
  }

  /** What the status command reports. */
  lemma ReportExactly(s: State, a: Answers)
    requires StatusRun(s, a).1.Some?
    ensures var report := StatusRun(s, a).1.value;
            var loaded := LoadWard(s).1;
            && loaded.Ok?
            && (loaded.value.None? ==> report == Report(None, false, false, false))
            && (loaded.value.Some? && loaded.value.value.wardId != "" && loaded.value.value.wardSecret != "" ==>
                  && !report.claimed && (report.refreshed <==> a.refresh.Some?) && (report.problem <==> a.refresh.None?))
            && (loaded.value.Some? && Awaiting(loaded.value.value) && !report.claimed ==>
                  && (report.refreshed <==> !a.status.StatusError?) && (report.problem <==> a.status.StatusError?))
            && (report.claimed ==> report.refreshed && (report.problem <==> a.refresh.None?))
  {
  }

  /** The runtime reported is the one stored. */
  lemma ReportedIsStored(s: State, a: Answers)
    requires StatusRun(s, a).1.Some? && LoadWard(s).1.value.Some?
    ensures var reported := StatusRun(s, a).1.value.runtime;
            var final := Stored(s, StatusRun(s, a).0);
            && reported.Some?
            && (Holds(final, Normalise(ToRecord(reported.value)))
                || (final == LoadWard(s).0 && reported.value == FromRecord(LoadWard(s).1.value.value)))
  {
    StatusParts(s, a);
    LoadedSettled(s);
    var (s1, loaded) := LoadWard(s);
    var (e1, r1, claimed) := DraftPart(s1, FromRecord(loaded.value.value), a);
    DraftPartStores(s, FromRecord(loaded.value.value), a);
    WardPartStores(Stored(s1, e1), r1.value, a);
  }

  lemma WardPartStores(s: State, r: Runtime, a: Answers)
    requires s.cursor.Some? && WardPart(s, r, a).1.Some?
    ensures var (es, last) := WardPart(s, r, a);
            && Stored(s, es).cursor.Some?
            && (if es == [] then Stored(s, es) == s && last.value == r else Holds(Stored(s, es), Normalise(ToRecord(last.value))))
  {
    if WardPart(s, r, a).0 != [] {
      OneSaveStored(s, WardPart(s, r, a).1.value);
      SaveHolds(s, WardPart(s, r, a).1.value);
    }
  }

  lemma DraftPartStores(s: State, r: Runtime, a: Answers)
    requires LoadWard(s).1.Ok? && LoadWard(s).1.value.Some? && r == FromRecord(LoadWard(s).1.value.value)
    requires DraftPart(LoadWard(s).0, r, a).1.Some?
    ensures var s1 := LoadWard(s).0;
            var (es, last, _) := DraftPart(s1, r, a);
            && Stored(s1, es).cursor.Some?
            && (Holds(Stored(s1, es), Normalise(ToRecord(last.value))) || (Stored(s1, es) == s1 && last.value == r))
  {
    LoadedSettled(s);
    SecondLoad(s);
    var s1 := LoadWard(s).0;
    var (es, last, claimed) := DraftPart(s1, r, a);
    if claimed {
      var rec := ConversionSaves(s1, a.status, a);
    } else if Unclaimed(r) && a.status.StatusIs? && !Convertible(a.status) {
      OneSaveStored(s1, last.value);
      SaveHolds(s1, last.value);
    } else if es != [] {
      ConvertsExactly(s1, a.status, a);
    }
  }

  /** Loading again finds the same record, at the same cursor. */
  lemma SecondLoad(s: State)
    requires LoadWard(s).1.Ok? && LoadWard(s).1.value.Some?
    ensures LoadWard(LoadWard(s).0) == LoadWard(s)
  {
    LoadedSettled(s);
  }

  /** The heartbeat of a ward whose save succeeds leaves the answer on disk. */
  lemma BeatSaves(s: State, r: Runtime, hb: Heartbeat, now: int)
    requires s.cursor.Some? && !SaveFails(s, Beaten(r, hb, now))
    ensures exists rec :: Holds(SaveWard(s, ToRecord(Beaten(r, hb, now))).0, rec) && BeatSaved(rec, r, hb, now)
  {
    SaveHolds(s, Beaten(r, hb, now));
    assert BeatSaved(Normalise(ToRecord(Beaten(r, hb, now))), r, hb, now);
  }

  /** The check before serving saves the status but keeps the local upstream, ingress and domain. */
  lemma CheckSaves(s: State, r: Runtime, ward: WardView, now: int)
    requires s.cursor.Some? && r.wardId != "" && Verifying(r, Some(ward), now).Some?
    requires !SaveFails(s, Verifying(r, Some(ward), now).value)
    ensures ward.status == "active" || ward.status == "expired" || ward.status == "suspended" || ward.status == "deleted"
    ensures var f := Verifying(r, Some(ward), now).value;
            && Holds(SaveWard(s, ToRecord(f)).0, Normalise(ToRecord(f)))
            && f.wardStatus == ward.status && f.lastRefreshedAt == now && f.updatedAt == now
            && f.upstream == r.upstream && f.ingress == r.ingress && f.domain == r.domain
            && f.wardId == r.wardId && f.wardSecret == r.wardSecret && f.jwtSecret == r.jwtSecret
            && (ward.status == "active" ==>
                  && f.spec == ward.spec && f.billingMode == ward.billingMode && f.activationMode == ward.activationMode
                  && f.expiresAt == (if ward.expiresAt.Some? then ward.expiresAt.value else r.expiresAt)
                  && f.keys == (if ward.keys.Some? then ward.keys.value else r.keys))
            && (ward.status != "active" ==> f.spec == r.spec && f.expiresAt == r.expiresAt && f.keys == r.keys)
  {
    SaveHolds(s, Verifying(r, Some(ward), now).value);
  }
}
