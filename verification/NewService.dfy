/**
 Setting up and submitting a ward: the journal of platform calls, generated secrets and
 saves that `warded new` produces, and the methods that produce it.
 */
module NewService {
  import opened Wrappers
  import opened Records
  import opened RuntimeObject
  import opened Store
  import opened StoreNaming
  import opened Lifecycle
  import PendingConfig

  /** An answer to a status query; `stale` marks the two error codes that void a draft. */
  datatype StatusAnswer = StatusError(stale: bool) | NoStatus | StatusIs(status: string)

  datatype CreateAnswer = Refused(stale: bool) | Accepted(reply: DraftReply)

  /** Everything `Execute` learns from outside: answers, random secrets, clock readings. */
  datatype Outside = Outside(
    status: StatusAnswer, first: CreateAnswer, second: CreateAnswer,
    jwt: string, secret: string, retry: string,
    clearedAt: int, retriedAt: int, now: int)

  type Link = string -> string

  // ---------------------------------------------------------------- the input

  /** What `Execute` is given, before validation; the upstream's port is derived from its address. */
  datatype Submission = Submission(
    site: string, spec: string, billingMode: string, domainKind: string, requestedDomain: string,
    upstream: UpstreamSpec, ingress: IngressSpec, publicBaseURL: string)

  datatype InputError =
    | SpecInvalid | StarterNeedsSubdomain | DomainKindInvalid | DomainRequired | DomainNotFull
    | ProxyNeedsCustomDomain | BillingInvalid

  function SpecFault(spec: string, kind: string, requested: string): Option<InputError> {
    if spec == STARTER then if kind == PLATFORM_SUBDOMAIN then None else Some(StarterNeedsSubdomain)
    else if spec != PRO then Some(SpecInvalid)
    else if kind != PLATFORM_SUBDOMAIN && kind != CUSTOM_DOMAIN then Some(DomainKindInvalid)
    else if requested == "" then Some(DomainRequired)
    else if '/' in requested || '.' !in requested then Some(DomainNotFull)
    else None
  }

  function DefaultedIngress(i: IngressSpec): IngressSpec {
    var mode := OrString(i.mode, STANDALONE);
    var port := OrPort(i.listenPort, 443);
    IngressSpec(mode, mode != BEHIND_PROXY, port, OrString(i.listenHost, PendingConfig.ANY_HOST), OrString(i.family, "ipv4"),
                OrPort(i.publicPort, if mode == STANDALONE then port else 443), i.trustedProxyCIDRs)
  }

  function InputFault(sub: Submission): Option<InputError> {
    if SpecFault(sub.spec, sub.domainKind, sub.requestedDomain).Some?
    then SpecFault(sub.spec, sub.domainKind, sub.requestedDomain)
    else if DefaultedIngress(sub.ingress).mode == BEHIND_PROXY && sub.domainKind == PLATFORM_SUBDOMAIN then Some(ProxyNeedsCustomDomain)
    else if sub.billingMode != "monthly" && sub.billingMode != "yearly" then Some(BillingInvalid)
    else None
  }

  /** The defaulted input, or the first fault. */
  function Validated(sub: Submission, portOf: string -> int): (r: Result<DraftInput, InputError>)
    ensures r.Ok? ==>
              && r.value.ingress.listenPort > 0 && r.value.ingress.publicPort > 0
              && (r.value.ingress.serveTLS <==> r.value.ingress.mode != BEHIND_PROXY)
              && (!r.value.ingress.serveTLS ==> r.value.domainKind == CUSTOM_DOMAIN && r.value.spec == PRO)
  {
    var addr := OrString(sub.upstream.addr, PendingConfig.DEFAULT_UPSTREAM);
    if InputFault(sub).Some? then Err(InputFault(sub).value)
    else Ok(DraftInput(sub.site, sub.spec, sub.billingMode, sub.domainKind, TLSModeFor(sub.domainKind).value,
                       UpstreamSpec(addr, portOf(addr), sub.upstream.mode, sub.upstream.command),
                       DefaultedIngress(sub.ingress), sub.publicBaseURL))
  }

  /** Which submissions are accepted. */
  lemma ValidatedExactly(sub: Submission, portOf: string -> int)
    ensures Validated(sub, portOf).Ok? <==>
              && (sub.billingMode == "monthly" || sub.billingMode == "yearly")
              && (sub.ingress.mode == "behind_proxy" ==> sub.domainKind == "custom_domain")
              && ((sub.spec == "starter" && sub.domainKind == "platform_subdomain")
                  || (sub.spec == "pro" && (sub.domainKind == "platform_subdomain" || sub.domainKind == "custom_domain")
                      && sub.requestedDomain != "" && '/' !in sub.requestedDomain && '.' in sub.requestedDomain))
  {
  }

  /** A refusal names something that is wrong. */
  lemma FaultsHold(sub: Submission, portOf: string -> int)
    requires Validated(sub, portOf).Err?
    ensures match Validated(sub, portOf).error
            case SpecInvalid => sub.spec != "starter" && sub.spec != "pro"
            case StarterNeedsSubdomain => sub.spec == "starter" && sub.domainKind != "platform_subdomain"
            case DomainKindInvalid => sub.spec == "pro" && sub.domainKind != "platform_subdomain" && sub.domainKind != "custom_domain"
            case DomainRequired => sub.spec == "pro" && sub.requestedDomain == ""
            case DomainNotFull => sub.spec == "pro" && ('/' in sub.requestedDomain || '.' !in sub.requestedDomain)
            case ProxyNeedsCustomDomain => sub.ingress.mode == "behind_proxy" && sub.domainKind == "platform_subdomain"
            case BillingInvalid => sub.billingMode != "monthly" && sub.billingMode != "yearly"
  {
  }

  /** What an accepted submission becomes: what is given is kept, what is not has its default. */
  lemma ValidatedContents(sub: Submission, portOf: string -> int)
    requires Validated(sub, portOf).Ok?
    ensures var v := Validated(sub, portOf).value;
            && v.site == sub.site && v.spec == sub.spec && v.billingMode == sub.billingMode && v.domainKind == sub.domainKind
            && v.tlsMode == (if sub.domainKind == "custom_domain" then "local_acme" else "platform_wildcard")
            && v.upstream.addr == (if sub.upstream.addr == "" then "127.0.0.1:18789" else sub.upstream.addr)
            && v.upstream.port == portOf(v.upstream.addr) && v.upstream.mode == sub.upstream.mode
            && v.upstream.command == sub.upstream.command && v.publicBaseURL == sub.publicBaseURL
            && v.ingress.mode == (if sub.ingress.mode == "" then "standalone" else sub.ingress.mode)
            && v.ingress.listenPort == (if sub.ingress.listenPort <= 0 then 443 else sub.ingress.listenPort)
            && v.ingress.listenHost == (if sub.ingress.listenHost == "" then "0.0.0.0" else sub.ingress.listenHost)
            && v.ingress.family == (if sub.ingress.family == "" then "ipv4" else sub.ingress.family)
            && (sub.ingress.publicPort > 0 ==> v.ingress.publicPort == sub.ingress.publicPort)
            && (sub.ingress.publicPort <= 0 ==> v.ingress.publicPort == if v.ingress.mode == "standalone" then v.ingress.listenPort else 443)
            && v.ingress.trustedProxyCIDRs == sub.ingress.trustedProxyCIDRs
  {
  }

  // ---------------------------------------------------------------- the journal

  function Opened(pending: Option<Record>, input: DraftInput): Runtime {
    if pending.Some? then FromRecord(pending.value)
    else EMPTY_RUNTIME.(site := input.site, wardStatus := INITIALIZING, ingress := input.ingress)
  }

  predicate DraftPending(r: Runtime) {
    r.wardDraftId != "" && r.wardId == ""
  }

  predicate Voided(a: StatusAnswer) {
    a == StatusError(true) || a == StatusIs("expired") || a == StatusIs("failed")
  }

  function Save(r: Runtime): Entry {
    Complete(SavePendingOp(ToRecord(r)))
  }

  /** A draft that the platform calls void is forgotten, and that is saved at once. */
  function AfterStatus(r: Runtime, o: Outside): (Runtime, seq<Entry>) {
    if DraftPending(r) && Voided(o.status)
    then var c := DraftCleared(r).(updatedAt := o.clearedAt); (c, [Save(c)])
    else (r, [])
  }

  function WithSecrets(r: Runtime, o: Outside): (Runtime, seq<Entry>) {
    var j := r.(jwtSecret := OrString(r.jwtSecret, o.jwt));
    if j.wardDraftSecret != "" then (j, [])
    else (j.(wardDraftSecret := o.secret), [Mint(o.secret, j.jwtSecret)])
  }

  function Retried(r: Runtime, o: Outside): Runtime {
    DraftCleared(r).(wardDraftSecret := o.retry, updatedAt := o.retriedAt)
  }

  function Asked(r: Runtime, sha: Hash, a: CreateAnswer): Entry {
    AskCreate(sha(r.wardDraftSecret), if a.Accepted? then Some(a.reply.draftId) else None)
  }

  function Finished(r: Runtime, input: DraftInput, reply: DraftReply, link: Link, now: int): Runtime {
    Drafted(r, input, reply, link(reply.draftId), now)
  }

  /** The create call, and at most one retry under a fresh secret that is saved first. */
  function Submitted(r: Runtime, input: DraftInput, o: Outside, sha: Hash, link: Link): (seq<Entry>, Option<Runtime>) {
    match o.first
    case Accepted(reply) =>
      var f := Finished(r, input, reply, link, o.now);
      ([Asked(r, sha, o.first), Save(f)], Some(f))
    case Refused(false) => ([Asked(r, sha, o.first)], None)
    case Refused(true) =>
      var q := Retried(r, o);
      var es := [Asked(r, sha, o.first), Mint(o.retry, q.jwtSecret), Save(q), Asked(q, sha, o.second)];
      if o.second.Refused? then (es, None)
      else
        var f := Finished(q, input, o.second.reply, link, o.now);
        (es + [Save(f)], Some(f))
  }

  /** The whole journal of `Execute`, and the runtime it saved last if it succeeded. */
  function Executed(pending: Option<Record>, input: DraftInput, o: Outside, sha: Hash, link: Link): (seq<Entry>, Option<Runtime>) {
    var r := Opened(pending, input);
    if DraftPending(r) && o.status == StatusError(false) then ([], None)
    else
      var (r1, e1) := AfterStatus(r, o);
      var (r2, e2) := WithSecrets(r1, o);
      var (e3, out) := Submitted(r2, input, o, sha, link);
      (e1 + e2 + e3, out)
  }

  function Creates(es: seq<Entry>): nat {
    if es == [] then 0 else (if es[0].AskCreate? then 1 else 0) + Creates(es[1..])
  }

  lemma {:induction false} CreatesAppend(a: seq<Entry>, b: seq<Entry>)
    ensures Creates(a + b) == Creates(a) + Creates(b)
  {
    if a == [] {
      assert a + b == b;
    } else {
      assert (a + b)[1..] == a[1..] + b;
      CreatesAppend(a[1..], b);
    }
  }

  lemma {:induction false} CreatesAt(es: seq<Entry>, at: set<nat>)
    requires forall i :: 0 <= i < |es| && es[i].AskCreate? ==> i in at
    ensures Creates(es) <= |at|
    decreases |es|
  {
    if es != [] {
      var last := |es| - 1;
      assert es == es[..last] + [es[last]];
      CreatesAppend(es[..last], [es[last]]);
      assert [es[last]][1..] == [];
      if es[last].AskCreate? {
        CreatesAt(es[..last], at - {last});
      } else {
        CreatesAt(es[..last], at);
      }
    }
  }

  lemma NoCreates(es: seq<Entry>)
    requires forall i :: 0 <= i < |es| ==> !es[i].AskCreate?
    ensures Creates(es) == 0
  {
  }

  lemma NoCreateBefore(r: Runtime, o: Outside, m: nat)
    requires var (r1, e1) := AfterStatus(r, o); m < |e1 + WithSecrets(r1, o).1|
    ensures var (r1, e1) := AfterStatus(r, o); !(e1 + WithSecrets(r1, o).1)[m].AskCreate?
  {
  }

  lemma SubmittedCreates(r: Runtime, input: DraftInput, o: Outside, sha: Hash, link: Link)
    ensures Creates(Submitted(r, input, o, sha, link).0) <= 2
  {
    CreatesAt(Submitted(r, input, o, sha, link).0, {0, 3});
  }

  /** One call of `Execute` sends at most two create requests. */
  lemma AtMostTwoCreates(pending: Option<Record>, input: DraftInput, o: Outside, sha: Hash, link: Link)
    ensures Creates(Executed(pending, input, o, sha, link).0) <= 2
  {
    var r := Opened(pending, input);
    var (r1, e1) := AfterStatus(r, o);
    var (r2, e2) := WithSecrets(r1, o);
    forall m | 0 <= m < |e1 + e2| ensures !(e1 + e2)[m].AskCreate? {
      NoCreateBefore(r, o, m);
    }
    NoCreates(e1 + e2);
    SubmittedCreates(r2, input, o, sha, link);
    CreatesAppend(e1 + e2, Submitted(r2, input, o, sha, link).0);
  }

  // ---------------------------------------------------------------- the journal is sound

  lemma Cons(w: World, e: Entry, es: seq<Entry>, sha: Hash)
    ensures PlayAll(w, [e] + es) == PlayAll(Play(w, e), es)
    ensures AllHonest(w, [e] + es) <==> Honest(w, e) && AllHonest(Play(w, e), es)
    ensures AllSound(w, [e] + es, sha) <==> Sound(w, e, sha) && AllSound(Play(w, e), es, sha)
  {
  }

  /** A runtime of the pending slot whose credentials agree with the registry. */
  predicate Fit(r: Runtime, reg: Registry, sha: Hash) {
    Good(ToRecord(r), reg, sha) && r.wardId == ""
  }

  lemma VoidedDraftSound(w: World, r: Runtime, o: Outside, sha: Hash)
    requires Fit(r, w.reg, sha)
    ensures var (r1, e1) := AfterStatus(r, o);
            Fit(r1, w.reg, sha) && PlayAll(w, e1).reg == w.reg && AllSound(w, e1, sha)
  {
  }

  lemma SecretsSound(w: World, r: Runtime, o: Outside, sha: Hash)
    requires Fit(r, w.reg, sha) && o.jwt != ""
    requires AllHonest(w, WithSecrets(r, o).1)
    ensures var (r2, e2) := WithSecrets(r, o);
            AllSound(w, e2, sha) && Fit(r2, PlayAll(w, e2).reg, sha) && r2.wardDraftSecret != ""
  {
  }

  /** After an accepted create for the runtime's own challenge, the finished runtime may be saved. */
  lemma FinishSound(w: World, r: Runtime, input: DraftInput, reply: DraftReply, link: Link, now: int, sha: Hash)
    requires Fit(r, w.reg, sha) && r.wardDraftSecret != ""
    requires Honest(w, AskCreate(sha(r.wardDraftSecret), Some(reply.draftId)))
    ensures var v := Play(w, AskCreate(sha(r.wardDraftSecret), Some(reply.draftId)));
            Fit(Finished(r, input, reply, link, now), v.reg, sha)
            && AllSound(v, [Save(Finished(r, input, reply, link, now))], sha)
  {
  }

  lemma RetrySound(w: World, q: Runtime, input: DraftInput, o: Outside, sha: Hash, link: Link)
    requires Fit(q, w.reg, sha) && q.wardDraftSecret != ""
    requires AllHonest(w, RetryTail(q, input, o, sha, link))
    ensures AllSound(w, RetryTail(q, input, o, sha, link), sha)
  {
    var ask := Asked(q, sha, o.second);
    var rest := RetryTail(q, input, o, sha, link)[2..];
    assert RetryTail(q, input, o, sha, link) == [Save(q)] + ([ask] + rest);
    Cons(w, Save(q), [ask] + rest, sha);
    var v := Play(w, Save(q));
    Cons(v, ask, rest, sha);
    if o.second.Accepted? {
      FinishSound(v, q, input, o.second.reply, link, o.now, sha);
    }
  }

  /** The retry after its secret is minted: save, create again, save what came back. */
  function RetryTail(q: Runtime, input: DraftInput, o: Outside, sha: Hash, link: Link): seq<Entry> {
    [Save(q), Asked(q, sha, o.second)]
    + if o.second.Refused? then [] else [Save(Finished(q, input, o.second.reply, link, o.now))]
  }

  lemma SubmitSound(w: World, r: Runtime, input: DraftInput, o: Outside, sha: Hash, link: Link)
    requires Fit(r, w.reg, sha) && r.wardDraftSecret != ""
    requires AllHonest(w, Submitted(r, input, o, sha, link).0)
    ensures AllSound(w, Submitted(r, input, o, sha, link).0, sha)
  {
    var es := Submitted(r, input, o, sha, link).0;
    var ask := Asked(r, sha, o.first);
    assert es == [ask] + es[1..];
    Cons(w, ask, es[1..], sha);
    match o.first {
      case Accepted(reply) =>
        FinishSound(w, r, input, reply, link, o.now, sha);
        assert es[1..] == [Save(Finished(r, input, reply, link, o.now))];
      case Refused(stale) =>
        if stale {
          var q := Retried(r, o);
          var mint := Mint(o.retry, q.jwtSecret);
          assert es[1..] == [mint] + RetryTail(q, input, o, sha, link);
          Cons(w, mint, RetryTail(q, input, o, sha, link), sha);
          RetrySound(Play(w, mint), q, input, o, sha, link);
        }
    }
  }

  lemma OpenedFit(w: World, pending: Option<Record>, input: DraftInput, sha: Hash)
    requires Inv(w, sha) && Load(w.store.disk, PENDING) == Ok(pending)
    ensures Fit(Opened(pending, input), w.reg, sha)
  {
  }

  /** Every entry of `Execute`'s journal is one the client is entitled to, whatever the answers. */
  lemma ExecuteSound(w: World, pending: Option<Record>, input: DraftInput, o: Outside, sha: Hash, link: Link)
    requires Inv(w, sha) && Load(w.store.disk, PENDING) == Ok(pending) && o.jwt != ""
    requires AllHonest(w, Executed(pending, input, o, sha, link).0)
    ensures AllSound(w, Executed(pending, input, o, sha, link).0, sha)
  {
    var r := Opened(pending, input);
    OpenedFit(w, pending, input, sha);
    if !(DraftPending(r) && o.status == StatusError(false)) {
      var (r1, e1) := AfterStatus(r, o);
      var (r2, e2) := WithSecrets(r1, o);
      var e3 := Submitted(r2, input, o, sha, link).0;
      PlayAppend(w, e1 + e2, e3, sha);
      PlayAppend(w, e1, e2, sha);
      VoidedDraftSound(w, r, o, sha);
      var w1 := PlayAll(w, e1);
      SecretsSound(w1, r1, o, sha);
      SubmitSound(PlayAll(w1, e2), r2, input, o, sha, link);
    }
  }

  /** The pending record on disk, if it names a draft, has its challenge on the platform. */
  predicate PendingRegistered(v: World, sha: Hash) {
    PENDING in v.store.disk && v.store.disk[PENDING].file.Whole? ==>
      var r := v.store.disk[PENDING].file.record;
      r.wardDraftId != "" ==> r.wardDraftId in v.reg.drafts && v.reg.drafts[r.wardDraftId] == sha(r.wardDraftSecret)
  }

  lemma PrefixKeeps(w: World, es: seq<Entry>, n: nat, sha: Hash)
    requires Inv(w, sha) && Injective(sha) && AllHonest(w, es) && AllSound(w, es, sha) && n <= |es|
    ensures Inv(PlayAll(w, es[..n]), sha)
  {
    assert es == es[..n] + es[n..];
    PlayAppend(w, es[..n], es[n..], sha);
    InvRun(w, es[..n], sha);
  }

  lemma InvRegisters(v: World, sha: Hash)
    requires Inv(v, sha)
    ensures PendingRegistered(v, sha)
  {
  }

  /** The draft-secret invariant holds after any part of `Execute`. */
  lemma ExecuteKeepsChallenge(w: World, pending: Option<Record>, input: DraftInput, o: Outside, sha: Hash, link: Link, n: nat)
    requires Inv(w, sha) && Injective(sha) && Load(w.store.disk, PENDING) == Ok(pending) && o.jwt != ""
    requires n <= |Executed(pending, input, o, sha, link).0|
    requires AllHonest(w, Executed(pending, input, o, sha, link).0)
    ensures var v := PlayAll(w, Executed(pending, input, o, sha, link).0[..n]);
            Inv(v, sha) && PendingRegistered(v, sha)
  {
    var es := Executed(pending, input, o, sha, link).0;
    ExecuteSound(w, pending, input, o, sha, link);
    PrefixKeeps(w, es, n, sha);
    InvRegisters(PlayAll(w, es[..n]), sha);
  }

  /** A second create call stands right after the save of the record whose challenge it sends. */
  lemma SecondCreate(r: Runtime, input: DraftInput, o: Outside, sha: Hash, link: Link, i: nat, j: nat)
    requires var e3 := Submitted(r, input, o, sha, link).0; i < j < |e3| && e3[i].AskCreate? && e3[j].AskCreate?
    ensures var e3 := Submitted(r, input, o, sha, link).0;
            j == 3 && e3[j - 1] == Save(Retried(r, o)) && e3[j].challenge == sha(o.retry)
  {
  }

  lemma SavedByLast(w: World, es: seq<Entry>, q: Runtime, sha: Hash)
    ensures var disk := PlayAll(w, es + [Save(q)]).store.disk;
            PENDING in disk && disk[PENDING].file.Whole? && disk[PENDING].file.record.wardDraftSecret == q.wardDraftSecret
  {
    PlayAppend(w, es, [Save(q)], sha);
    Cons(PlayAll(w, es), Save(q), [], sha);
    assert [Save(q)] + [] == [Save(q)];
  }

  /** When the second challenge is sent, the record on disk already holds its secret. */
  lemma RetrySecretIsOnDisk(w: World, pending: Option<Record>, input: DraftInput, o: Outside, sha: Hash, link: Link, i: nat, j: nat)
    requires var es := Executed(pending, input, o, sha, link).0;
             i < j < |es| && es[i].AskCreate? && es[j].AskCreate?
    ensures var es := Executed(pending, input, o, sha, link).0;
            var disk := PlayAll(w, es[..j]).store.disk;
            && PENDING in disk && disk[PENDING].file.Whole?
            && sha(disk[PENDING].file.record.wardDraftSecret) == es[j].challenge
  {
    var r := Opened(pending, input);
    var (r1, e1) := AfterStatus(r, o);
    var (r2, e2) := WithSecrets(r1, o);
    var e3 := Submitted(r2, input, o, sha, link).0;
    var es := Executed(pending, input, o, sha, link).0;
    assert es == e1 + e2 + e3;
    var k := |e1 + e2|;
    if i < k { NoCreateBefore(r, o, i); }
    if j < k { NoCreateBefore(r, o, j); }
    SecondCreate(r2, input, o, sha, link, i - k, j - k);
    assert es[..j] == es[..j - 1] + [Save(Retried(r2, o))];
    SavedByLast(w, es[..j - 1], Retried(r2, o), sha);
  }

  /** The pending record on disk holds the secret of the challenge. */
  predicate SecretOnDisk(disk: Disk, challenge: string, sha: Hash) {
    PENDING in disk && disk[PENDING].file.Whole? && sha(disk[PENDING].file.record.wardDraftSecret) == challenge
  }

  /** `Execute` finds a secret and does not forget it. */
  predicate KeepsSecret(pending: Option<Record>, o: Outside) {
    && pending.Some? && pending.value.wardDraftSecret != ""
    && !(DraftPending(FromRecord(pending.value)) && Voided(o.status))
  }

  /** The entries before the first create, with the runtime that asks. */
  function BeforeCreate(pending: Option<Record>, input: DraftInput, o: Outside): (Runtime, seq<Entry>) {
    var (r1, e1) := AfterStatus(Opened(pending, input), o);
    var (r2, e2) := WithSecrets(r1, o);
    (r2, e1 + e2)
  }

  lemma FreshIsNotOnDisk(w: World, secret: string, sha: Hash)
    requires Inv(w, sha) && Injective(sha) && secret != "" && secret !in w.reg.minted
    ensures !SecretOnDisk(w.store.disk, sha(secret), sha)
  {
  }

  lemma FirstCreate(pending: Option<Record>, input: DraftInput, o: Outside, sha: Hash, link: Link)
    requires !(DraftPending(Opened(pending, input)) && o.status == StatusError(false))
    ensures var (r, before) := BeforeCreate(pending, input, o);
            var es := Executed(pending, input, o, sha, link).0;
            |before| < |es| && es[..|before|] == before && es[|before|] == Asked(r, sha, o.first)
  {
  }

  /**
   By itself `Execute` sends its first challenge with the secret on disk exactly when the
   pending record has one and the platform does not void the draft; else it sends the
   challenge of a fresh secret that only the save after the answer writes.
   */
  lemma FirstSecretOnDiskExactly(w: World, pending: Option<Record>, input: DraftInput, o: Outside, sha: Hash, link: Link)
    requires Inv(w, sha) && Injective(sha) && Load(w.store.disk, PENDING) == Ok(pending)
    requires !(DraftPending(Opened(pending, input)) && o.status == StatusError(false))
    requires AllHonest(w, Executed(pending, input, o, sha, link).0)
    ensures var es := Executed(pending, input, o, sha, link).0;
            var k := |BeforeCreate(pending, input, o).1|;
            && k < |es| && es[k].AskCreate?
            && (SecretOnDisk(PlayAll(w, es[..k]).store.disk, es[k].challenge, sha) <==> KeepsSecret(pending, o))
  {
    FirstCreate(pending, input, o, sha, link);
    var before := BeforeCreate(pending, input, o).1;
    BeforeIsHonest(w, Executed(pending, input, o, sha, link).0, |before|, sha);
    if KeepsSecret(pending, o) {
      KeptSecretSaved(w, pending, input, o, sha);
    } else {
      FreshSecretUnsaved(w, pending, input, o, sha);
    }
  }

  lemma BeforeIsHonest(w: World, es: seq<Entry>, k: nat, sha: Hash)
    requires k <= |es| && AllHonest(w, es)
    ensures AllHonest(w, es[..k])
  {
    assert es == es[..k] + es[k..];
    PlayAppend(w, es[..k], es[k..], sha);
  }

  lemma KeptSecretSaved(w: World, pending: Option<Record>, input: DraftInput, o: Outside, sha: Hash)
    requires Load(w.store.disk, PENDING) == Ok(pending) && KeepsSecret(pending, o)
    ensures var (r, before) := BeforeCreate(pending, input, o);
            SecretOnDisk(PlayAll(w, before).store.disk, sha(r.wardDraftSecret), sha)
  {
    assert BeforeCreate(pending, input, o).1 == [];
  }

  lemma FreshSecretUnsaved(w: World, pending: Option<Record>, input: DraftInput, o: Outside, sha: Hash)
    requires Inv(w, sha) && Injective(sha) && Load(w.store.disk, PENDING) == Ok(pending) && !KeepsSecret(pending, o)
    requires AllHonest(w, BeforeCreate(pending, input, o).1)
    ensures var (r, before) := BeforeCreate(pending, input, o);
            !SecretOnDisk(PlayAll(w, before).store.disk, sha(r.wardDraftSecret), sha)
  {
    var (r1, e1) := AfterStatus(Opened(pending, input), o);
    var mint := Mint(o.secret, OrString(r1.jwtSecret, o.jwt));
    assert BeforeCreate(pending, input, o).1 == e1 + [mint];
    PlayAppend(w, e1, [mint], sha);
    var v := PlayAll(w, e1);
    Cons(v, mint, [], sha);
    assert [mint] + [] == [mint];
    OpenedFit(w, pending, input, sha);
    VoidedDraftSound(w, Opened(pending, input), o, sha);
    VoidedDraftHonest(w, Opened(pending, input), o);
    InvRun(w, e1, sha);
    FreshIsNotOnDisk(v, o.secret, sha);
  }

  lemma VoidedDraftHonest(w: World, r: Runtime, o: Outside)
    ensures AllHonest(w, AfterStatus(r, o).1)
  {
  }

  // ---------------------------------------------------------------- what a submission leaves behind

  /** The platform's word that a pending draft is void. */
  predicate SaysVoid(status: StatusAnswer) {
    match status
    case StatusError(stale) => stale
    case NoStatus => false
    case StatusIs(word) => word == "expired" || word == "failed"
  }

  /** A void draft, and only that, is forgotten and saved so before anything is sent. */
  lemma ForgottenExactly(r: Runtime, o: Outside)
    ensures var (c, es) := AfterStatus(r, o);
            var void := r.wardDraftId != "" && r.wardId == "" && SaysVoid(o.status);
            && c == (if void then r.(wardDraftId := "", wardDraftSecret := "", activationURL := "", updatedAt := o.clearedAt) else r)
            && es == (if void then [Complete(SavePendingOp(ToRecord(c)))] else [])
  {
  }

  /** Unless its draft's status cannot be had, an accepted submission reaches the platform. */
  lemma SubmissionCreates(pending: Option<Record>, input: DraftInput, o: Outside, sha: Hash, link: Link)
    requires !(pending.Some? && pending.value.wardDraftId != "" && pending.value.wardId == "" && o.status == StatusError(false))
    ensures Creates(Executed(pending, input, o, sha, link).0) >= 1
    ensures Executed(pending, input, o, sha, link).1.Some?
            <==> o.first.Accepted? || (o.first == Refused(true) && o.second.Accepted?)
  {
    FirstCreate(pending, input, o, sha, link);
    var es := Executed(pending, input, o, sha, link).0;
    HasCreate(es, |BeforeCreate(pending, input, o).1|);
  }

  lemma {:induction false} HasCreate(es: seq<Entry>, i: nat)
    requires i < |es| && es[i].AskCreate?
    ensures Creates(es) >= 1
  {
    if i > 0 {
      HasCreate(es[1..], i - 1);
    }
  }

  /** A submission starts from the pending record, or from an empty one with the site and ingress submitted. */
  lemma OpenedExactly(pending: Option<Record>, input: DraftInput)
    ensures pending.Some? ==> ToRecord(Opened(pending, input)).(version := pending.value.version, listenAddr := pending.value.listenAddr,
              lastPublicIPReportedAt := pending.value.lastPublicIPReportedAt, expiresAt := pending.value.expiresAt,
              lastCertRenewedAt := pending.value.lastCertRenewedAt, lastRefreshedAt := pending.value.lastRefreshedAt) == pending.value
    ensures pending.None? ==>
              var r := Opened(pending, input);
              && r.site == input.site && r.wardStatus == "initializing" && r.ingress == input.ingress
              && r.wardDraftId == "" && r.wardDraftSecret == "" && r.wardId == "" && r.jwtSecret == ""
  {
  }

  /** Before it asks again, a submission has saved what it asks with: the same setup without the stale draft. */
  lemma RetryExactly(r: Runtime, o: Outside)
    ensures Retried(r, o) == r.(wardDraftId := "", wardDraftSecret := o.retry, activationURL := "", updatedAt := o.retriedAt)
  {
  }

  /** What the pending slot holds of an accepted reply. */
  predicate HoldsReply(rec: Record, input: DraftInput, reply: DraftReply, link: Link, now: int) {
    && rec.site == input.site && rec.spec == input.spec && rec.billingMode == input.billingMode
    && rec.domain == DomainSpec(input.domainKind, reply.requestedDomain, "", input.tlsMode)
    && rec.upstream.addr == input.upstream.addr && rec.upstream.port == input.upstream.port && rec.upstream.command == input.upstream.command
    && (input.upstream.mode != "" ==> rec.upstream.mode == input.upstream.mode)
    && (input.ingress.mode != "" ==> rec.ingress.mode == input.ingress.mode)
    && (input.ingress.publicPort != 0 ==> rec.ingress.publicPort == input.ingress.publicPort)
    && rec.ingress.listenPort == input.ingress.listenPort && rec.ingress.listenHost == input.ingress.listenHost
    && rec.ingress.family == input.ingress.family && rec.ingress.trustedProxyCIDRs == input.ingress.trustedProxyCIDRs
    && rec.activationURL == link(reply.draftId) && rec.lastPublicIP == reply.publicIP && rec.updatedAt == now
    && rec.wardId == "" && rec.wardSecret == "" && rec.wardDraftSecret != ""
  }

  lemma FinishedHolds(r: Runtime, input: DraftInput, reply: DraftReply, link: Link, now: int)
    requires r.wardDraftSecret != ""
    ensures var rec := Normalise(ToRecord(Finished(r, input, reply, link, now)).(wardId := "", wardSecret := ""));
            && HoldsReply(rec, input, reply, link, now) && rec.wardDraftSecret == r.wardDraftSecret && rec.jwtSecret == r.jwtSecret
            && rec.wardDraftId == (if r.wardDraftId != "" then r.wardDraftId else reply.draftId)
            && rec.wardStatus == (if r.wardDraftId != "" then r.wardStatus else "initializing")
  {
  }

  /** A submission that succeeds leaves the reply on disk; a draft the platform still knows keeps its id. */
  lemma SubmissionStores(s: State, pending: Option<Record>, input: DraftInput, o: Outside, sha: Hash, link: Link)
    requires Executed(pending, input, o, sha, link).1.Some? && o.secret != "" && o.retry != ""
    ensures var disk := Stored(s, Executed(pending, input, o, sha, link).0).disk;
            var reply := if o.first.Accepted? then o.first.reply else o.second.reply;
            && PENDING in disk && disk[PENDING].file.Whole?
            && var rec := disk[PENDING].file.record;
               && rec == Normalise(ToRecord(Executed(pending, input, o, sha, link).1.value).(wardId := "", wardSecret := ""))
               && HoldsReply(rec, input, reply, link, o.now)
               && rec.wardDraftId == (if o.first.Accepted? && pending.Some? && pending.value.wardDraftId != ""
                                         && !(pending.value.wardId == "" && SaysVoid(o.status))
                                      then pending.value.wardDraftId else reply.draftId)
  {
    var es := Executed(pending, input, o, sha, link).0;
    var r := BeforeCreate(pending, input, o).0;
    var asker := if o.first.Accepted? then r else Retried(r, o);
    var reply := if o.first.Accepted? then o.first.reply else o.second.reply;
    LastSave(pending, input, o, sha, link);
    LastSaveStays(s, es, Finished(asker, input, reply, link, o.now));
    FinishedHolds(asker, input, reply, link, o.now);
    AskerDraft(pending, input, o);
  }

  lemma AskerDraft(pending: Option<Record>, input: DraftInput, o: Outside)
    requires o.secret != ""
    ensures var r := BeforeCreate(pending, input, o).0;
            && r.wardDraftSecret != ""
            && r.wardDraftId == (if pending.Some? && !(pending.value.wardDraftId != "" && pending.value.wardId == "" && SaysVoid(o.status))
                                 then pending.value.wardDraftId else "")
  {
    ForgottenExactly(Opened(pending, input), o);
  }

  lemma LastSave(pending: Option<Record>, input: DraftInput, o: Outside, sha: Hash, link: Link)
    requires Executed(pending, input, o, sha, link).1.Some?
    ensures var (es, out) := Executed(pending, input, o, sha, link);
            var r := BeforeCreate(pending, input, o).0;
            && |es| > 0 && es[|es| - 1] == Save(out.value) && (o.first.Accepted? || o.second.Accepted?)
            && es[|es| - 1] == Save(if o.first.Accepted? then Finished(r, input, o.first.reply, link, o.now)
                                    else Finished(Retried(r, o), input, o.second.reply, link, o.now))
  {
  }

  lemma LastSaveStays(s: State, es: seq<Entry>, q: Runtime)
    requires |es| > 0 && es[|es| - 1] == Save(q)
    ensures var disk := Stored(s, es).disk;
            && PENDING in disk && disk[PENDING].file == Whole(Normalise(ToRecord(q).(wardId := "", wardSecret := "")))
  {
    assert es == es[..|es| - 1] + [Save(q)];
    StoredSnoc(s, es[..|es| - 1], Save(q));
  }

  // ---------------------------------------------------------------- the methods

  /**
   Validates the input and submits the pending setup. The journal lists the generated
   secrets, platform calls and saves in the order in which they happen.
   */
  method Execute(store: JSONStore, sub: Submission, portOf: string -> int, o: Outside, sha: Hash, link: Link)
    returns (out: Option<Runtime>, ghost journal: seq<Entry>)
    modifies store, store.fs
    ensures var loaded := old(Load(store.fs.dirs, PENDING));
            var input := Validated(sub, portOf);
            (journal, out) == if input.Err? || loaded.Err? then ([], None)
                              else Executed(loaded.value, input.value, o, sha, link)
    ensures store.View() == Stored(old(store.View()), journal)
  {
    var input := ValidateInput(sub, portOf);
    if input.Err? {
      return None, [];
    }
    out, journal := ExecuteValid(store, input.value, o, sha, link);
  }

  method ValidateInput(sub: Submission, portOf: string -> int) returns (r: Result<DraftInput, InputError>)
    ensures r == Validated(sub, portOf)
  {
    var upstreamAddr, listenPort, listenHost := sub.upstream.addr, sub.ingress.listenPort, sub.ingress.listenHost;
    var family, mode, publicPort := sub.ingress.family, sub.ingress.mode, sub.ingress.publicPort;
    if upstreamAddr == "" { upstreamAddr := PendingConfig.DEFAULT_UPSTREAM; }
    if listenPort <= 0 { listenPort := 443; }
    if listenHost == "" { listenHost := PendingConfig.ANY_HOST; }
    if family == "" { family := "ipv4"; }
    if mode == "" { mode := STANDALONE; }
    var serveTLS := mode != BEHIND_PROXY;
    if publicPort <= 0 {
      if mode == STANDALONE { publicPort := listenPort; } else { publicPort := 443; }
    }
    var upstreamPort := portOf(upstreamAddr);
    var spec := SpecFault(sub.spec, sub.domainKind, sub.requestedDomain);
    if spec.Some? {
      return Err(spec.value);
    }
    if mode == BEHIND_PROXY && sub.domainKind == PLATFORM_SUBDOMAIN {
      return Err(ProxyNeedsCustomDomain);
    }
    if sub.billingMode != "monthly" && sub.billingMode != "yearly" {
      return Err(BillingInvalid);
    }
    var tlsMode := TLSModeFor(sub.domainKind);
    return Ok(DraftInput(sub.site, sub.spec, sub.billingMode, sub.domainKind, tlsMode.value,
                         UpstreamSpec(upstreamAddr, upstreamPort, sub.upstream.mode, sub.upstream.command),
                         IngressSpec(mode, serveTLS, listenPort, listenHost, family, publicPort, sub.ingress.trustedProxyCIDRs),
                         sub.publicBaseURL));
  }

  method ExecuteValid(store: JSONStore, input: DraftInput, o: Outside, sha: Hash, link: Link)
    returns (out: Option<Runtime>, ghost journal: seq<Entry>)
    modifies store, store.fs
    ensures var loaded := old(Load(store.fs.dirs, PENDING));
            (journal, out) == if loaded.Err? then ([], None) else Executed(loaded.value, input, o, sha, link)
    ensures store.View() == Stored(old(store.View()), journal)
  {
    var loaded := store.LoadPendingRuntime();
    if loaded.Err? {
      return None, [];
    }
    var record := loaded.value;
    var runtime: LocalWardRuntime;
    if record.None? {
      runtime := new LocalWardRuntime(EMPTY_RUNTIME.(site := input.site, wardStatus := INITIALIZING, ingress := input.ingress));
    } else {
      runtime := new LocalWardRuntime(FromRecord(record.value));
    }
    assert runtime.it == Opened(record, input);
    var go;
    ghost var e1;
    go, e1 := CheckDraft(store, runtime, o);
    if !go {
      return None, [];
    }
    ghost var e2 := FillSecrets(runtime, o);
    StoredAppend(old(store.View()), e1, e2);
    assert store.View() == Stored(old(store.View()), e1 + e2);
    ghost var e3;
    out, e3 := Submit(store, runtime, input, o, sha, link);
    StoredAppend(old(store.View()), e1 + e2, e3);
    journal := e1 + e2 + e3;
  }

  /** Asks for the status of a pending draft; `go` is false when the answer is an error that ends `Execute`. */
  method CheckDraft(store: JSONStore, runtime: LocalWardRuntime, o: Outside) returns (go: bool, ghost journal: seq<Entry>)
    modifies store, store.fs, runtime
    ensures go == !(DraftPending(old(runtime.it)) && o.status == StatusError(false))
    ensures go ==> (runtime.it, journal) == AfterStatus(old(runtime.it), o)
    ensures go ==> store.View() == Stored(old(store.View()), journal)
    ensures !go ==> store.View() == old(store.View())
  {
    journal := [];
    if runtime.it.wardDraftId != "" && runtime.it.wardId == "" {
      match o.status {
        case StatusError(stale) =>
          if !stale {
            return false, journal;
          }
          journal := ClearAndSave(store, runtime, o.clearedAt);
        case StatusIs(status) =>
          if status == "expired" || status == "failed" {
            journal := ClearAndSave(store, runtime, o.clearedAt);
          }
        case NoStatus =>
      }
    }
    return true, journal;
  }

  method ClearAndSave(store: JSONStore, runtime: LocalWardRuntime, now: int) returns (ghost journal: seq<Entry>)
    modifies store, store.fs, runtime
    ensures runtime.it == DraftCleared(old(runtime.it)).(updatedAt := now)
    ensures journal == [Save(runtime.it)]
    ensures store.View() == Stored(old(store.View()), journal)
  {
    runtime.ClearDraftState();
    runtime.it := runtime.it.(updatedAt := now);
    journal := [] + [Save(runtime.it)];
    StoredSnoc(store.View(), [], Save(runtime.it));
    store.SavePendingRuntime(ToRecord(runtime.it));
  }

  method FillSecrets(runtime: LocalWardRuntime, o: Outside) returns (ghost journal: seq<Entry>)
    modifies runtime
    ensures (runtime.it, journal) == WithSecrets(old(runtime.it), o)
    ensures forall s: State :: Stored(s, journal) == s
  {
    journal := [];
    if runtime.it.jwtSecret == "" {
      runtime.it := runtime.it.(jwtSecret := o.jwt);
    }
    if runtime.it.wardDraftSecret == "" {
      runtime.it := runtime.it.(wardDraftSecret := o.secret);
      journal := [Mint(o.secret, runtime.it.jwtSecret)];
    }
  }

  /** The create call with its one retry. */
  method Submit(store: JSONStore, runtime: LocalWardRuntime, input: DraftInput, o: Outside, sha: Hash, link: Link)
    returns (out: Option<Runtime>, ghost journal: seq<Entry>)
    modifies store, store.fs, runtime
    ensures (journal, out) == Submitted(old(runtime.it), input, o, sha, link)
    ensures store.View() == Stored(old(store.View()), journal)
  {
    journal := [Asked(runtime.it, sha, o.first)];
    assert Stored(store.View(), journal) == Stored(store.View(), []);
    var answer := o.first;
    if answer.Refused? && answer.stale {
      ghost var retry := Retry(store, runtime, o, sha);
      StoredAppend(old(store.View()), journal, retry);
      journal := journal + retry;
      answer := o.second;
    }
    assert Submitted(old(runtime.it), input, o, sha, link).0
           == if answer.Refused? then journal else journal + [Save(Finished(runtime.it, input, answer.reply, link, o.now))];
    if answer.Refused? {
      return None, journal;
    }
    runtime.ApplyCreateDraftResponse(input, answer.reply, link(answer.reply.draftId), o.now);
    StoredSnoc(old(store.View()), journal, Save(runtime.it));
    journal := journal + [Save(runtime.it)];
    store.SavePendingRuntime(ToRecord(runtime.it));
    out := Some(runtime.it);
  }

  /** Forgets the stale draft, saves a fresh secret, and only then sends its challenge. */
  method Retry(store: JSONStore, runtime: LocalWardRuntime, o: Outside, sha: Hash) returns (ghost journal: seq<Entry>)
    modifies store, store.fs, runtime
    ensures runtime.it == Retried(old(runtime.it), o)
    ensures journal == [Mint(o.retry, runtime.it.jwtSecret), Save(runtime.it), Asked(runtime.it, sha, o.second)]
    ensures store.View() == Stored(old(store.View()), journal)
  {
    runtime.ClearDraftState();
    runtime.it := runtime.it.(wardDraftSecret := o.retry);
    journal := [Mint(o.retry, runtime.it.jwtSecret)];
    runtime.it := runtime.it.(updatedAt := o.retriedAt);
    StoredSnoc(store.View(), journal, Save(runtime.it));
    assert Stored(store.View(), journal) == Stored(store.View(), []);
    journal := journal + [Save(runtime.it)];
    store.SavePendingRuntime(ToRecord(runtime.it));
    StoredSnoc(old(store.View()), journal, Asked(runtime.it, sha, o.second));
    journal := journal + [Asked(runtime.it, sha, o.second)];
  }

  lemma {:induction false} StoredAppend(s: State, a: seq<Entry>, b: seq<Entry>)
    ensures Stored(s, a + b) == Stored(Stored(s, a), b)
    decreases |a|
  {
    if a == [] {
      assert a + b == b;
    } else {
      assert (a + b)[0] == a[0] && (a + b)[1..] == a[1..] + b;
      StoredAppend(if a[0].Complete? then Apply(s, a[0].op) else s, a[1..], b);
    }
  }
}
