/**
 The platform certificate provider: when a refresh is due, and what each of its
 lock-protected sections does to the provider's fields.
 */
module CertProvider {
  import opened Wrappers
  import opened GoTime

  const DEFAULT_REFRESH_AFTER: int := HOUR
  const MIN_REFRESH_AFTER: int := 5 * MINUTE
  const SUCCESS_WINDOW: int := 24 * HOUR
  const BEFORE_EXPIRY: int := 14 * DAY
  const MAX_FAILURES: int := 5
  const COOLDOWN_MUL: int := 6

  /** A certificate as delivered, with the expiry and version that came with it. */
  datatype Material = Material(cert: nat, notAfter: Option<int>, version: string)

  /** What one fetch of TLS material produced; `seconds` is the platform's refresh hint. */
  datatype Outcome =
    | FetchError
    | EmptyResponse
    | BadMaterial(seconds: int)
    | Good(material: Material, seconds: int)

  datatype Served = Fallback | Platform(cert: nat)

  /** The fields guarded by the provider's mutex. */
  datatype Provider = Provider(
    platformCert: Option<nat>,
    notAfter: Option<int>,
    version: string,
    lastSuccess: Option<int>,
    nextAllowed: int,
    inFlight: bool,
    failures: nat)

  function Normalize(v: int): (r: int)
    ensures MIN_REFRESH_AFTER <= r
    ensures v > 0 ==> v <= r
    ensures v >= MIN_REFRESH_AFTER ==> r == v
    ensures v <= MAX_DURATION ==> r <= MAX_DURATION
  {
    if v <= 0 then DEFAULT_REFRESH_AFTER
    else if v < MIN_REFRESH_AFTER then MIN_REFRESH_AFTER
    else v
  }

  /** The normalised hint of a response, after the product with one second has wrapped. */
  function HintAfter(seconds: int): (r: int)
    ensures MIN_REFRESH_AFTER <= r <= MAX_DURATION
  {
    Normalize(Wrap64(seconds * SECOND))
  }

  function CurrentCertificate(p: Provider, now: int): Served {
    if p.platformCert.Some? && (p.notAfter.None? || now < p.notAfter.value)
    then Platform(p.platformCert.value)
    else Fallback
  }

  predicate ShouldRefresh(p: Provider, now: int) {
    && !p.inFlight
    && p.nextAllowed <= now
    && (|| CurrentCertificate(p, now) == Fallback
        || p.lastSuccess.None?
        || now - p.lastSuccess.value >= SUCCESS_WINDOW
        || (p.notAfter.Some? && p.notAfter.value - now <= BEFORE_EXPIRY))
  }

  function Backoff(failures: nat, refreshAfter: int): int {
    if failures >= MAX_FAILURES then Wrap64(refreshAfter * COOLDOWN_MUL) else refreshAfter
  }

  function AfterFailure(p: Provider, refreshAfter: int, now: int): Provider {
    p.(failures := p.failures + 1,
       nextAllowed := now + Backoff(p.failures + 1, Normalize(refreshAfter)))
  }

  function AfterSuccess(p: Provider, m: Material, seconds: int, now: int): Provider {
    p.(platformCert := Some(m.cert), notAfter := m.notAfter, version := m.version,
       lastSuccess := Some(now), nextAllowed := now + HintAfter(seconds), failures := 0)
  }

  /** The one locked update with which a refresh publishes its outcome. */
  function Published(p: Provider, outcome: Outcome, now: int): Provider {
    match outcome
    case FetchError => AfterFailure(p, DEFAULT_REFRESH_AFTER, now)
    case EmptyResponse => AfterFailure(p, DEFAULT_REFRESH_AFTER, now)
    case BadMaterial(seconds) => AfterFailure(p, HintAfter(seconds), now)
    case Good(m, seconds) => AfterSuccess(p, m, seconds, now)
  }

  function Initial(initial: Option<Material>, refreshAfter: int, now: int): Provider {
    match initial
    case None => Provider(None, None, "", None, now, false, 0)
    case Some(m) =>
      Provider(Some(m.cert), m.notAfter, m.version, Some(now), now + Normalize(refreshAfter), false, 0)
  }

  /** The decision in days and hours: an idle provider past its allowed time asks exactly for one of four reasons. */
  lemma DueExactly(p: Provider, now: int)
    ensures ShouldRefresh(p, now) <==>
              && !p.inFlight && p.nextAllowed <= now
              && (|| p.platformCert.None? || (p.notAfter.Some? && p.notAfter.value <= now)
                  || p.lastSuccess.None? || p.lastSuccess.value + 24 * HOUR <= now
                  || (p.notAfter.Some? && p.notAfter.value <= now + 14 * DAY))
  {
  }

  /** What is served: the platform certificate exactly while there is one that has not expired. */
  lemma ServedExactly(p: Provider, now: int)
    ensures (exists cert: nat :: CurrentCertificate(p, now) == Platform(cert) && p.platformCert == Some(cert))
            <==> p.platformCert.Some? && (p.notAfter == None || p.notAfter.value > now)
    ensures CurrentCertificate(p, now) == Fallback <==> !(p.platformCert.Some? && (p.notAfter == None || p.notAfter.value > now))
  {
  }

  /** A hint in range becomes itself between five minutes and ever, five minutes below, and an hour if there is none. */
  lemma HintExactly(seconds: int)
    requires -MAX_DURATION <= seconds * SECOND <= MAX_DURATION
    ensures HintAfter(seconds) == if seconds <= 0 then 1 * HOUR else if seconds < 300 then 5 * MINUTE else seconds * SECOND
  {
  }

  /** A failure keeps the certificate and waits an hour, or six from the fifth in a row on; a success starts afresh. */
  lemma OutcomesExactly(p: Provider, outcome: Outcome, now: int)
    ensures var q := Published(p, outcome, now);
            match outcome
            case Good(m, seconds) =>
              q == Provider(Some(m.cert), m.notAfter, m.version, Some(now), now + HintAfter(seconds), p.inFlight, 0)
            case BadMaterial(seconds) =>
              q == p.(failures := p.failures + 1, nextAllowed := q.nextAllowed)
              && (HintAfter(seconds) * 6 <= MAX_DURATION ==>
                    q.nextAllowed == now + if q.failures >= 5 then 6 * HintAfter(seconds) else HintAfter(seconds))
            case _ =>
              q == p.(failures := p.failures + 1, nextAllowed := now + if p.failures + 1 >= 5 then 6 * HOUR else 1 * HOUR)
  {
  }

  /** A provider that starts with a certificate waits for its hint; one without asks at once. */
  lemma InitialExactly(m: Material, refreshAfter: int, now: int)
    ensures var p := Initial(None, refreshAfter, now);
            && p.platformCert == None && p.lastSuccess == None && p.nextAllowed == now && !p.inFlight && p.failures == 0
    ensures ShouldRefresh(Initial(None, refreshAfter, now), now) && CurrentCertificate(Initial(None, refreshAfter, now), now) == Fallback
    ensures var p := Initial(Some(m), refreshAfter, now);
            && p.platformCert == Some(m.cert) && p.notAfter == m.notAfter && p.version == m.version
            && p.lastSuccess == Some(now) && !p.inFlight && p.failures == 0
            && p.nextAllowed == now + (if refreshAfter <= 0 then 1 * HOUR else if refreshAfter < 5 * MINUTE then 5 * MINUTE else refreshAfter)
  {
  }

  /** The cooldown product does not leave the duration range. */
  predicate HintFits(outcome: Outcome) {
    outcome.BadMaterial? ==> HintAfter(outcome.seconds) * COOLDOWN_MUL <= MAX_DURATION
  }

  /** The back-off hints for which the wrapped cooldown is still at least five minutes long. */
  predicate CooldownHolds(refreshAfter: int) {
    var c := refreshAfter * COOLDOWN_MUL;
    || c <= MAX_DURATION
    || TWO_64 + MIN_REFRESH_AFTER <= c <= TWO_64 + MAX_DURATION
    || 2 * TWO_64 + MIN_REFRESH_AFTER <= c <= 2 * TWO_64 + MAX_DURATION
  }

  /**
   The minimum spacing is kept by a failure exactly when it is not yet in cooldown, or the
   cooldown product stays in one of the three windows above.
   */
  lemma FailureKeepsSpacingExactly(p: Provider, refreshAfter: int, now: int)
    requires refreshAfter <= MAX_DURATION
    ensures AfterFailure(p, refreshAfter, now).nextAllowed >= now + MIN_REFRESH_AFTER
            <==> p.failures + 1 < MAX_FAILURES || CooldownHolds(Normalize(refreshAfter))
  {
  }

  /** A hint of sixty years wraps: the fifth failure then allows a refresh in the past. */
  lemma HugeHintBreaksSpacing(p: Provider, now: int)
    requires p.failures == 4
    ensures var seconds := 1_892_160_000;
            !HintFits(BadMaterial(seconds)) && Published(p, BadMaterial(seconds), now).nextAllowed < now
  {
  }

  /** The spacing owed after a refresh: half an hour from the fifth consecutive failure on. */
  function Spacing(failures: nat): int {
    if failures >= MAX_FAILURES then COOLDOWN_MUL * MIN_REFRESH_AFTER else MIN_REFRESH_AFTER
  }

  lemma PublishedKeepsSpacing(p: Provider, outcome: Outcome, now: int)
    requires HintFits(outcome)
    ensures var q := Published(p, outcome, now);
            && q.nextAllowed >= now + Spacing(q.failures)
            && q.inFlight == p.inFlight
  {
  }

  class PlatformCertProvider {
    var platformCert: Option<nat>
    var platformCertNotAfter: Option<int>
    var lastSuccessAt: Option<int>
    var nextAllowedRefreshAt: int
    var refreshInFlight: bool
    var consecutiveFailures: nat
    var version: string

    ghost function View(): Provider
      reads this
    {
      Provider(platformCert, platformCertNotAfter, version, lastSuccessAt,
               nextAllowedRefreshAt, refreshInFlight, consecutiveFailures)
    }

    constructor (initial: Option<Material>, initialRefreshAfter: int, now: int)
      ensures View() == Initial(initial, initialRefreshAfter, now)
    {
      platformCert, platformCertNotAfter, version, lastSuccessAt := None, None, "", None;
      refreshInFlight, consecutiveFailures := false, 0;
      nextAllowedRefreshAt := now;
      if initial.Some? {
        platformCert := Some(initial.value.cert);
        platformCertNotAfter := initial.value.notAfter;
        lastSuccessAt := Some(now);
        nextAllowedRefreshAt := now + Normalize(initialRefreshAfter);
        version := initial.value.version;
      }
    }

    /** The section under the read lock that decides whether this handshake asks for a refresh. */
    method CheckDue(now: int) returns (due: bool)
      ensures due == ShouldRefresh(View(), now)
    {
      if refreshInFlight || now < nextAllowedRefreshAt {
        return false;
      }
      var current := Current(now);
      if current == Fallback {
        return true;
      }
      if lastSuccessAt.None? || now - lastSuccessAt.value >= SUCCESS_WINDOW {
        return true;
      }
      if platformCertNotAfter.Some? && platformCertNotAfter.value - now <= BEFORE_EXPIRY {
        return true;
      }
      return false;
    }

    method Current(now: int) returns (served: Served)
      ensures served == CurrentCertificate(View(), now)
    {
      if platformCert.Some? {
        if platformCertNotAfter.None? || now < platformCertNotAfter.value {
          return Platform(platformCert.value);
        }
      }
      return Fallback;
    }

    /** The section under the write lock; `started` is true when a refresh goroutine is spawned. */
    method StartRefresh() returns (started: bool)
      modifies this
      ensures started == !old(View()).inFlight
      ensures View() == old(View()).(inFlight := true)
    {
      if refreshInFlight {
        return false;
      }
      refreshInFlight := true;
      return true;
    }

    /** What the goroutine does once its fetch has returned and it has read the clock. */
    method Refresh(outcome: Outcome, now: int)
      modifies this
      ensures View() == Published(old(View()), outcome, now)
    {
      match outcome
      case FetchError => MarkRefreshFailure(DEFAULT_REFRESH_AFTER, now);
      case EmptyResponse => MarkRefreshFailure(DEFAULT_REFRESH_AFTER, now);
      case BadMaterial(seconds) => MarkRefreshFailure(HintAfter(seconds), now);
      case Good(m, seconds) =>
        platformCert := Some(m.cert);
        platformCertNotAfter := m.notAfter;
        lastSuccessAt := Some(now);
        nextAllowedRefreshAt := now + HintAfter(seconds);
        consecutiveFailures := 0;
        version := m.version;
    }

    method MarkRefreshFailure(refreshAfter: int, now: int)
      modifies this
      ensures View() == AfterFailure(old(View()), refreshAfter, now)
    {
      var after := Normalize(refreshAfter);
      consecutiveFailures := consecutiveFailures + 1;
      if consecutiveFailures >= MAX_FAILURES {
        nextAllowedRefreshAt := now + Wrap64(after * COOLDOWN_MUL);
        return;
      }
      nextAllowedRefreshAt := now + after;
    }

    /** The deferred section that ends a refresh goroutine. */
    method FinishRefresh()
      modifies this
      ensures View() == old(View()).(inFlight := false)
    {
      refreshInFlight := false;
    }
  }
}
