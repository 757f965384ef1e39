/**
 Every interleaving of TLS handshakes and refresh goroutines over one certificate
 provider. Each lock section and each clock reading is one event, so a handshake can be
 overtaken between its check and its start.
 */
module CertRuns {
  import opened Wrappers
  import opened GoTime
  import opened CertProvider

  /** `held` is the material the provider had when the handshake was served. */
  datatype Handshake =
    | Read(now: int)
    | Passed(now: int)
    | Serving(now: int)
    | Done(now: int, served: Served, held: Option<Material>)

  datatype Phase =
    | Started
    | Fetching
    | Fetched(outcome: Outcome)
    | Stamped(outcome: Outcome, now: int)
    | Finishing

  datatype Task = Task(startedAt: int, phase: Phase)

  /** `tasks` are the live refresh goroutines, named after the handshake that spawned them. */
  datatype World = World(
    clock: int,
    p: Provider,
    handshakes: map<nat, Handshake>,
    tasks: map<nat, Task>,
    delivered: set<Material>)

  datatype Event =
    | Tick(d: nat)
    | ReadClock(h: nat)
    | Check(h: nat)
    | Start(h: nat)
    | Serve(h: nat)
    | FetchBegin(g: nat)
    | FetchEnd(g: nat, outcome: Outcome)
    | Stamp(g: nat)
    | Publish(g: nat)
    | Finish(g: nat)

  /** The certificate a provider has, with its expiry and version. */
  function Held(p: Provider): Option<Material> {
    if p.platformCert.Some? then Some(Material(p.platformCert.value, p.notAfter, p.version)) else None
  }

  predicate Enabled(w: World, e: Event) {
    match e
    case Tick(_) => true
    case ReadClock(h) => h !in w.handshakes
    case Check(h) => h in w.handshakes && w.handshakes[h].Read?
    case Start(h) => h in w.handshakes && w.handshakes[h].Passed?
    case Serve(h) => h in w.handshakes && w.handshakes[h].Serving?
    case FetchBegin(g) => g in w.tasks && w.tasks[g].phase.Started?
    case FetchEnd(g, _) => g in w.tasks && w.tasks[g].phase.Fetching?
    case Stamp(g) => g in w.tasks && w.tasks[g].phase.Fetched?
    case Publish(g) => g in w.tasks && w.tasks[g].phase.Stamped?
    case Finish(g) => g in w.tasks && w.tasks[g].phase.Finishing?
  }

  function Next(w: World, e: Event): World
    requires Enabled(w, e)
  {
    match e
    case Tick(d) => w.(clock := w.clock + d)
    case ReadClock(h) => w.(handshakes := w.handshakes[h := Read(w.clock)])
    case Check(h) =>
      var now := w.handshakes[h].now;
      w.(handshakes := w.handshakes[h := if ShouldRefresh(w.p, now) then Passed(now) else Serving(now)])
    case Start(h) =>
      var v := w.(handshakes := w.handshakes[h := Serving(w.handshakes[h].now)]);
      if w.p.inFlight then v
      else v.(p := w.p.(inFlight := true), tasks := w.tasks[h := Task(w.clock, Started)])
    case Serve(h) =>
      var now := w.handshakes[h].now;
      w.(handshakes := w.handshakes[h := Done(now, CurrentCertificate(w.p, now), Held(w.p))])
    case FetchBegin(g) => MoveTask(w, g, Fetching)
    case FetchEnd(g, outcome) =>
      var v := MoveTask(w, g, Fetched(outcome));
      if outcome.Good? then v.(delivered := w.delivered + {outcome.material}) else v
    case Stamp(g) => MoveTask(w, g, Stamped(w.tasks[g].phase.outcome, w.clock))
    case Publish(g) =>
      var t := w.tasks[g];
      MoveTask(w, g, Finishing).(p := Published(w.p, t.phase.outcome, t.phase.now))
    case Finish(g) => w.(p := w.p.(inFlight := false), tasks := w.tasks - {g})
  }

  function MoveTask(w: World, g: nat, phase: Phase): World
    requires g in w.tasks
  {
    w.(tasks := w.tasks[g := w.tasks[g].(phase := phase)])
  }

  predicate Runs(w: World, es: seq<Event>)
    decreases |es|
  {
    es == [] || (Enabled(w, es[0]) && Runs(Next(w, es[0]), es[1..]))
  }

  function Exec(w: World, es: seq<Event>): World
    requires Runs(w, es)
    decreases |es|
  {
    if es == [] then w else Exec(Next(w, es[0]), es[1..])
  }

  function Boot(initial: Option<Material>, refreshAfter: int, clock: int): World {
    World(clock, Initial(initial, refreshAfter, clock), map[], map[],
          if initial.Some? then {initial.value} else {})
  }

  // ---------------------------------------------------------------- single flight

  ghost predicate SingleFlight(w: World) {
    && (w.p.inFlight <==> w.tasks != map[])
    && (forall g1, g2 :: g1 in w.tasks && g2 in w.tasks ==> g1 == g2)
  }

  predicate FromOneMaterial(p: Provider, delivered: set<Material>) {
    match Held(p)
    case None => p.notAfter == None && p.version == ""
    case Some(m) => m in delivered
  }

  /** A platform certificate served is that of the material held, which was delivered and not expired at the reading. */
  predicate ServedFresh(w: World, h: nat)
    requires h in w.handshakes
  {
    w.handshakes[h].Done? && w.handshakes[h].served.Platform? ==>
      && w.handshakes[h].held.Some?
      && var m := w.handshakes[h].held.value;
         && m in w.delivered && m.cert == w.handshakes[h].served.cert
         && (m.notAfter.None? || w.handshakes[h].now < m.notAfter.value)
  }

  ghost predicate Inv(w: World) {
    && SingleFlight(w)
    && FromOneMaterial(w.p, w.delivered)
    && (forall h :: h in w.handshakes ==> w.handshakes[h].now <= w.clock && ServedFresh(w, h))
    && (forall g :: g in w.tasks ==> TaskInv(w, w.tasks[g]) && g in w.handshakes && Launched(w.handshakes[g]))
  }

  predicate Launched(h: Handshake) {
    h.Serving? || h.Done?
  }

  predicate TaskInv(w: World, t: Task) {
    && t.startedAt <= w.clock
    && (t.phase.Fetched? && t.phase.outcome.Good? ==> t.phase.outcome.material in w.delivered)
    && (t.phase.Stamped? && t.phase.outcome.Good? ==> t.phase.outcome.material in w.delivered)
    && (t.phase.Stamped? ==> t.startedAt <= t.phase.now <= w.clock)
  }

  lemma SingleFlightStep(w: World, e: Event)
    requires SingleFlight(w) && Enabled(w, e)
    ensures SingleFlight(Next(w, e))
  {
    var v := Next(w, e);
    match e {
      case Start(h) => assert h in v.tasks || v.tasks == w.tasks;
      case Finish(g) => assert v.tasks.Keys == {};
      case FetchBegin(g) => assert g in v.tasks;
      case FetchEnd(g, _) => assert g in v.tasks;
      case Stamp(g) => assert g in v.tasks;
      case Publish(g) => assert g in v.tasks;
      case _ =>
    }
  }

  lemma InvStep(w: World, e: Event)
    requires Inv(w) && Enabled(w, e)
    ensures Inv(Next(w, e))
  {
    var v := Next(w, e);
    SingleFlightStep(w, e);
    forall h | h in v.handshakes
      ensures ServedFresh(v, h)
    {
      if h in w.handshakes {
        assert ServedFresh(w, h);
      }
    }
  }

  lemma {:induction false} InvRun(w: World, es: seq<Event>)
    requires Inv(w) && Runs(w, es)
    ensures Inv(Exec(w, es))
    decreases |es|
  {
    if es != [] {
      InvStep(w, es[0]);
      InvRun(Next(w, es[0]), es[1..]);
    }
  }

  /**
   In every interleaving from a fresh provider: the in-flight flag is up exactly while one
   goroutine lives, certificate, expiry and version come from one delivery, and no
   handshake was served a platform certificate already expired at its clock reading.
   */
  lemma SingleFlightNoTornCertificate(initial: Option<Material>, refreshAfter: int, clock: int, es: seq<Event>)
    requires Runs(Boot(initial, refreshAfter, clock), es)
    ensures var w := Exec(Boot(initial, refreshAfter, clock), es);
            && (w.p.inFlight <==> |w.tasks| == 1)
            && |w.tasks| <= 1
            && FromOneMaterial(w.p, w.delivered)
            && forall h :: h in w.handshakes ==> ServedFresh(w, h)
  {
    var w0 := Boot(initial, refreshAfter, clock);
    InvRun(w0, es);
    AtMostOneTask(Exec(w0, es));
  }

  lemma AtMostOneTask(w: World)
    requires SingleFlight(w)
    ensures |w.tasks| == if w.p.inFlight then 1 else 0
  {
    if w.tasks != map[] {
      var g :| g in w.tasks;
      assert w.tasks.Keys == {g};
      assert |w.tasks| == |w.tasks.Keys|;
    }
  }

  // ---------------------------------------------------------------- refresh rate

  /** No cooldown product of the run leaves the duration range. */
  predicate NoOverflow(es: seq<Event>) {
    forall i :: 0 <= i < |es| && es[i].FetchEnd? ==> HintFits(es[i].outcome)
  }

  predicate TasksFit(w: World) {
    forall g :: g in w.tasks && (w.tasks[g].phase.Fetched? || w.tasks[g].phase.Stamped?)
                ==> HintFits(w.tasks[g].phase.outcome)
  }

  function Fetches(es: seq<Event>): (n: nat)
    ensures n <= |es|
  {
    if es == [] then 0 else (if es[0].FetchBegin? then 1 else 0) + Fetches(es[1..])
  }

  /** Handshakes between a check that said yes and their start. */
  function PassedSet(w: World): set<nat> {
    set h | h in w.handshakes && w.handshakes[h].Passed?
  }

  function StartedSet(w: World): set<nat> {
    set g | g in w.tasks && w.tasks[g].phase.Started?
  }

  /** What a fetch at instant `since` leaves behind until five minutes have passed. */
  predicate Window(w: World, since: int) {
    && since <= w.clock
    && (w.tasks == map[] ==> since + MIN_REFRESH_AFTER <= w.p.nextAllowed)
    && (forall g :: g in w.tasks ==>
          && (w.tasks[g].phase.Stamped? ==> since <= w.tasks[g].phase.now)
          && (w.tasks[g].phase.Finishing? ==> since + MIN_REFRESH_AFTER <= w.p.nextAllowed))
  }

  lemma WindowStep(w: World, e: Event, since: int)
    requires Inv(w) && Enabled(w, e) && Window(w, since) && TasksFit(w)
    requires e.FetchEnd? ==> HintFits(e.outcome)
    ensures Window(Next(w, e), since) && TasksFit(Next(w, e))
  {
    var v := Next(w, e);
    match e {
      case Publish(g) =>
        PublishedKeepsSpacing(w.p, w.tasks[g].phase.outcome, w.tasks[g].phase.now);
        assert g in v.tasks;
      case Start(h) =>
        assert !w.p.inFlight ==> h in v.tasks;
      case FetchBegin(g) => assert g in v.tasks;
      case FetchEnd(g, _) => assert g in v.tasks;
      case Stamp(g) => assert g in v.tasks;
      case _ =>
    }
  }

  function Waiting(w: World): nat {
    |PassedSet(w)| + |StartedSet(w)|
  }

  lemma StartUsesPass(w: World, h: nat)
    requires SingleFlight(w) && Enabled(w, Start(h))
    ensures Waiting(Next(w, Start(h))) <= Waiting(w)
  {
    var v := Next(w, Start(h));
    assert PassedSet(v) == PassedSet(w) - {h} && h in PassedSet(w);
    if w.p.inFlight {
      assert StartedSet(v) == StartedSet(w);
    } else {
      assert StartedSet(w) == {} && StartedSet(v) == {h};
    }
  }

  lemma FetchUsesStart(w: World, g: nat)
    requires Enabled(w, FetchBegin(g))
    ensures Waiting(Next(w, FetchBegin(g))) + 1 == Waiting(w)
  {
    var v := Next(w, FetchBegin(g));
    assert PassedSet(v) == PassedSet(w);
    assert StartedSet(v) == StartedSet(w) - {g} && g in StartedSet(w);
  }

  lemma CheckFailsInWindow(w: World, h: nat, since: int)
    requires Inv(w) && Enabled(w, Check(h)) && Window(w, since) && w.clock < since + MIN_REFRESH_AFTER
    ensures !ShouldRefresh(w.p, w.handshakes[h].now)
  {
  }

  /** Inside the window nobody newly passes, and each fetch uses up one earlier pass. */
  lemma WaitingStep(w: World, e: Event, since: int)
    requires Inv(w) && Enabled(w, e) && Window(w, since)
    requires w.clock < since + MIN_REFRESH_AFTER
    ensures Waiting(Next(w, e)) + (if e.FetchBegin? then 1 else 0) <= Waiting(w)
  {
    var v := Next(w, e);
    if e.Start? {
      StartUsesPass(w, e.h);
    } else if e.FetchBegin? {
      FetchUsesStart(w, e.g);
    } else {
      if e.Check? {
        CheckFailsInWindow(w, e.h, since);
      }
      SetsKept(w, e);
    }
  }

  lemma SetsKept(w: World, e: Event)
    requires Enabled(w, e) && !e.Start? && !e.FetchBegin?
    requires e.Check? ==> !ShouldRefresh(w.p, w.handshakes[e.h].now)
    ensures PassedSet(Next(w, e)) == PassedSet(w) && StartedSet(Next(w, e)) == StartedSet(w)
  {
  }

  lemma ClockGrows(w: World, es: seq<Event>)
    requires Runs(w, es)
    ensures w.clock <= Exec(w, es).clock
    decreases |es|
  {
    if es != [] {
      ClockGrows(Next(w, es[0]), es[1..]);
    }
  }

  lemma {:induction false} WindowRun(w: World, es: seq<Event>, since: int)
    requires Inv(w) && Runs(w, es) && Window(w, since) && TasksFit(w) && NoOverflow(es)
    requires Exec(w, es).clock < since + MIN_REFRESH_AFTER
    ensures Fetches(es) <= Waiting(w)
    decreases |es|
  {
    if es != [] {
      ClockGrows(w, es);
      WindowStep(w, es[0], since);
      WaitingStep(w, es[0], since);
      InvStep(w, es[0]);
      assert forall i :: 0 <= i < |es[1..]| ==> es[1..][i] == es[i + 1];
      WindowRun(Next(w, es[0]), es[1..], since);
    }
  }

  lemma {:induction false} FitRun(w: World, es: seq<Event>)
    requires Runs(w, es) && TasksFit(w) && NoOverflow(es)
    ensures TasksFit(Exec(w, es))
    decreases |es|
  {
    if es != [] {
      assert forall i :: 0 <= i < |es[1..]| ==> es[1..][i] == es[i + 1];
      FitRun(Next(w, es[0]), es[1..]);
    }
  }

  /**
   In any window shorter than five minutes that opens with a fetch, at most one further
   fetch per handshake that had already passed its check without reaching its start.
   */
  lemma RefreshRateBound(initial: Option<Material>, refreshAfter: int, clock: int,
                         past: seq<Event>, g: nat, window: seq<Event>)
    requires Runs(Boot(initial, refreshAfter, clock), past) && NoOverflow(past) && NoOverflow(window)
    requires var w := Exec(Boot(initial, refreshAfter, clock), past);
             && Enabled(w, FetchBegin(g))
             && Runs(w, [FetchBegin(g)] + window)
             && Exec(w, [FetchBegin(g)] + window).clock < w.clock + MIN_REFRESH_AFTER
    ensures var w := Exec(Boot(initial, refreshAfter, clock), past);
            Fetches([FetchBegin(g)] + window) <= 1 + |PassedSet(w)|
  {
    var w0 := Boot(initial, refreshAfter, clock);
    InvRun(w0, past);
    FitRun(w0, past);
    var w := Exec(w0, past);
    var es := [FetchBegin(g)] + window;
    var v := Next(w, FetchBegin(g));
    assert es[0] == FetchBegin(g) && es[1..] == window;
    InvStep(w, FetchBegin(g));
    WindowRun(v, window, w.clock);
    assert StartedSet(v) == {} && PassedSet(v) == PassedSet(w);
  }

  /** The state between one fetch and the next when no handshake was waiting at the first. */
  ghost predicate Quiet(w: World, first: nat, since: int) {
    && since <= w.clock
    && (first in w.tasks ==>
          && !w.tasks[first].phase.Started?
          && PassedSet(w) == {}
          && (w.tasks[first].phase.Stamped? ==> since <= w.tasks[first].phase.now)
          && (w.tasks[first].phase.Finishing? ==> since + Spacing(w.p.failures) <= w.p.nextAllowed))
    && (first !in w.tasks ==>
          && since + Spacing(w.p.failures) <= w.p.nextAllowed
          && (w.tasks != map[] || PassedSet(w) != {} ==> since + Spacing(w.p.failures) <= w.clock)
          && (forall g :: g in w.tasks ==> w.tasks[g].phase.Started?))
  }

  lemma QuietStep(w: World, e: Event, first: nat, since: int)
    requires Inv(w) && Enabled(w, e) && Quiet(w, first, since) && TasksFit(w)
    requires first in w.handshakes && Launched(w.handshakes[first])
    requires e.FetchEnd? ==> HintFits(e.outcome)
    requires !e.FetchBegin?
    ensures Quiet(Next(w, e), first, since) && TasksFit(Next(w, e))
    ensures var v := Next(w, e); first in v.handshakes && Launched(v.handshakes[first])
  {
    var v := Next(w, e);
    match e {
      case Publish(g) =>
        PublishedKeepsSpacing(w.p, w.tasks[g].phase.outcome, w.tasks[g].phase.now);
        assert PassedSet(v) == PassedSet(w);
      case Start(h) =>
        assert h in PassedSet(w);
        assert PassedSet(v) == PassedSet(w) - {h};
      case Check(h) =>
        assert w.handshakes[h].now <= w.clock;
        assert PassedSet(v) == if v.handshakes[h].Passed? then PassedSet(w) + {h} else PassedSet(w);
      case _ =>
        assert PassedSet(v) == PassedSet(w);
    }
  }

  lemma {:induction false} QuietRun(w: World, es: seq<Event>, first: nat, since: int)
    requires Inv(w) && Runs(w, es) && Quiet(w, first, since) && TasksFit(w) && NoOverflow(es)
    requires first in w.handshakes && Launched(w.handshakes[first])
    requires Fetches(es) == 0
    ensures Quiet(Exec(w, es), first, since)
    decreases |es|
  {
    if es != [] {
      QuietStep(w, es[0], first, since);
      InvStep(w, es[0]);
      assert forall i :: 0 <= i < |es[1..]| ==> es[1..][i] == es[i + 1];
      QuietRun(Next(w, es[0]), es[1..], first, since);
    }
  }

  /**
   When no handshake was between check and start at a fetch (always so if the two are one
   step), the next fetch comes at least five minutes later, and at least thirty once the
   refreshes in a row that failed number five or more.
   */
  lemma ConsecutiveFetchesApart(initial: Option<Material>, refreshAfter: int, clock: int,
                                past: seq<Event>, g1: nat, between: seq<Event>, g2: nat)
    requires Runs(Boot(initial, refreshAfter, clock), past) && NoOverflow(past) && NoOverflow(between)
    requires var w := Exec(Boot(initial, refreshAfter, clock), past);
             && PassedSet(w) == {} && Enabled(w, FetchBegin(g1))
             && var v := Next(w, FetchBegin(g1));
             && Runs(v, between) && Fetches(between) == 0
             && Enabled(Exec(v, between), FetchBegin(g2))
    ensures var w := Exec(Boot(initial, refreshAfter, clock), past);
            var u := Exec(Next(w, FetchBegin(g1)), between);
            && u.clock >= w.clock + 5 * MINUTE
            && (u.p.failures >= MAX_FAILURES ==> u.clock >= w.clock + 30 * MINUTE)
  {
    var w0 := Boot(initial, refreshAfter, clock);
    InvRun(w0, past);
    FitRun(w0, past);
    var w := Exec(w0, past);
    var v := Next(w, FetchBegin(g1));
    InvStep(w, FetchBegin(g1));
    assert PassedSet(v) == {};
    QuietRun(v, between, g1, w.clock);
    InvRun(v, between);
  }

  // ---------------------------------------------------------------- the bound is tight

  lemma RunsCons(w: World, e: Event, es: seq<Event>)
    requires Enabled(w, e) && Runs(Next(w, e), es)
    ensures Runs(w, [e] + es)
    ensures Fetches([e] + es) == (if e.FetchBegin? then 1 else 0) + Fetches(es)
    ensures Exec(w, [e] + es) == Exec(Next(w, e), es)
  {
  }

  lemma {:induction false} RunsAppend(w: World, a: seq<Event>, b: seq<Event>)
    requires Runs(w, a) && Runs(Exec(w, a), b)
    ensures Runs(w, a + b) && Exec(w, a + b) == Exec(Exec(w, a), b)
    ensures Fetches(a + b) == Fetches(a) + Fetches(b)
    decreases |a|
  {
    if a == [] {
      assert a + b == b;
    } else {
      assert (a + b)[0] == a[0] && (a + b)[1..] == a[1..] + b;
      RunsAppend(Next(w, a[0]), a[1..], b);
    }
  }

  /** From the fetch of `g` to the fetch of the waiting handshake `h`, without a tick. */
  function Relay(g: nat, h: nat): seq<Event> {
    [FetchEnd(g, FetchError), Stamp(g), Publish(g), Finish(g), Start(h)]
  }

  lemma RunsFive(w: World, a: Event, b: Event, c: Event, d: Event, e: Event)
    requires Enabled(w, a)
    requires var w1 := Next(w, a); Enabled(w1, b)
    requires var w2 := Next(Next(w, a), b); Enabled(w2, c)
    requires var w3 := Next(Next(Next(w, a), b), c); Enabled(w3, d)
    requires var w4 := Next(Next(Next(Next(w, a), b), c), d); Enabled(w4, e)
    ensures Runs(w, [a, b, c, d, e]) && Exec(w, [a, b, c, d, e]) == Next(Next(Next(Next(Next(w, a), b), c), d), e)
  {
    var w1 := Next(w, a);
    var w2 := Next(w1, b);
    var w3 := Next(w2, c);
    var w4 := Next(w3, d);
    RunsCons(w4, e, []);
    RunsCons(w3, d, [e]);
    RunsCons(w2, c, [d, e]);
    RunsCons(w1, b, [c, d, e]);
    RunsCons(w, a, [b, c, d, e]);
    assert [e] + [] == [e] && [d] + [e] == [d, e] && [c] + [d, e] == [c, d, e] && [b] + [c, d, e] == [b, c, d, e];
    assert [a] + [b, c, d, e] == [a, b, c, d, e];
  }

  lemma RelayRuns(w: World, g: nat, h: nat) returns (v: World)
    requires Inv(w) && g in w.tasks && w.tasks[g].phase.Fetching? && h in PassedSet(w)
    ensures Runs(w, Relay(g, h)) && v == Exec(w, Relay(g, h)) && Fetches(Relay(g, h)) == 0
    ensures Inv(v) && v.clock == w.clock && PassedSet(v) == PassedSet(w) - {h} && Enabled(v, FetchBegin(h))
  {
    var w1 := Next(w, FetchEnd(g, FetchError));
    var w2 := Next(w1, Stamp(g));
    var w3 := Next(w2, Publish(g));
    var w4 := Next(w3, Finish(g));
    assert w4.tasks == map[];
    v := Next(w4, Start(h));
    RunsFive(w, FetchEnd(g, FetchError), Stamp(g), Publish(g), Finish(g), Start(h));
    InvRun(w, Relay(g, h));
    NoFetch(Relay(g, h));
  }

  lemma NoFetch(es: seq<Event>)
    requires forall i :: 0 <= i < |es| ==> !es[i].FetchBegin?
    ensures Fetches(es) == 0
  {
  }

  /** Each handshake waiting at a fetch can fetch again in its turn, all at the same instant. */
  lemma {:induction false} BoundAttained(w: World, g: nat) returns (window: seq<Event>)
    requires Inv(w) && Enabled(w, FetchBegin(g))
    ensures Runs(w, [FetchBegin(g)] + window) && NoOverflow(window)
    ensures Exec(w, [FetchBegin(g)] + window).clock == w.clock
    ensures Fetches([FetchBegin(g)] + window) == 1 + |PassedSet(w)|
    decreases |PassedSet(w)|
  {
    var v := Next(w, FetchBegin(g));
    InvStep(w, FetchBegin(g));
    assert PassedSet(v) == PassedSet(w);
    window := [];
    if h :| h in PassedSet(w) {
      var u := RelayRuns(v, g, h);
      var rest := BoundAttained(u, h);
      window := Relay(g, h) + ([FetchBegin(h)] + rest);
      RunsAppend(v, Relay(g, h), [FetchBegin(h)] + rest);
    }
    RunsCons(w, FetchBegin(g), window);
  }

  /**
   From a fetch in any reachable state, another within five minutes is possible exactly
   when some handshake stands between its check and its start.
   */
  lemma SecondFetchExactly(initial: Option<Material>, refreshAfter: int, clock: int, past: seq<Event>, g: nat)
    requires Runs(Boot(initial, refreshAfter, clock), past) && NoOverflow(past)
    requires Enabled(Exec(Boot(initial, refreshAfter, clock), past), FetchBegin(g))
    ensures var w := Exec(Boot(initial, refreshAfter, clock), past);
            (exists window :: && NoOverflow(window) && Runs(w, [FetchBegin(g)] + window)
                              && Exec(w, [FetchBegin(g)] + window).clock < w.clock + MIN_REFRESH_AFTER
                              && Fetches([FetchBegin(g)] + window) >= 2)
            <==> PassedSet(w) != {}
  {
    var w := Exec(Boot(initial, refreshAfter, clock), past);
    InvRun(Boot(initial, refreshAfter, clock), past);
    var attained := BoundAttained(w, g);
    if window :| && NoOverflow(window) && Runs(w, [FetchBegin(g)] + window)
                 && Exec(w, [FetchBegin(g)] + window).clock < w.clock + MIN_REFRESH_AFTER
                 && Fetches([FetchBegin(g)] + window) >= 2
    {
      RefreshRateBound(initial, refreshAfter, clock, past, g, window);
    }
  }

  /** `n` more handshakes, named from `k` on, pass their checks; then all that wait fetch in turn. */
  lemma {:induction false} ManyPass(w: World, k: nat, n: nat) returns (es: seq<Event>)
    requires Inv(w) && w.tasks == map[] && ShouldRefresh(w.p, w.clock)
    requires forall h :: h in w.handshakes ==> h < k
    ensures Runs(w, es) && Exec(w, es).clock == w.clock && Fetches(es) == |PassedSet(w)| + n
    decreases n
  {
    if n > 0 {
      var w1 := Next(w, ReadClock(k));
      OnePasses(w, k);
      InvStep(w, ReadClock(k));
      InvStep(w1, Check(k));
      es := ManyPass(Next(w1, Check(k)), k + 1, n - 1);
      RunsCons(w1, Check(k), es);
      es := [Check(k)] + es;
      RunsCons(w, ReadClock(k), es);
      es := [ReadClock(k)] + es;
    } else if h :| h in PassedSet(w) {
      var v := Next(w, Start(h));
      InvStep(w, Start(h));
      assert PassedSet(v) == PassedSet(w) - {h};
      var window := BoundAttained(v, h);
      es := [FetchBegin(h)] + window;
      RunsCons(w, Start(h), es);
      es := [Start(h)] + es;
    } else {
      es := [];
    }
  }

  lemma OnePasses(w: World, k: nat)
    requires ShouldRefresh(w.p, w.clock) && k !in w.handshakes
    ensures var w1 := Next(w, ReadClock(k));
            && Enabled(w1, Check(k))
            && Next(w1, Check(k)) == w.(handshakes := w.handshakes[k := Passed(w.clock)])
            && |PassedSet(Next(w1, Check(k)))| == |PassedSet(w)| + 1
  {
    var v := w.(handshakes := w.handshakes[k := Passed(w.clock)]);
    assert Next(Next(w, ReadClock(k)), Check(k)).handshakes == v.handshakes;
    PassedMore(w, k);
  }

  lemma PassedMore(w: World, k: nat)
    requires k !in w.handshakes
    ensures |PassedSet(w.(handshakes := w.handshakes[k := Passed(w.clock)]))| == |PassedSet(w)| + 1
  {
    assert PassedSet(w.(handshakes := w.handshakes[k := Passed(w.clock)])) == PassedSet(w) + {k};
  }

  /** A provider without a certificate can be made to fetch any number of times at one instant. */
  lemma OvertakenHandshakesFetchAgain(refreshAfter: int, clock: int, n: nat) returns (es: seq<Event>)
    ensures Runs(Boot(None, refreshAfter, clock), es) && Fetches(es) == n
    ensures Exec(Boot(None, refreshAfter, clock), es).clock == clock
  {
    var w := Boot(None, refreshAfter, clock);
    assert PassedSet(w) == {};
    es := ManyPass(w, 0, n);
  }
}
