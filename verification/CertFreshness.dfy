/**
 How stale a platform certificate can get when the platform keeps answering: the timing
 assumptions on a run, and the bound they give on the time since the last success.
 */
module CertFreshness {
  import opened Wrappers
  import opened GoTime
  import opened CertProvider
  import opened CertRuns

  /**
   `hint` bounds the normalised refresh hints, `gap` the distance between handshakes,
   `toStart` the delay from a handshake's clock reading to its start, and `life` the time
   a refresh goroutine lives.
   */
  datatype Bounds = Bounds(hint: nat, gap: nat, toStart: nat, life: nat)

  /** With goroutines that live at most a day: max(24 h, hint) plus the three delays. */
  function StalenessBound(b: Bounds): (r: int)
    ensures b.life <= 24 * HOUR ==> r == Max(24 * HOUR, b.hint) + b.gap + (b.toStart + b.life)
  {
    Max(24 * HOUR, Max(b.hint, b.life)) + Delays(b)
  }

  function Delays(b: Bounds): int {
    b.gap + b.toStart + b.life
  }

  /** When a certificate wants renewing: a day after it came, or two weeks before it expires. */
  function Renewal(p: Provider): int
    requires p.lastSuccess.Some?
  {
    var day := p.lastSuccess.value + 24 * HOUR;
    if p.notAfter.Some? && p.notAfter.value - 14 * DAY < day then p.notAfter.value - 14 * DAY else day
  }

  /** When a refresh can be asked for: not before the hint is over and the last goroutine gone. */
  function Due(p: Provider, b: Bounds): int
    requires p.lastSuccess.Some?
  {
    Max(p.lastSuccess.value + Max(b.hint, b.life), Renewal(p))
  }

  /** The latest clock reading among the handshakes that performed their check. */
  function NewestCheck(w: World, e: Event, newest: int): int
    requires Enabled(w, e)
  {
    if e.Check? then Max(newest, w.handshakes[e.h].now) else newest
  }

  predicate Punctual(w: World, newest: int, b: Bounds) {
    && w.clock <= newest + b.gap
    && (forall h :: h in w.handshakes && w.handshakes[h].Passed? ==> w.clock <= w.handshakes[h].now + b.toStart)
    && (forall g :: g in w.tasks ==> w.clock <= w.tasks[g].startedAt + b.life)
  }

  predicate Succeeds(outcome: Outcome, b: Bounds) {
    outcome.Good? && HintAfter(outcome.seconds) <= b.hint
  }

  /** A run in which every fetch succeeds and every state is punctual. */
  predicate TimelyRun(w: World, newest: int, es: seq<Event>, b: Bounds)
    decreases |es|
  {
    && Punctual(w, newest, b)
    && (es != [] ==>
          && Enabled(w, es[0])
          && (es[0].FetchEnd? ==> Succeeds(es[0].outcome, b))
          && TimelyRun(Next(w, es[0]), NewestCheck(w, es[0], newest), es[1..], b))
  }

  lemma {:induction false} TimelyRuns(w: World, newest: int, es: seq<Event>, b: Bounds)
    requires TimelyRun(w, newest, es, b)
    ensures Runs(w, es)
    decreases |es|
  {
    if es != [] {
      TimelyRuns(Next(w, es[0]), NewestCheck(w, es[0], newest), es[1..], b);
    }
  }

  /** A handshake or goroutine that is on its way to a success soon enough. */
  ghost predicate Coming(w: World, deadline: int, b: Bounds) {
    || (exists h :: h in w.handshakes && w.handshakes[h].Passed? && w.handshakes[h].now <= deadline)
    || (exists g :: g in w.tasks && w.tasks[g].startedAt <= deadline + b.toStart)
  }

  predicate TaskOnTime(w: World, t: Task, b: Bounds)
    requires w.p.lastSuccess.Some?
  {
    && (t.phase.Fetched? ==> Succeeds(t.phase.outcome, b))
    && (t.phase.Stamped? ==> Succeeds(t.phase.outcome, b))
    && (t.phase.Finishing? ==> t.startedAt <= w.p.lastSuccess.value)
  }

  ghost predicate FreshInv(w: World, newest: int, b: Bounds) {
    && Inv(w) && Punctual(w, newest, b)
    && newest <= w.clock
    && w.p.lastSuccess.Some?
    && w.p.lastSuccess.value <= w.clock
    && w.p.nextAllowed <= w.p.lastSuccess.value + b.hint
    && (forall g :: g in w.tasks ==> TaskOnTime(w, w.tasks[g], b))
    && var due := Due(w.p, b);
       || newest <= due
       || (exists g :: g in w.tasks && w.tasks[g].phase.Finishing?)
       || Coming(w, due + b.gap, b)
  }

  lemma FreshInvBounds(w: World, newest: int, b: Bounds)
    requires FreshInv(w, newest, b)
    ensures w.clock <= Due(w.p, b) + Delays(b)
    ensures w.clock <= w.p.lastSuccess.value + StalenessBound(b)
  {
  }

  lemma FreshStep(w: World, newest: int, e: Event, b: Bounds)
    requires FreshInv(w, newest, b) && Enabled(w, e)
    requires e.FetchEnd? ==> Succeeds(e.outcome, b)
    requires Punctual(Next(w, e), NewestCheck(w, e, newest), b)
    ensures FreshInv(Next(w, e), NewestCheck(w, e, newest), b)
  {
    InvStep(w, e);
    FreshWitness(w, newest, e, b);
  }

  lemma FreshWitness(w: World, newest: int, e: Event, b: Bounds)
    requires FreshInv(w, newest, b) && Enabled(w, e)
    requires e.FetchEnd? ==> Succeeds(e.outcome, b)
    requires Punctual(Next(w, e), NewestCheck(w, e, newest), b)
    ensures var v := Next(w, e);
            && v.p.lastSuccess.Some?
            && var due := Due(v.p, b);
               || NewestCheck(w, e, newest) <= due
               || (exists g :: g in v.tasks && v.tasks[g].phase.Finishing?)
               || Coming(v, due + b.gap, b)
  {
    var v := Next(w, e);
    var due := Due(w.p, b);
    if !e.Publish? {
      DueKept(w, e, b);
    }
    match e {
      case Publish(g) => assert v.tasks[g].phase.Finishing?;
      case Finish(g) => FinishWitness(w, newest, g, b);
      case Check(h) => CheckWitness(w, newest, h, due, b);
      case Start(h) => StartWitness(w, h, due + b.gap, b);
      case _ => OtherWitness(w, newest, e, due, b);
    }
  }

  lemma OtherWitness(w: World, newest: int, e: Event, due: int, b: Bounds)
    requires FreshInv(w, newest, b) && Enabled(w, e) && due == Due(w.p, b)
    requires !e.Publish? && !e.Finish? && !e.Check? && !e.Start?
    ensures || NewestCheck(w, e, newest) <= due
            || (exists g :: g in Next(w, e).tasks && Next(w, e).tasks[g].phase.Finishing?)
            || Coming(Next(w, e), due + b.gap, b)
  {
    WitnessKept(w, e, due + b.gap, b);
  }

  lemma DueKept(w: World, e: Event, b: Bounds)
    requires Enabled(w, e) && !e.Publish? && w.p.lastSuccess.Some?
    ensures var v := Next(w, e); v.p.lastSuccess == w.p.lastSuccess && Due(v.p, b) == Due(w.p, b)
  {
  }

  /** A goroutine that ends has not lived long enough for the next refresh to be overdue. */
  lemma FinishWitness(w: World, newest: int, g: nat, b: Bounds)
    requires FreshInv(w, newest, b) && Enabled(w, Finish(g))
    ensures newest <= Due(w.p, b)
  {
    assert newest <= w.clock <= w.tasks[g].startedAt + b.life;
  }

  /** The first check past its due time finds a refresh under way, or asks for one. */
  lemma CheckWitness(w: World, newest: int, h: nat, due: int, b: Bounds)
    requires FreshInv(w, newest, b) && Enabled(w, Check(h)) && due == Due(w.p, b)
    ensures var v := Next(w, Check(h));
            || NewestCheck(w, Check(h), newest) <= due
            || (exists g :: g in v.tasks && v.tasks[g].phase.Finishing?)
            || Coming(v, due + b.gap, b)
  {
    var v := Next(w, Check(h));
    if newest <= due && w.handshakes[h].now > due {
      assert w.clock <= due + b.gap;
      if w.p.inFlight {
        var g :| g in w.tasks;
        assert g in v.tasks && v.tasks[g].startedAt <= w.clock;
      } else {
        assert v.handshakes[h].Passed?;
      }
    } else {
      WitnessKept(w, Check(h), due + b.gap, b);
    }
  }

  lemma StartWitness(w: World, h: nat, deadline: int, b: Bounds)
    requires Inv(w) && Enabled(w, Start(h)) && w.clock <= w.handshakes[h].now + b.toStart
    ensures Coming(w, deadline, b) ==> Coming(Next(w, Start(h)), deadline, b)
    ensures (exists g :: g in w.tasks && w.tasks[g].phase.Finishing?)
            ==> exists g :: g in Next(w, Start(h)).tasks && Next(w, Start(h)).tasks[g].phase.Finishing?
  {
    var v := Next(w, Start(h));
    if w.handshakes[h].now <= deadline {
      if w.p.inFlight {
        var g :| g in w.tasks;
        assert g in v.tasks && v.tasks[g].startedAt <= w.clock;
      } else {
        assert h in v.tasks;
      }
    } else {
      WitnessKept(w, Start(h), deadline, b);
    }
  }

  lemma WitnessKept(w: World, e: Event, deadline: int, b: Bounds)
    requires Inv(w) && Enabled(w, e) && !e.Publish? && !e.Finish?
    requires e.Start? ==> w.handshakes[e.h].now > deadline
    ensures Coming(w, deadline, b) ==> Coming(Next(w, e), deadline, b)
    ensures (exists g :: g in w.tasks && w.tasks[g].phase.Finishing?)
            ==> exists g :: g in Next(w, e).tasks && Next(w, e).tasks[g].phase.Finishing?
  {
    var v := Next(w, e);
    if h :| h in w.handshakes && w.handshakes[h].Passed? && w.handshakes[h].now <= deadline {
      assert v.handshakes[h].Passed? && v.handshakes[h].now <= deadline;
    }
    if g :| g in w.tasks && w.tasks[g].startedAt <= deadline + b.toStart {
      assert g in v.tasks && v.tasks[g].startedAt <= deadline + b.toStart;
    }
    if g :| g in w.tasks && w.tasks[g].phase.Finishing? {
      assert g in v.tasks && v.tasks[g].phase.Finishing?;
    }
  }

  lemma {:induction false} FreshRun(w: World, newest: int, es: seq<Event>, b: Bounds) returns (n: int)
    requires FreshInv(w, newest, b) && TimelyRun(w, newest, es, b) && Runs(w, es)
    ensures FreshInv(Exec(w, es), n, b)
    decreases |es|
  {
    if es == [] {
      n := newest;
    } else {
      FreshStep(w, newest, es[0], b);
      n := FreshRun(Next(w, es[0]), NewestCheck(w, es[0], newest), es[1..], b);
    }
  }

  /** The platform certificate is no older than the bound, nor will it be when a refresh publishes. */
  predicate Fresh(w: World, b: Bounds) {
    && w.p.lastSuccess.Some?
    && w.clock <= w.p.lastSuccess.value + StalenessBound(b) && w.clock <= Due(w.p, b) + Delays(b)
    && forall g :: g in w.tasks && w.tasks[g].phase.Stamped? ==>
         var q := Next(w, Publish(g)).p;
         q.lastSuccess.Some? && q.lastSuccess.value - w.p.lastSuccess.value <= StalenessBound(b)
  }

  lemma FreshAfter(w: World, newest: int, es: seq<Event>, b: Bounds)
    requires FreshInv(w, newest, b) && TimelyRun(w, newest, es, b)
    ensures Runs(w, es) && Fresh(Exec(w, es), b)
  {
    TimelyRuns(w, newest, es, b);
    var n := FreshRun(w, newest, es, b);
    FreshInvBounds(Exec(w, es), n, b);
  }

  /** However a run began and whatever failed in it, a success that publishes is a fresh start. */
  lemma SuccessIsFresh(w: World, g: nat, newest: int, b: Bounds)
    requires Inv(w) && Enabled(w, Publish(g)) && Succeeds(w.tasks[g].phase.outcome, b)
    requires newest <= w.clock && Punctual(Next(w, Publish(g)), newest, b)
    ensures FreshInv(Next(w, Publish(g)), newest, b)
  {
    InvStep(w, Publish(g));
    assert Next(w, Publish(g)).tasks[g].phase.Finishing?;
  }

  /**
   From any published success of any run, with or without an initial certificate and after
   any failures: while the timing assumptions hold, the last success is never older than
   the bound, and so two successive successes are never further apart. `newest` is the
   clock reading of some handshake checked before.
   */
  lemma BoundedFreshness(initial: Option<Material>, refreshAfter: int, clock: int, past: seq<Event>, g: nat,
                         newest: int, es: seq<Event>, b: Bounds)
    requires Runs(Boot(initial, refreshAfter, clock), past)
    requires var w := Exec(Boot(initial, refreshAfter, clock), past);
             && Enabled(w, Publish(g)) && Succeeds(w.tasks[g].phase.outcome, b)
             && newest <= w.clock && TimelyRun(Next(w, Publish(g)), newest, es, b)
    ensures var v := Next(Exec(Boot(initial, refreshAfter, clock), past), Publish(g));
            Runs(v, es) && Fresh(Exec(v, es), b)
  {
    var w := Exec(Boot(initial, refreshAfter, clock), past);
    InvRun(Boot(initial, refreshAfter, clock), past);
    SuccessIsFresh(w, g, newest, b);
    FreshAfter(Next(w, Publish(g)), newest, es, b);
  }

  /** A provider that starts with a certificate is fresh from its start. */
  lemma FreshFromStart(m: Material, refreshAfter: int, clock: int, es: seq<Event>, b: Bounds)
    requires Normalize(refreshAfter) <= b.hint
    requires TimelyRun(Boot(Some(m), refreshAfter, clock), clock, es, b)
    ensures Runs(Boot(Some(m), refreshAfter, clock), es)
    ensures Fresh(Exec(Boot(Some(m), refreshAfter, clock), es), b)
  {
    FreshAfter(Boot(Some(m), refreshAfter, clock), clock, es, b);
  }

  /** The delays are below two weeks, and the certificate outlives its hint by them. */
  predicate LastsLongEnough(since: int, expiry: int, b: Bounds) {
    var delays := b.gap + b.toStart + b.life;
    delays < 14 * DAY && since + Max(b.hint, b.life) + delays < expiry
  }

  /**
   From any published success as before: no certificate is held longer than the delays after
   it has entered its last two weeks, or after the hint given with it is over if that is later.
   If it was delivered with more life left than that, no handshake falls back.
   */
  lemma RenewedInTime(initial: Option<Material>, refreshAfter: int, clock: int, past: seq<Event>, g: nat,
                      newest: int, es: seq<Event>, b: Bounds, expiry: int)
    requires Runs(Boot(initial, refreshAfter, clock), past)
    requires var w := Exec(Boot(initial, refreshAfter, clock), past);
             && Enabled(w, Publish(g)) && Succeeds(w.tasks[g].phase.outcome, b)
             && newest <= w.clock && TimelyRun(Next(w, Publish(g)), newest, es, b)
    requires var v := Next(Exec(Boot(initial, refreshAfter, clock), past), Publish(g));
             Runs(v, es) && Exec(v, es).p.notAfter == Some(expiry)
    ensures var w := Exec(Next(Exec(Boot(initial, refreshAfter, clock), past), Publish(g)), es);
            && w.p.lastSuccess.Some?
            && w.clock <= Max(expiry - 14 * DAY, w.p.lastSuccess.value + Max(b.hint, b.life)) + (b.gap + b.toStart + b.life)
            && (LastsLongEnough(w.p.lastSuccess.value, expiry, b) ==> w.clock < expiry)
  {
    BoundedFreshness(initial, refreshAfter, clock, past, g, newest, es, b);
  }
}
