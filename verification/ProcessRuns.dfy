/**
 Concurrent calls on one process manager: who may hold a process at each point between
 the statements of `EnsureRunning` and `Shutdown`, which releases the lock before it kills.
 */
module ProcessRuns {
  import opened Wrappers
  import opened ProcessManager

  datatype Pc =
    | WantEnsure | ProbeOwn | Killed | Probe | Start
    | Wait(p: nat) | Abandon(p: nat) | Store(p: nat) | Replace(p: nat) | Leave
    | WantShutdown | Read | Clear(cmd: Option<nat>) | Release(cmd: Option<nat>) | Kill(p: nat)

  datatype World = World(holder: Option<nat>, owned: Option<nat>, started: nat, shut: seq<nat>, pcs: map<nat, Pc>)

  /** `yes` answers a probe or a start, `poll` a turn of the readiness loop. */
  datatype Event = Call(id: nat, shutdown: bool) | Go(id: nat, yes: bool, poll: Poll)

  predicate Locked(pc: Pc) {
    !pc.WantEnsure? && !pc.WantShutdown? && !pc.Kill?
  }

  function To(w: World, id: nat, pc: Pc): World {
    w.(pcs := w.pcs[id := pc])
  }

  function Gone(w: World, id: nat): World {
    w.(pcs := w.pcs - {id})
  }

  function Handed(w: World, p: nat): World {
    w.(shut := w.shut + [p])
  }

  function Step(w: World, e: Event): World {
    match e
    case Call(id, shutdown) => if id in w.pcs then w else To(w, id, if shutdown then WantShutdown else WantEnsure)
    case Go(id, yes, poll) => if id in w.pcs then Advance(w, id, w.pcs[id], yes, poll) else w
  }

  function Advance(w: World, id: nat, pc: Pc, yes: bool, poll: Poll): World {
    match pc
    case WantEnsure =>
      if w.holder.Some? then w
      else To(w.(holder := Some(id)), id, if w.owned.Some? then ProbeOwn else Probe)
    case ProbeOwn =>
      if yes || w.owned.None? then To(w, id, Leave) else To(Handed(w, w.owned.value), id, Killed)
    case Killed => To(w.(owned := None), id, Probe)
    case Probe => To(w, id, if yes then Leave else Start)
    case Start => if yes then To(w.(started := w.started + 1), id, Wait(w.started)) else To(w, id, Leave)
    case Wait(p) =>
      To(w, id, match poll case NotYet => pc case Ready => Store(p) case Exited => Abandon(p) case TimedOut => Abandon(p))
    case Abandon(p) => To(Handed(w, p), id, Leave)
    case Store(p) => if w.owned.Some? then To(w, id, Replace(p)) else To(w.(owned := Some(p)), id, Leave)
    case Replace(p) => To((if w.owned.Some? then Handed(w, w.owned.value) else w).(owned := Some(p)), id, Leave)
    case Leave => Gone(w.(holder := None), id)
    case WantShutdown => if w.holder.Some? then w else To(w.(holder := Some(id)), id, Read)
    case Read => To(w, id, Clear(w.owned))
    case Clear(cmd) => To(w.(owned := None), id, Release(cmd))
    case Release(cmd) =>
      if cmd.Some? then To(w.(holder := None), id, Kill(cmd.value)) else Gone(w.(holder := None), id)
    case Kill(p) => Gone(Handed(w, p), id)
  }

  function Run(w: World, es: seq<Event>): World
    decreases |es|
  {
    if es == [] then w else Run(Step(w, es[0]), es[1..])
  }

  const NEW: World := World(None, None, 0, [], map[])

  // ---------------------------------------------------------------- where a process is

  predicate Owns(w: World, p: nat) {
    w.owned == Some(p) && p !in w.shut
  }

  /** The call `id` has started `p` and neither stored nor abandoned it. */
  predicate Awaits(w: World, p: nat, id: nat) {
    id in w.pcs && (w.pcs[id] == Wait(p) || w.pcs[id] == Abandon(p) || w.pcs[id] == Store(p) || w.pcs[id] == Replace(p))
  }

  /** The call `id` of `Shutdown` has taken `p` and not yet killed it. */
  predicate Takes(w: World, p: nat, id: nat) {
    id in w.pcs && (w.pcs[id] == Release(Some(p)) || w.pcs[id] == Kill(p))
  }

  datatype Place = Owned | AwaitedBy(id: nat) | TakenBy(id: nat) | ShutDown

  /** The process is at `pl` and nowhere else. */
  ghost predicate Is(w: World, p: nat, pl: Place) {
    && (Owns(w, p) <==> pl.Owned?)
    && (forall id :: Awaits(w, p, id) <==> pl == AwaitedBy(id))
    && (forall id :: Takes(w, p, id) <==> pl == TakenBy(id))
    && (p in w.shut <==> pl.ShutDown?)
  }

  predicate PcOk(w: World, id: nat) {
    id in w.pcs ==>
      && (Locked(w.pcs[id]) <==> w.holder == Some(id))
      && match w.pcs[id]
         case ProbeOwn => w.owned.Some?
         case Killed => w.owned.Some? && w.owned.value in w.shut
         case Probe => w.owned.None?
         case Start => w.owned.None?
         case Wait(_) => w.owned.None?
         case Abandon(_) => w.owned.None?
         case Store(_) => w.owned.None?
         case Replace(_) => false
         case Clear(cmd) => cmd == w.owned
         case Release(_) => w.owned.None?
         case _ => true
  }

  predicate Sane(w: World) {
    && (w.holder.Some? ==> w.holder.value in w.pcs)
    && (w.owned.Some? ==> w.owned.value < w.started)
    && (w.owned.Some? && w.owned.value in w.shut ==> w.holder.Some? && w.holder.value in w.pcs && w.pcs[w.holder.value].Killed?)
  }

  /** A process number that has not been given out is nowhere. */
  ghost predicate Unborn(w: World, p: nat) {
    p !in w.shut && w.owned != Some(p) && forall id :: !Awaits(w, p, id) && !Takes(w, p, id)
  }

  ghost predicate Placed(w: World, p: nat) {
    exists pl :: Is(w, p, pl)
  }

  ghost predicate Inv(w: World) {
    && Sane(w) && NoRepeats(w.shut)
    && (forall id :: PcOk(w, id))
    && (forall p: nat :: if p < w.started then Placed(w, p) else Unborn(w, p))
  }

  lemma Others(w: World, e: Event, id: nat)
    requires id != e.id
    ensures var v := Step(w, e);
            && (id in v.pcs <==> id in w.pcs) && (id in w.pcs ==> v.pcs[id] == w.pcs[id])
  {
  }

  lemma SaneStep(w: World, e: Event, v: World)
    requires Inv(w) && v == Step(w, e)
    ensures Sane(v) && forall id :: PcOk(v, id)
  {
    assert PcOk(w, e.id);
    forall id: nat ensures PcOk(v, id) {
      assert PcOk(w, id);
      if id != e.id { Others(w, e, id); }
    }
    if w.holder.Some? { assert PcOk(w, w.holder.value); }
    if e.Go? && e.id in w.pcs {
      match w.pcs[e.id]
      case Wait(p) => SaneAwaited(w, p, e.id);
      case Store(p) => SaneAwaited(w, p, e.id);
      case Kill(p) => SaneTaken(w, p, e.id);
      case _ =>
    }
  }

  lemma SaneAwaited(w: World, p: nat, id: nat)
    requires Inv(w) && Awaits(w, p, id)
    ensures p < w.started && p !in w.shut && w.owned != Some(p)
  {
    assert p < w.started && Placed(w, p) by {
      assert !Unborn(w, p);
    }
    var pl :| Is(w, p, pl);
    assert pl == AwaitedBy(id);
  }

  lemma SaneTaken(w: World, p: nat, id: nat)
    requires Inv(w) && Takes(w, p, id)
    ensures p < w.started && p !in w.shut && w.owned != Some(p)
  {
    assert p < w.started && Placed(w, p) by {
      assert !Unborn(w, p);
    }
    var pl :| Is(w, p, pl);
    assert pl == TakenBy(id);
  }

  /** What an event adds to the processes shut down was not among them. */
  lemma ShutStep(w: World, e: Event, v: World)
    requires Inv(w) && v == Step(w, e)
    ensures NoRepeats(v.shut)
    ensures v.shut == w.shut || exists p :: p !in w.shut && v.shut == w.shut + [p]
  {
    assert PcOk(w, e.id);
    if e.Go? && e.id in w.pcs {
      match w.pcs[e.id]
      case ProbeOwn =>
        if !e.yes {
          assert w.owned.value !in w.shut;
          AppendNew(w.shut, w.owned.value);
        }
      case Abandon(p) => SaneAwaited(w, p, e.id); AppendNew(w.shut, p);
      case Kill(p) => SaneTaken(w, p, e.id); AppendNew(w.shut, p);
      case _ =>
    }
  }

  function NextPlace(w: World, e: Event, p: nat, pl: Place): Place {
    if e.Call? || e.id !in w.pcs then pl
    else match w.pcs[e.id]
      case ProbeOwn => if !e.yes && w.owned == Some(p) then ShutDown else pl
      case Abandon(q) => if q == p then ShutDown else pl
      case Store(q) => if q == p then Owned else pl
      case Clear(cmd) => if cmd == Some(p) then TakenBy(e.id) else pl
      case Kill(q) => if q == p then ShutDown else pl
      case _ => pl
  }

  lemma OwnsStep(w: World, e: Event, v: World, p: nat, pl: Place)
    requires Inv(w) && v == Step(w, e) && p < w.started && Is(w, p, pl)
    ensures Owns(v, p) <==> NextPlace(w, e, p, pl).Owned?
    ensures p in v.shut <==> NextPlace(w, e, p, pl).ShutDown?
  {
    assert PcOk(w, e.id);
    ShutMember(w, e, v, p);
    if w.owned.Some? && w.owned.value in w.shut { assert PcOk(w, w.holder.value); }
    assert Awaits(w, p, e.id) <==> pl == AwaitedBy(e.id);
    assert Takes(w, p, e.id) <==> pl == TakenBy(e.id);
  }

  lemma HeldStep(w: World, e: Event, v: World, p: nat, pl: Place, id: nat)
    requires Inv(w) && v == Step(w, e) && p < w.started && Is(w, p, pl)
    ensures Awaits(v, p, id) <==> NextPlace(w, e, p, pl) == AwaitedBy(id)
    ensures Takes(v, p, id) <==> NextPlace(w, e, p, pl) == TakenBy(id)
  {
    assert PcOk(w, e.id);
    assert Awaits(w, p, id) <==> pl == AwaitedBy(id);
    assert Takes(w, p, id) <==> pl == TakenBy(id);
    assert Awaits(w, p, e.id) <==> pl == AwaitedBy(e.id);
    assert Takes(w, p, e.id) <==> pl == TakenBy(e.id);
    if id != e.id {
      Others(w, e, id);
    } else if w.owned.Some? && w.owned.value in w.shut {
      assert PcOk(w, w.holder.value);
    }
  }

  lemma PlaceStep(w: World, e: Event, v: World, p: nat, pl: Place)
    requires Inv(w) && v == Step(w, e) && p < w.started && Is(w, p, pl)
    ensures Is(v, p, NextPlace(w, e, p, pl))
  {
    OwnsStep(w, e, v, p, pl);
    forall id: nat
      ensures Awaits(v, p, id) <==> NextPlace(w, e, p, pl) == AwaitedBy(id)
      ensures Takes(v, p, id) <==> NextPlace(w, e, p, pl) == TakenBy(id)
    {
      HeldStep(w, e, v, p, pl, id);
    }
  }

  lemma ShutMember(w: World, e: Event, v: World, p: nat)
    requires v == Step(w, e)
    ensures p in w.shut ==> p in v.shut
    ensures |v.shut| <= |w.shut| + 1 && w.shut <= v.shut
    ensures p in v.shut <==> p in w.shut || (|v.shut| > |w.shut| && v.shut[|w.shut|] == p)
  {
  }

  lemma BirthStep(w: World, e: Event, v: World, p: nat)
    requires Inv(w) && v == Step(w, e) && p >= w.started
    ensures p >= v.started ==> Unborn(v, p)
    ensures p < v.started ==> Is(v, p, AwaitedBy(e.id))
  {
    assert PcOk(w, e.id);
    assert Unborn(w, p);
    ShutMember(w, e, v, p);
    if e.Go? && e.id in w.pcs {
      match w.pcs[e.id]
      case Abandon(q) => SaneAwaited(w, q, e.id);
      case Store(q) => SaneAwaited(w, q, e.id);
      case Wait(q) => SaneAwaited(w, q, e.id);
      case Kill(q) => SaneTaken(w, q, e.id);
      case Release(Some(q)) => SaneTaken(w, q, e.id);
      case _ =>
    }
    forall id: nat
      ensures Awaits(v, p, id) <==> (p < v.started && id == e.id)
      ensures !Takes(v, p, id)
    {
      assert !Awaits(w, p, id) && !Takes(w, p, id);
      if id != e.id { Others(w, e, id); }
    }
  }

  lemma InvStep(w: World, e: Event)
    requires Inv(w)
    ensures Inv(Step(w, e))
  {
    var v := Step(w, e);
    SaneStep(w, e, v);
    ShutStep(w, e, v);
    forall p: nat ensures if p < v.started then Placed(v, p) else Unborn(v, p) {
      if p < w.started {
        assert Placed(w, p);
        var pl :| Is(w, p, pl);
        PlaceStep(w, e, v, p, pl);
      } else {
        BirthStep(w, e, v, p);
      }
    }
  }

  lemma {:induction false} InvRun(w: World, es: seq<Event>)
    requires Inv(w)
    ensures Inv(Run(w, es))
    decreases |es|
  {
    if es != [] {
      InvStep(w, es[0]);
      InvRun(Step(w, es[0]), es[1..]);
    }
  }

  /**
   After any interleaving of calls, every process the manager ever started is in exactly one
   place, `shutdownCmd` has received it at most once, and only the lock's holder awaits one.
   */
  lemma ProcessConservation(es: seq<Event>, p: nat) returns (pl: Place)
    requires p < Run(NEW, es).started
    ensures Is(Run(NEW, es), p, pl) && NoRepeats(Run(NEW, es).shut)
    ensures pl.AwaitedBy? ==> pl.id in Run(NEW, es).pcs && Run(NEW, es).holder == Some(pl.id)
    ensures pl.TakenBy? ==> pl.id in Run(NEW, es).pcs
  {
    InvRun(NEW, es);
    var w := Run(NEW, es);
    assert Placed(w, p);
    pl :| Is(w, p, pl);
    if pl.AwaitedBy? {
      assert Awaits(w, p, pl.id) && PcOk(w, pl.id);
    } else if pl.TakenBy? {
      assert Takes(w, p, pl.id);
    }
  }

  /** Once every call has returned, a process is either owned or was shut down, once. */
  lemma QuietConservation(es: seq<Event>, p: nat)
    requires p < Run(NEW, es).started && Run(NEW, es).pcs == map[]
    ensures Run(NEW, es).owned == Some(p) <==> p !in Run(NEW, es).shut
  {
    var pl := ProcessConservation(es, p);
    InvRun(NEW, es);
  }

  /** The branch that shuts down a process found where the new one should go is never taken. */
  lemma ReplacementUnreachable(es: seq<Event>, id: nat)
    ensures id in Run(NEW, es).pcs ==> !Run(NEW, es).pcs[id].Replace?
  {
    InvRun(NEW, es);
    assert PcOk(Run(NEW, es), id);
  }

  // ---------------------------------------------------------------- undisturbed, the steps are the call

  function Reply(pc: Pc, o: Outcome): bool {
    if pc.ProbeOwn? then o.ownReady else if pc.Probe? then o.ready else o.starts
  }

  /** Only call `id` moves; `k` turns of the readiness loop are behind it. */
  function Alone(w: World, id: nat, o: Outcome, k: nat, n: nat): World
    decreases n
  {
    if n == 0 || id !in w.pcs then w
    else
      Alone(Step(w, Go(id, Reply(w.pcs[id], o), PollAt(o, k))), id, o, if w.pcs[id].Wait? then k + 1 else k, n - 1)
  }

  /** The world of a call that has returned, with these processes. */
  function Returned(w: World, id: nat, s: Procs): World {
    World(None, s.owned, s.started, s.shut, w.pcs - {id})
  }

  lemma AloneLeaves(w: World, id: nat, o: Outcome, k: nat, n: nat)
    requires id in w.pcs && w.pcs[id].Leave? && n >= 1
    ensures Alone(w, id, o, k, n) == Returned(w, id, Procs(w.owned, w.started, w.shut))
  {
  }

  function PollAt(o: Outcome, k: nat): Poll {
    if k < |o.polls| then o.polls[k] else TimedOut
  }

  lemma AloneStep(w: World, id: nat, o: Outcome, k: nat, n: nat)
    requires id in w.pcs && n >= 1
    ensures Alone(w, id, o, k, n) == Alone(Step(w, Go(id, Reply(w.pcs[id], o), PollAt(o, k))), id, o, if w.pcs[id].Wait? then k + 1 else k, n - 1)
  {
  }

  /** The last two steps of a wait that a poll has ended. */
  lemma AloneSettles(w: World, id: nat, o: Outcome, k: nat, n: nat, p: nat)
    requires id in w.pcs && (w.pcs[id] == Store(p) || w.pcs[id] == Abandon(p)) && w.owned.None? && n >= 2
    ensures Alone(w, id, o, k, n) == Returned(w, id,
              if w.pcs[id].Store? then Procs(Some(p), w.started, w.shut) else Procs(None, w.started, w.shut + [p]))
  {
    AloneStep(w, id, o, k, n);
    var v := Step(w, Go(id, Reply(w.pcs[id], o), PollAt(o, k)));
    AloneLeaves(v, id, o, k, n - 1);
    assert v.pcs - {id} == w.pcs - {id};
  }

  lemma {:induction false} AloneWaits(w: World, id: nat, o: Outcome, k: nat, n: nat, p: nat)
    requires id in w.pcs && w.pcs[id] == Wait(p) && w.owned.None?
    requires k <= |o.polls| && n >= |o.polls| - k + 3
    ensures Alone(w, id, o, k, n) == Returned(w, id,
              if ComesUp(o.polls[k..]) then Procs(Some(p), w.started, w.shut) else Procs(None, w.started, w.shut + [p]))
    decreases |o.polls| - k
  {
    AloneStep(w, id, o, k, n);
    var v := Step(w, Go(id, Reply(w.pcs[id], o), PollAt(o, k)));
    if PollAt(o, k).NotYet? {
      assert o.polls[k..][1..] == o.polls[k + 1..];
      assert v == w;
      AloneWaits(v, id, o, k + 1, n - 1, p);
    } else {
      AloneSettles(v, id, o, k + 1, n - 1, p);
      assert v.pcs - {id} == w.pcs - {id};
    }
  }

  lemma AloneProbes(w: World, id: nat, o: Outcome, n: nat)
    requires id in w.pcs && w.pcs[id].Probe? && w.owned.None? && n >= |o.polls| + 6
    ensures Alone(w, id, o, 0, n) == Returned(w, id, Ensure(Procs(None, w.started, w.shut), o).0)
  {
    AloneStep(w, id, o, 0, n);
    var v := Step(w, Go(id, o.ready, PollAt(o, 0)));
    if o.ready {
      AloneLeaves(v, id, o, 0, n - 1);
    } else {
      AloneStep(v, id, o, 0, n - 1);
      var u := Step(v, Go(id, o.starts, PollAt(o, 0)));
      assert u.pcs - {id} == w.pcs - {id};
      if o.starts {
        AloneWaits(u, id, o, 0, n - 2, w.started);
        assert o.polls[0..] == o.polls;
      } else {
        AloneLeaves(u, id, o, 0, n - 2);
      }
    }
  }

  /** Undisturbed, the steps of `EnsureRunning` change the processes as the whole call does. */
  lemma EnsureAlone(w: World, id: nat, o: Outcome, n: nat)
    requires id in w.pcs && w.pcs[id].WantEnsure? && w.holder.None? && n >= |o.polls| + 9
    ensures Alone(w, id, o, 0, n) == Returned(w, id, Ensure(Procs(w.owned, w.started, w.shut), o).0)
  {
    AloneStep(w, id, o, 0, n);
    var w1 := Step(w, Go(id, Reply(w.pcs[id], o), PollAt(o, 0)));
    assert w1.pcs - {id} == w.pcs - {id};
    if w.owned.None? {
      AloneProbes(w1, id, o, n - 1);
    } else {
      AloneStep(w1, id, o, 0, n - 1);
      var w2 := Step(w1, Go(id, o.ownReady, PollAt(o, 0)));
      assert w2.pcs - {id} == w.pcs - {id};
      if o.ownReady {
        AloneLeaves(w2, id, o, 0, n - 2);
      } else {
        AloneStep(w2, id, o, 0, n - 2);
        var w3 := Step(w2, Go(id, Reply(w2.pcs[id], o), PollAt(o, 0)));
        assert w3.pcs - {id} == w.pcs - {id};
        AloneProbes(w3, id, o, n - 3);
      }
    }
  }

  /** What `Shutdown` does once it has released the lock. */
  lemma AloneReleases(w: World, id: nat, o: Outcome, n: nat)
    requires id in w.pcs && w.pcs[id].Release? && w.owned.None? && n >= 2
    ensures var shut := w.shut + if w.pcs[id].cmd.Some? then [w.pcs[id].cmd.value] else [];
            Alone(w, id, o, 0, n) == Returned(w, id, Procs(None, w.started, shut))
  {
    AloneStep(w, id, o, 0, n);
    var v := Step(w, Go(id, Reply(w.pcs[id], o), PollAt(o, 0)));
    if w.pcs[id].cmd.Some? {
      AloneStep(v, id, o, 0, n - 1);
      assert v.pcs - {id} == w.pcs - {id};
    }
  }

  lemma ShutdownAlone(w: World, id: nat, o: Outcome, n: nat)
    requires id in w.pcs && w.pcs[id].WantShutdown? && w.holder.None? && n >= 5
    ensures Alone(w, id, o, 0, n) == Returned(w, id, Shut(Procs(w.owned, w.started, w.shut)))
  {
    AloneStep(w, id, o, 0, n);
    var w1 := Step(w, Go(id, Reply(w.pcs[id], o), PollAt(o, 0)));
    AloneStep(w1, id, o, 0, n - 1);
    var w2 := Step(w1, Go(id, Reply(w1.pcs[id], o), PollAt(o, 0)));
    AloneStep(w2, id, o, 0, n - 2);
    var w3 := Step(w2, Go(id, Reply(w2.pcs[id], o), PollAt(o, 0)));
    assert w3.pcs[id] == Release(w.owned);
    AloneReleases(w3, id, o, n - 3);
    assert w3.pcs - {id} == w.pcs - {id};
  }
}
