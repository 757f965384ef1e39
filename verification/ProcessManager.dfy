/**
 Managed upstream processes: one manager's calls, and the start-up of several wards that
 must not leave a process behind when it fails.
 */
module ProcessManager {
  import opened Wrappers

  /** One turn of the readiness loop: still waiting, ready, exited, or the context is done. */
  datatype Poll = NotYet | Ready | Exited | TimedOut

  /** What a call finds: the probe of its own process, the second probe, the start, the polls. */
  datatype Outcome = Outcome(ownReady: bool, ready: bool, starts: bool, polls: seq<Poll>)

  datatype Ensured = AlreadyReady | Started | StartFailed | NotReady

  /** A manager's process, the processes started so far (numbered), and those handed to `shutdownCmd`. */
  datatype Procs = Procs(owned: Option<nat>, started: nat, shut: seq<nat>)

  /** Whether the wait ends well; polls that run out are a context that ends. */
  function ComesUp(polls: seq<Poll>): bool {
    |polls| > 0 && (polls[0].Ready? || (polls[0].NotYet? && ComesUp(polls[1..])))
  }

  /** The wait ends well exactly when some poll is ready and nothing ended the wait before it. */
  lemma {:induction false} ComesUpExactly(polls: seq<Poll>)
    ensures ComesUp(polls) <==> exists k :: 0 <= k < |polls| && polls[k].Ready? && forall i :: 0 <= i < k ==> polls[i].NotYet?
  {
    if |polls| > 0 && polls[0].NotYet? {
      ComesUpExactly(polls[1..]);
      if ComesUp(polls) {
        var k :| 0 <= k < |polls[1..]| && polls[1..][k].Ready? && forall i :: 0 <= i < k ==> polls[1..][i].NotYet?;
        assert forall i :: 0 <= i < k + 1 ==> polls[i].NotYet? by {
          forall i | 0 <= i < k + 1 ensures polls[i].NotYet? {
            if i > 0 { assert polls[1..][i - 1].NotYet?; }
          }
        }
        assert polls[k + 1].Ready?;
      }
      if k :| 0 <= k < |polls| && polls[k].Ready? && forall i :: 0 <= i < k ==> polls[i].NotYet? {
        assert polls[1..][k - 1].Ready?;
        assert forall i :: 0 <= i < k - 1 ==> polls[1..][i] == polls[i + 1];
      }
    }
  }

  /** One call of `EnsureRunning` on its own. */
  function Ensure(s: Procs, o: Outcome): (Procs, Ensured) {
    if s.owned.Some? && o.ownReady then (s, AlreadyReady)
    else
      var t := if s.owned.Some? then s.(owned := None, shut := s.shut + [s.owned.value]) else s;
      if o.ready then (t, AlreadyReady)
      else if !o.starts then (t, StartFailed)
      else if ComesUp(o.polls) then (t.(owned := Some(t.started), started := t.started + 1), Started)
      else (t.(started := t.started + 1, shut := t.shut + [t.started]), NotReady)
  }

  function Shut(s: Procs): Procs {
    if s.owned.None? then s else s.(owned := None, shut := s.shut + [s.owned.value])
  }

  predicate NoRepeats(s: seq<nat>) {
    forall i, j :: 0 <= i < j < |s| ==> s[i] != s[j]
  }

  /** Every process ever started is owned or was shut down once, and not both. */
  predicate Conserved(s: Procs) {
    && NoRepeats(s.shut)
    && (forall p :: p in s.shut ==> p < s.started)
    && (forall p: nat :: p < s.started ==> (s.owned == Some(p) <==> p !in s.shut))
    && (s.owned.Some? ==> s.owned.value < s.started)
  }

  lemma EnsureConserves(s: Procs, o: Outcome)
    requires Conserved(s)
    ensures Conserved(Ensure(s, o).0)
    ensures Ensure(s, o).1.Started? <==> Ensure(s, o).0.owned == Some(s.started)
    ensures s.shut <= Ensure(s, o).0.shut
  {
  }

  /** Some poll is ready and nothing ends the wait before it. */
  predicate BecomesReady(polls: seq<Poll>) {
    exists k :: 0 <= k < |polls| && polls[k].Ready? && forall i :: 0 <= i < k ==> polls[i].NotYet?
  }

  /**
   What one call does. Its own process is kept exactly while its probe answers. Nothing is
   started beside an upstream that answers; else at most one process is, and it is owned
   exactly if it comes up.
   */
  lemma EnsureExactly(s: Procs, o: Outcome)
    ensures var (t, result) := Ensure(s, o);
            var kept := s.owned.Some? && o.ownReady;
            var lost := if s.owned.Some? && !o.ownReady then [s.owned.value] else [];
            var starts := !kept && !o.ready && o.starts;
            var up := starts && BecomesReady(o.polls);
            && t.owned == (if kept then s.owned else if up then Some(s.started) else None)
            && t.started == s.started + (if starts then 1 else 0)
            && t.shut == s.shut + lost + (if starts && !up then [s.started] else [])
            && (result == AlreadyReady <==> kept || o.ready) && (result == Started <==> up)
            && (result == StartFailed <==> !kept && !o.ready && !o.starts)
  {
    ComesUpExactly(o.polls);
  }

  lemma ShutExactly(s: Procs)
    ensures Shut(s).owned == None && Shut(s).started == s.started
    ensures Shut(s).shut == s.shut + if s.owned.Some? then [s.owned.value] else []
  {
  }

  lemma ShutConserves(s: Procs)
    requires Conserved(s)
    ensures Conserved(Shut(s)) && forall p: nat :: p < s.started ==> p in Shut(s).shut
  {
  }

  /** The operating system's side, shared by all managers. */
  class Host {
    var started: nat
    var shut: seq<nat>

    constructor ()
      ensures started == 0 && shut == []
    {
      started, shut := 0, [];
    }

    method Start(ok: bool) returns (p: Option<nat>)
      modifies this`started
      ensures p == if ok then Some(old(started)) else None
      ensures started == old(started) + if ok then 1 else 0
    {
      if !ok {
        return None;
      }
      p := Some(started);
      started := started + 1;
    }

    method ShutdownCmd(p: nat)
      modifies this`shut
      ensures shut == old(shut) + [p]
    {
      shut := shut + [p];
    }
  }

  class Manager {
    const host: Host
    var ownedCmd: Option<nat>

    ghost function View(): Procs
      reads this, host
    {
      Procs(ownedCmd, host.started, host.shut)
    }

    constructor (host: Host)
      ensures this.host == host && ownedCmd == None
    {
      this.host, ownedCmd := host, None;
    }

    method EnsureRunning(o: Outcome) returns (result: Ensured)
      modifies this, host
      ensures (View(), result) == Ensure(old(View()), o)
    {
      if ownedCmd.Some? {
        if o.ownReady {
          return AlreadyReady;
        }
        host.ShutdownCmd(ownedCmd.value);
        ownedCmd := None;
      }
      if o.ready {
        return AlreadyReady;
      }
      var cmd := host.Start(o.starts);
      if cmd.None? {
        return StartFailed;
      }
      var up := WaitForUpstreamReady(o.polls);
      if !up {
        host.ShutdownCmd(cmd.value);
        return NotReady;
      }
      if ownedCmd.Some? {
        assert false;
      }
      ownedCmd := cmd;
      return Started;
    }

    method WaitForUpstreamReady(polls: seq<Poll>) returns (up: bool)
      ensures up == ComesUp(polls)
    {
      var i := 0;
      while i < |polls|
        invariant i <= |polls|
        invariant ComesUp(polls) == ComesUp(polls[i..])
      {
        match polls[i]
        case TimedOut => return false;
        case Ready => return true;
        case Exited => return false;
        case NotYet => assert polls[i..][1..] == polls[i + 1..]; i := i + 1;
      }
      return false;
    }

    method Shutdown()
      modifies this, host
      ensures View() == Shut(old(View()))
    {
      var cmd := ownedCmd;
      ownedCmd := None;
      if cmd.Some? {
        host.ShutdownCmd(cmd.value);
      }
    }
  }

  // ---------------------------------------------------------------- preparing several wards

  /** What the preparation of one ward meets, in the order of its checks. */
  datatype Plan = Plan(
    hasSecret: bool, origin: bool, active: bool, issuer: bool,
    managed: bool, blankCommand: bool, upstream: Outcome, servesTLS: bool, tls: bool)

  predicate Preparable(p: Plan) {
    && p.hasSecret && p.origin && p.active && p.issuer
    && (p.managed ==> !p.blankCommand) && (p.servesTLS ==> p.tls)
  }

  /** What the managers prepared so far own, and the host. */
  datatype Fleet = Fleet(owned: seq<Option<nat>>, started: nat, shut: seq<nat>)

  function PrepareOne(f: Fleet, p: Plan): (Fleet, bool) {
    if !p.hasSecret || !p.origin || !p.active || !p.issuer || (p.managed && p.blankCommand) then (f, false)
    else
      var s := Procs(None, f.started, f.shut);
      var up := if p.managed then Ensure(s, p.upstream).0 else s;
      if p.servesTLS && !p.tls
      then var down := Shut(up); (Fleet(f.owned, down.started, down.shut), false)
      else (Fleet(f.owned + [up.owned], up.started, up.shut), true)
  }

  function ShutAll(owned: seq<Option<nat>>, shut: seq<nat>): seq<nat> {
    if owned == [] then shut
    else ShutAll(owned[1..], if owned[0].Some? then shut + [owned[0].value] else shut)
  }

  function PrepareAll(f: Fleet, plans: seq<Plan>): (Fleet, bool)
    decreases |plans|
  {
    if plans == [] then (f, true)
    else
      var (g, ok) := PrepareOne(f, plans[0]);
      if ok then PrepareAll(g, plans[1..]) else (Fleet([], g.started, ShutAll(g.owned, g.shut)), false)
  }

  /** Processes `base..started` are each owned by one manager or shut down once; earlier shutdowns stand. */
  ghost predicate Accounted(f: Fleet, base: nat, before: seq<nat>) {
    && before <= f.shut && base <= f.started
    && NoRepeats(f.shut[|before|..])
    && (forall p :: p in f.shut[|before|..] ==> base <= p < f.started)
    && (forall i :: 0 <= i < |f.owned| && f.owned[i].Some? ==>
          base <= f.owned[i].value < f.started && f.owned[i].value !in f.shut[|before|..])
    && (forall i, j :: 0 <= i < j < |f.owned| && f.owned[i].Some? ==> f.owned[i] != f.owned[j])
    && (forall p: nat :: base <= p < f.started && p !in f.shut[|before|..] ==> Some(p) in f.owned)
  }

  lemma AppendNew(s: seq<nat>, x: nat)
    requires NoRepeats(s) && x !in s
    ensures NoRepeats(s + [x]) && forall y :: y in s + [x] <==> y in s || y == x
  {
  }

  /** One more process, started and either kept by the new manager or shut down. */
  lemma AccountedMore(f: Fleet, g: Fleet, base: nat, before: seq<nat>)
    requires Accounted(f, base, before) && g.started == f.started + 1
    requires || (g.shut == f.shut && g.owned == f.owned + [Some(f.started)])
             || (g.shut == f.shut + [f.started] && (g.owned == f.owned || g.owned == f.owned + [None]))
    ensures Accounted(g, base, before)
  {
    var q := f.started;
    var now, later := f.shut[|before|..], g.shut[|before|..];
    AppendNew(now, q);
    assert later == now || later == now + [q];
    assert forall i :: 0 <= i < |f.owned| ==> g.owned[i] == f.owned[i];
    assert later == now ==> g.owned[|f.owned|] == Some(q);
    forall x: nat | base <= x < g.started && x !in later ensures Some(x) in g.owned {
      if x != q {
        var i :| 0 <= i < |f.owned| && f.owned[i] == Some(x);
        assert g.owned[i] == Some(x);
      }
    }
  }

  lemma AccountedSame(f: Fleet, base: nat, before: seq<nat>)
    requires Accounted(f, base, before)
    ensures Accounted(f.(owned := f.owned + [None]), base, before)
  {
  }

  lemma AccountedOne(f: Fleet, p: Plan, base: nat, before: seq<nat>)
    requires Accounted(f, base, before)
    ensures Accounted(PrepareOne(f, p).0, base, before)
    ensures PrepareOne(f, p).1 <==> Preparable(p)
  {
    var g := PrepareOne(f, p).0;
    if g.started > f.started {
      AccountedMore(f, g, base, before);
    } else if g.owned != f.owned {
      AccountedSame(f, base, before);
    }
  }

  lemma {:induction false} AccountedShut(f: Fleet, base: nat, before: seq<nat>)
    requires Accounted(f, base, before)
    ensures Accounted(Fleet([], f.started, ShutAll(f.owned, f.shut)), base, before)
    decreases |f.owned|
  {
    if f.owned != [] {
      var o := f.owned[0];
      var shut := if o.Some? then f.shut + [o.value] else f.shut;
      var g := Fleet(f.owned[1..], f.started, shut);
      if o.Some? {
        assert shut[|before|..] == f.shut[|before|..] + [o.value];
        AppendNew(f.shut[|before|..], o.value);
      }
      forall x: nat | base <= x < g.started && x !in g.shut[|before|..] ensures Some(x) in g.owned {
        assert x !in f.shut[|before|..];
        var i :| 0 <= i < |f.owned| && f.owned[i] == Some(x);
        assert g.owned[i - 1] == Some(x);
      }
      AccountedShut(g, base, before);
    }
  }

  lemma {:induction false} AccountedAll(f: Fleet, plans: seq<Plan>, base: nat, before: seq<nat>)
    requires Accounted(f, base, before)
    ensures Accounted(PrepareAll(f, plans).0, base, before)
    ensures PrepareAll(f, plans).1 <==> forall i :: 0 <= i < |plans| ==> Preparable(plans[i])
    ensures !PrepareAll(f, plans).1 ==> PrepareAll(f, plans).0.owned == []
    decreases |plans|
  {
    if plans != [] {
      var (g, ok) := PrepareOne(f, plans[0]);
      AccountedOne(f, plans[0], base, before);
      if ok {
        AccountedAll(g, plans[1..], base, before);
        assert forall i :: 0 < i < |plans| ==> plans[i] == plans[1..][i - 1];
      } else {
        AccountedShut(g, base, before);
      }
    }
  }

  /** A ward that could be prepared keeps what its upstream call left it; one that could not keeps nothing. */
  lemma PreparedExactly(f: Fleet, p: Plan)
    ensures var (g, ok) := PrepareOne(f, p);
            var up := Ensure(Procs(None, f.started, f.shut), p.upstream).0;
            && (ok <==> p.hasSecret && p.origin && p.active && p.issuer && !(p.managed && p.blankCommand) && !(p.servesTLS && !p.tls))
            && (ok ==> g == if p.managed then Fleet(f.owned + [up.owned], up.started, up.shut) else f.(owned := f.owned + [None]))
            && (!ok ==> g.owned == f.owned)
            && (!ok && (!p.managed || p.blankCommand || !p.hasSecret || !p.origin || !p.active || !p.issuer) ==> g == f)
            && (!ok && p.managed && !p.blankCommand && p.hasSecret && p.origin && p.active && p.issuer ==>
                  g.started == up.started && g.shut == up.shut + if up.owned.Some? then [up.owned.value] else [])
  {
  }

  /** A failed start-up has shut down, once each, exactly the processes it started. */
  lemma FailedStartLeavesNothing(plans: seq<Plan>, started: nat, shut: seq<nat>)
    requires exists i :: 0 <= i < |plans| && !Preparable(plans[i])
    ensures var (f, ok) := PrepareAll(Fleet([], started, shut), plans);
            && !ok && shut <= f.shut && NoRepeats(f.shut[|shut|..])
            && (forall p: nat :: p in f.shut[|shut|..] <==> started <= p < f.started)
  {
    assert shut[|shut|..] == [];
    AccountedAll(Fleet([], started, shut), plans, started, shut);
  }

  function OwnedBy(m: Option<Manager>): Option<nat>
    reads if m.Some? then {m.value} else {}
  {
    if m.Some? then m.value.ownedCmd else None
  }

  /** Distinct new managers on one host, owning what the model says. */
  ghost predicate Tracks(ms: seq<Option<Manager>>, owned: seq<Option<nat>>, host: Host)
    reads set m | m in ms && m.Some? :: m.value
  {
    && |ms| == |owned|
    && (forall i :: 0 <= i < |ms| ==> OwnedBy(ms[i]) == owned[i])
    && (forall i :: 0 <= i < |ms| && ms[i].Some? ==> ms[i].value.host == host)
    && (forall i, j :: 0 <= i < j < |ms| && ms[i].Some? ==> ms[i] != ms[j])
  }

  /** `created` are all the managers made on the way. */
  method PrepareServeRuntimes(host: Host, plans: seq<Plan>) returns (ms: seq<Option<Manager>>, ok: bool, ghost created: seq<Option<Manager>>)
    modifies host
    ensures var (f, good) := PrepareAll(Fleet([], old(host.started), old(host.shut)), plans);
            && ok == good && host.started == f.started && host.shut == f.shut
            && (ok ==> Tracks(ms, f.owned, host) && created == ms)
    ensures !ok ==> ms == [] && forall m :: m in created && m.Some? ==> m.value.ownedCmd.None?
    ensures forall m :: m in created && m.Some? ==> fresh(m.value)
  {
    ms, created := [], [];
    ghost var f := Fleet([], host.started, host.shut);
    ghost var f0 := f;
    var i := 0;
    while i < |plans|
      invariant i <= |plans|
      invariant f == Fleet(f.owned, host.started, host.shut)
      invariant Tracks(ms, f.owned, host) && created == ms
      invariant PrepareAll(f, plans[i..]) == PrepareAll(f0, plans)
      invariant forall m :: m in ms && m.Some? ==> fresh(m.value)
    {
      assert plans[i..][0] == plans[i] && plans[i..][1..] == plans[i + 1..];
      var m, good := PrepareServeRuntime(host, plans[i], f);
      f := PrepareOne(f, plans[i]).0;
      if !good {
        ShutDownAll(ms, f.owned, host);
        return [], false, ms + [m];
      }
      ms := ms + [m];
      created := ms;
      i := i + 1;
    }
    ok := true;
  }

  /** On failure `m` is the manager that was made for this ward, if it came so far. */
  method PrepareServeRuntime(host: Host, plan: Plan, ghost f: Fleet) returns (m: Option<Manager>, ok: bool)
    requires f.started == host.started && f.shut == host.shut
    modifies host
    ensures var (g, good) := PrepareOne(f, plan);
            && ok == good && host.started == g.started && host.shut == g.shut
            && (if ok then g.owned == f.owned + [OwnedBy(m)] else g.owned == f.owned && OwnedBy(m).None?)
    ensures m.Some? ==> fresh(m.value) && m.value.host == host
  {
    m := None;
    if !plan.hasSecret || !plan.origin || !plan.active || !plan.issuer {
      return None, false;
    }
    if plan.managed {
      if plan.blankCommand {
        return None, false;
      }
      var manager := new Manager(host);
      var result := manager.EnsureRunning(plan.upstream);
      m := Some(manager);
    }
    if plan.servesTLS && !plan.tls {
      if m.Some? {
        m.value.Shutdown();
      }
      return m, false;
    }
    ok := true;
  }

  method ShutDownAll(ms: seq<Option<Manager>>, ghost owned: seq<Option<nat>>, host: Host)
    requires Tracks(ms, owned, host)
    modifies host, set m | m in ms && m.Some? :: m.value
    ensures host.started == old(host.started) && host.shut == ShutAll(owned, old(host.shut))
    ensures forall m :: m in ms && m.Some? ==> m.value.ownedCmd.None?
  {
    var i := 0;
    while i < |ms|
      invariant i <= |ms|
      invariant host.started == old(host.started)
      invariant ShutAll(owned[i..], host.shut) == ShutAll(owned, old(host.shut))
      invariant forall k :: 0 <= k < i && ms[k].Some? ==> ms[k].value.ownedCmd.None?
      invariant forall k :: i <= k < |ms| && ms[k].Some? ==> ms[k].value.ownedCmd == old(ms[k].value.ownedCmd)
    {
      assert owned[i..][0] == owned[i] && owned[i..][1..] == owned[i + 1..];
      assert old(OwnedBy(ms[i])) == owned[i];
      if ms[i].Some? {
        ms[i].value.Shutdown();
      }
      i := i + 1;
    }
  }
}
