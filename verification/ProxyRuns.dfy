/**
 Runs of a proxy server: requests in flight, each taking its steps between lock sections
 one at a time, a clock that only moves forward, and a cleanup that may act on an old reading.
 */
module ProxyRuns {
  import opened Wrappers
  import opened Jwt
  import opened ProxyServer

  /** How far a request has come. `seen` is the length of the history at the revocation lookup. */
  datatype Pc =
    | Verified(claims: Claims, at: int, uri: string)
    | Looked(claims: Claims, at: int, uri: string, entry: Option<int>, seen: nat)
    | Rejected(uri: string)
    | Popped(found: Option<Txn>, serial: nat)
    | Exchanging(txn: Txn, serial: nat)
    | LoggingOut(claims: Claims)

  /** What the server has done, in order. A `serial` is the position of the login page it goes back to. */
  datatype Act =
    | Passed(id: nat, claims: Claims, verifiedAt: int, seen: nat, decidedAt: int)
    | Shown(id: nat, state: string, txn: Txn)
    | Refused(id: nat)
    | Exchanged(id: nat, serial: nat, txn: Txn, at: int)
    | Denied(id: nat)
    | Redirected(id: nat, serial: nat, location: string, x: Exchange, token: Token, at: int)
    | Recorded(id: nat, sessionId: string, exp: int)
    | LoggedOut(id: nat)

  /** `born` remembers for each state the position at which it was last shown. */
  datatype World = World(
    clock: int, sessions: Sessions, born: map<string, nat>, pcs: map<nat, Pc>,
    sweeper: Option<int>, history: seq<Act>)

  datatype Event =
    | Tick(d: nat)
    | Request(id: nat, cookie: Option<Token>, uri: string)
    | Look(id: nat)
    | Decide(id: nat)
    | ShowLogin(id: nat, state: string)
    | Callback(id: nat, code: string, state: string)
    | Check(id: nat)
    | Answer(id: nat, x: Option<Exchange>, jti: string)
    | Logout(id: nat, cookie: Option<Token>)
    | Record(id: nat)
    | SweepRead
    | Sweep

  function At(w: World, id: nat): Option<Pc> {
    if id in w.pcs then Some(w.pcs[id]) else None
  }

  function Goto(w: World, id: nat, pc: Pc): World {
    w.(pcs := w.pcs[id := pc])
  }

  function Ended(w: World, id: nat, act: Act): World {
    w.(pcs := w.pcs - {id}, history := w.history + [act])
  }

  /** An event that does not fit the state of its request does nothing. */
  function Step(wardId: string, w: World, e: Event): World {
    match e
    case Tick(d) => w.(clock := w.clock + d)
    case Request(id, cookie, uri) =>
      if id in w.pcs then w
      else
        var c := CookieClaims(wardId, cookie, w.clock);
        Goto(w, id, if c.Some? then Verified(c.value, w.clock, uri) else Rejected(uri))
    case Look(id) =>
      if id !in w.pcs || !w.pcs[id].Verified? then w
      else
        var p := w.pcs[id];
        Goto(w, id, Looked(p.claims, p.at, p.uri, Lookup(w.sessions.revoked, p.claims.sessionId), |w.history|))
    case Decide(id) =>
      if id !in w.pcs || !w.pcs[id].Looked? then w
      else
        var p := w.pcs[id];
        if Barred(p.entry, w.clock) then Goto(w, id, Rejected(p.uri))
        else Ended(w, id, Passed(id, p.claims, p.at, p.seen, w.clock))
    case ShowLogin(id, state) =>
      if id !in w.pcs || !w.pcs[id].Rejected? then w
      else
        var t := Txn(OrRoot(w.pcs[id].uri), wardId, w.clock);
        Ended(w.(sessions := Remembered(w.sessions, state, t), born := w.born[state := |w.history|]), id, Shown(id, state, t))
    case Callback(id, code, state) =>
      if id in w.pcs then w
      else if code == "" || state == "" then w.(history := w.history + [Refused(id)])
      else
        var (s, t) := Taken(w.sessions, state);
        Goto(w.(sessions := s), id, Popped(t, if state in w.born then w.born[state] else 0))
    case Check(id) =>
      if id !in w.pcs || !w.pcs[id].Popped? then w
      else
        var p := w.pcs[id];
        if p.found.None? || LoginExpired(p.found.value, w.clock) || p.found.value.wardId != wardId then Ended(w, id, Refused(id))
        else Goto(Ended(w, id, Exchanged(id, p.serial, p.found.value, w.clock)), id, Exchanging(p.found.value, p.serial))
    case Answer(id, x, jti) =>
      if id !in w.pcs || !w.pcs[id].Exchanging? then w
      else if x.None? then Ended(w, id, Denied(id))
      else
        var p := w.pcs[id];
        Ended(w, id, Redirected(id, p.serial, OrRoot(p.txn.returnTo), x.value, SessionToken(x.value, jti, w.clock), w.clock))
    case Logout(id, cookie) =>
      if id in w.pcs then w
      else if cookie.Some? && Verify(cookie.value, w.clock).Some?
      then Goto(w, id, LoggingOut(Verify(cookie.value, w.clock).value))
      else w.(history := w.history + [LoggedOut(id)])
    case Record(id) =>
      if id !in w.pcs || !w.pcs[id].LoggingOut? then w
      else
        var c := w.pcs[id].claims;
        Ended(w.(sessions := Revoked(w.sessions, c)), id, Recorded(id, c.sessionId, c.exp))
    case SweepRead => w.(sweeper := Some(w.clock))
    case Sweep =>
      if w.sweeper.None? then w
      else w.(sessions := Swept(w.sessions, w.sweeper.value), sweeper := None)
  }

  function Run(wardId: string, w: World, es: seq<Event>): World
    decreases |es|
  {
    if es == [] then w else Run(wardId, Step(wardId, w, es[0]), es[1..])
  }

  function Boot(now: int): World {
    World(now, Sessions(map[], map[]), map[], map[], None, [])
  }

  // ---------------------------------------------------------------- undisturbed, the steps are the handlers

  lemma RunFour(wardId: string, w: World, a: Event, b: Event, c: Event, d: Event)
    ensures Run(wardId, w, [a, b, c, d]) == Step(wardId, Step(wardId, Step(wardId, Step(wardId, w, a), b), c), d)
  {
    RunStep(wardId, w, a, [b, c, d]);
    var w1 := Step(wardId, w, a);
    RunStep(wardId, w1, b, [c, d]);
    var w2 := Step(wardId, w1, b);
    RunStep(wardId, w2, c, [d]);
    RunStep(wardId, Step(wardId, w2, c), d, []);
    assert [a] + [b, c, d] == [a, b, c, d] && [b] + [c, d] == [b, c, d] && [c] + [d] == [c, d] && [d] + [] == [d];
  }

  lemma RunStep(wardId: string, w: World, e: Event, es: seq<Event>)
    ensures Run(wardId, w, [e] + es) == Run(wardId, Step(wardId, w, e), es)
  {
    assert ([e] + es)[1..] == es;
  }

  /** A request alone passes, or leaves a login page, as `HandleDefault` has it. */
  lemma RequestAlone(wardId: string, w: World, id: nat, cookie: Option<Token>, uri: string, state: string)
    requires id !in w.pcs
    ensures var v := Run(wardId, w, [Request(id, cookie, uri), Look(id), Decide(id), ShowLogin(id, state)]);
            var c := CookieClaims(wardId, cookie, w.clock);
            var admitted := c.Some? && !Barred(Lookup(w.sessions.revoked, c.value.sessionId), w.clock);
            var t := Txn(OrRoot(uri), wardId, w.clock);
            && v.pcs == w.pcs
            && v.sessions == (if admitted then w.sessions else Remembered(w.sessions, state, t))
            && v.history == w.history + [if admitted then Passed(id, c.value, w.clock, |w.history|, w.clock) else Shown(id, state, t)]
  {
    RunFour(wardId, w, Request(id, cookie, uri), Look(id), Decide(id), ShowLogin(id, state));
    var w1 := Step(wardId, w, Request(id, cookie, uri));
    var w2 := Step(wardId, w1, Look(id));
    if CookieClaims(wardId, cookie, w.clock).Some? {
      LookedAlone(wardId, w, id, CookieClaims(wardId, cookie, w.clock).value, uri, state);
    }
    assert w1.pcs - {id} == w.pcs;
  }

  lemma LookedAlone(wardId: string, w: World, id: nat, c: Claims, uri: string, state: string)
    requires id !in w.pcs
    ensures var entry := Lookup(w.sessions.revoked, c.sessionId);
            var w1 := Goto(w, id, Verified(c, w.clock, uri));
            var v := Step(wardId, Step(wardId, Step(wardId, w1, Look(id)), Decide(id)), ShowLogin(id, state));
            var t := Txn(OrRoot(uri), wardId, w.clock);
            && v.pcs == w.pcs
            && v.sessions == (if Barred(entry, w.clock) then Remembered(w.sessions, state, t) else w.sessions)
            && v.history == w.history + [if Barred(entry, w.clock) then Shown(id, state, t) else Passed(id, c, w.clock, |w.history|, w.clock)]
  {
    var w1 := Goto(w, id, Verified(c, w.clock, uri));
    var w2 := Step(wardId, w1, Look(id));
    var w3 := Step(wardId, w2, Decide(id));
    assert w2.pcs - {id} == w.pcs && w3.pcs - {id} == w.pcs;
  }

  /** A callback alone takes its transaction and redirects, or not, as `HandleCallback` has it. */
  lemma CallbackAlone(wardId: string, w: World, id: nat, code: string, state: string, x: Option<Exchange>, jti: string)
    requires id !in w.pcs && code != "" && state != ""
    ensures var v := Run(wardId, w, [Callback(id, code, state), Check(id), Answer(id, x, jti), Tick(0)]);
            var (s, t) := Taken(w.sessions, state);
            && v.pcs == w.pcs && v.sessions == s && |v.history| > |w.history|
            && (if t.None? || LoginExpired(t.value, w.clock) || t.value.wardId != wardId then v.history == w.history + [Refused(id)]
                else if x.None? then v.history[|v.history| - 1] == Denied(id)
                else var a := v.history[|v.history| - 1];
                     && a.Redirected? && a.location == OrRoot(t.value.returnTo)
                     && a.token == SessionToken(x.value, jti, w.clock))
  {
    RunFour(wardId, w, Callback(id, code, state), Check(id), Answer(id, x, jti), Tick(0));
    var w1 := Step(wardId, w, Callback(id, code, state));
    var w2 := Step(wardId, w1, Check(id));
    assert w1.pcs - {id} == w.pcs && w2.pcs - {id} == w.pcs;
  }

  /** A logout and a cleanup alone change the sessions as their handlers do. */
  lemma LogoutAndSweepAlone(wardId: string, w: World, id: nat, cookie: Option<Token>)
    requires id !in w.pcs
    ensures var v := Run(wardId, w, [Logout(id, cookie), Record(id), SweepRead, Sweep]);
            var out := if cookie.Some? && Verify(cookie.value, w.clock).Some?
                       then Revoked(w.sessions, Verify(cookie.value, w.clock).value) else w.sessions;
            v.pcs == w.pcs && v.sessions == Swept(out, w.clock)
  {
    RunFour(wardId, w, Logout(id, cookie), Record(id), SweepRead, Sweep);
    var w1 := Step(wardId, w, Logout(id, cookie));
    assert w1.pcs - {id} == w.pcs;
  }

  // ---------------------------------------------------------------- cleanup is unobservable

  predicate Sweeping(e: Event) {
    e.SweepRead? || e.Sweep?
  }

  function WithoutSweeps(es: seq<Event>): seq<Event> {
    if es == [] then []
    else if Sweeping(es[0]) then WithoutSweeps(es[1..])
    else [es[0]] + WithoutSweeps(es[1..])
  }

  /** The cleaning server `a` may have lost what no longer counts at the common clock. */
  predicate SameTxn(a: map<string, Txn>, b: map<string, Txn>, clock: int, k: string) {
    && (k in a ==> k in b && a[k] == b[k])
    && (k in b && k !in a ==> LoginExpired(b[k], clock))
  }

  predicate SameEntry(a: Option<int>, b: Option<int>, clock: int) {
    a == b || (a.None? && b.Some? && clock >= b.value)
  }

  predicate SamePc(a: Option<Pc>, b: Option<Pc>, clock: int) {
    || a == b
    || (a.Some? && b.Some? && a.value.Looked? && b.value.Looked?
        && a.value == b.value.(entry := a.value.entry) && SameEntry(a.value.entry, b.value.entry, clock))
    || (a.Some? && b.Some? && a.value.Popped? && b.value.Popped?
        && a.value.found.None? && b.value.found.Some? && LoginExpired(b.value.found.value, clock))
  }

  ghost predicate Similar(a: World, b: World) {
    && a.clock == b.clock && a.history == b.history && a.born == b.born
    && (a.sweeper.Some? ==> a.sweeper.value <= a.clock)
    && (forall k :: SameTxn(a.sessions.txns, b.sessions.txns, a.clock, k))
    && (forall k :: SameEntry(Lookup(a.sessions.revoked, k), Lookup(b.sessions.revoked, k), a.clock))
    && (forall id :: SamePc(At(a, id), At(b, id), a.clock))
  }

  lemma SweepStep(wardId: string, a: World, b: World, e: Event)
    requires Similar(a, b) && Sweeping(e)
    ensures Similar(Step(wardId, a, e), b)
  {
    var a' := Step(wardId, a, e);
    forall k
      ensures SameTxn(a'.sessions.txns, b.sessions.txns, a.clock, k)
      ensures SameEntry(Lookup(a'.sessions.revoked, k), Lookup(b.sessions.revoked, k), a.clock)
    {
      assert SameTxn(a.sessions.txns, b.sessions.txns, a.clock, k);
      assert SameEntry(Lookup(a.sessions.revoked, k), Lookup(b.sessions.revoked, k), a.clock);
    }
    forall id ensures SamePc(At(a', id), At(b, id), a.clock) {
      assert At(a', id) == At(a, id);
    }
  }

  lemma TickStep(wardId: string, a: World, b: World, d: nat)
    requires Similar(a, b)
    ensures Similar(Step(wardId, a, Tick(d)), Step(wardId, b, Tick(d)))
  {
    var a', b' := Step(wardId, a, Tick(d)), Step(wardId, b, Tick(d));
    forall k
      ensures SameTxn(a'.sessions.txns, b'.sessions.txns, a'.clock, k)
      ensures SameEntry(Lookup(a'.sessions.revoked, k), Lookup(b'.sessions.revoked, k), a'.clock)
    {
      assert SameTxn(a.sessions.txns, b.sessions.txns, a.clock, k);
      assert SameEntry(Lookup(a.sessions.revoked, k), Lookup(b.sessions.revoked, k), a.clock);
    }
    forall id ensures SamePc(At(a', id), At(b', id), a'.clock) {
      assert SamePc(At(a, id), At(b, id), a.clock);
    }
  }

  function IdOf(e: Event): Option<nat> {
    match e
    case Tick(_) => None
    case SweepRead => None
    case Sweep => None
    case Request(id, _, _) => Some(id)
    case Look(id) => Some(id)
    case Decide(id) => Some(id)
    case ShowLogin(id, _) => Some(id)
    case Callback(id, _, _) => Some(id)
    case Check(id) => Some(id)
    case Answer(id, _, _) => Some(id)
    case Logout(id, _) => Some(id)
    case Record(id) => Some(id)
  }

  lemma OthersStay(wardId: string, w: World, e: Event, id: nat)
    requires IdOf(e) != Some(id)
    ensures At(Step(wardId, w, e), id) == At(w, id)
  {
  }

  /** The event's own request ends up alike on both sides, and so does what has been done. */
  lemma RequestStep(wardId: string, a: World, b: World, e: Event, id: nat, a': World, b': World)
    requires Similar(a, b) && IdOf(e) == Some(id)
    requires a' == Step(wardId, a, e) && b' == Step(wardId, b, e)
    ensures a'.clock == b'.clock == a.clock && a'.history == b'.history && a'.born == b'.born && a'.sweeper == a.sweeper
  {
    assert SamePc(At(a, id), At(b, id), a.clock);
  }

  lemma OwnPcStep(wardId: string, a: World, b: World, e: Event, id: nat, a': World, b': World)
    requires Similar(a, b) && IdOf(e) == Some(id)
    requires a' == Step(wardId, a, e) && b' == Step(wardId, b, e)
    ensures SamePc(At(a', id), At(b', id), a.clock)
  {
    assert SamePc(At(a, id), At(b, id), a.clock);
    if e.Look? && id in a.pcs && a.pcs[id].Verified? {
      var k := a.pcs[id].claims.sessionId;
      assert SameEntry(Lookup(a.sessions.revoked, k), Lookup(b.sessions.revoked, k), a.clock);
    }
    if e.Callback? {
      assert SameTxn(a.sessions.txns, b.sessions.txns, a.clock, e.state);
    }
  }

  /** Only a login page and a callback touch the transactions. */
  lemma TxnsKept(wardId: string, w: World, e: Event)
    requires !e.ShowLogin? && !e.Callback? && !Sweeping(e)
    ensures Step(wardId, w, e).sessions.txns == w.sessions.txns
  {
  }

  lemma TxnsStep(wardId: string, a: World, b: World, e: Event, id: nat, a': World, b': World, k: string)
    requires Similar(a, b) && IdOf(e) == Some(id)
    requires a' == Step(wardId, a, e) && b' == Step(wardId, b, e)
    ensures SameTxn(a'.sessions.txns, b'.sessions.txns, a.clock, k)
  {
    assert SameTxn(a.sessions.txns, b.sessions.txns, a.clock, k);
    if e.ShowLogin? || e.Callback? {
      assert SamePc(At(a, id), At(b, id), a.clock);
    } else {
      TxnsKept(wardId, a, e);
      TxnsKept(wardId, b, e);
    }
  }

  lemma RevokedStep(wardId: string, a: World, b: World, e: Event, id: nat, a': World, b': World, k: string)
    requires Similar(a, b) && IdOf(e) == Some(id)
    requires a' == Step(wardId, a, e) && b' == Step(wardId, b, e)
    ensures SameEntry(Lookup(a'.sessions.revoked, k), Lookup(b'.sessions.revoked, k), a.clock)
  {
    assert SamePc(At(a, id), At(b, id), a.clock);
    assert SameEntry(Lookup(a.sessions.revoked, k), Lookup(b.sessions.revoked, k), a.clock);
  }

  lemma SimilarStep(wardId: string, a: World, b: World, e: Event)
    requires Similar(a, b) && !Sweeping(e)
    ensures Similar(Step(wardId, a, e), Step(wardId, b, e))
  {
    if e.Tick? {
      TickStep(wardId, a, b, e.d);
    } else {
      var id := IdOf(e).value;
      var a', b' := Step(wardId, a, e), Step(wardId, b, e);
      RequestStep(wardId, a, b, e, id, a', b');
      OwnPcStep(wardId, a, b, e, id, a', b');
      forall k
        ensures SameTxn(a'.sessions.txns, b'.sessions.txns, a'.clock, k)
        ensures SameEntry(Lookup(a'.sessions.revoked, k), Lookup(b'.sessions.revoked, k), a'.clock)
      {
        TxnsStep(wardId, a, b, e, id, a', b', k);
        RevokedStep(wardId, a, b, e, id, a', b', k);
      }
      forall i ensures SamePc(At(a', i), At(b', i), a'.clock) {
        if i != id {
          OthersStay(wardId, a, e, i);
          OthersStay(wardId, b, e, i);
          assert SamePc(At(a, i), At(b, i), a.clock);
        }
      }
    }
  }

  lemma {:induction false} SimilarRun(wardId: string, a: World, b: World, es: seq<Event>)
    requires Similar(a, b)
    ensures Similar(Run(wardId, a, es), Run(wardId, b, WithoutSweeps(es)))
    decreases |es|
  {
    if es != [] {
      if Sweeping(es[0]) {
        SweepStep(wardId, a, b, es[0]);
        SimilarRun(wardId, Step(wardId, a, es[0]), b, es[1..]);
      } else {
        SimilarStep(wardId, a, b, es[0]);
        assert WithoutSweeps(es)[1..] == WithoutSweeps(es[1..]);
        SimilarRun(wardId, Step(wardId, a, es[0]), Step(wardId, b, es[0]), es[1..]);
      }
    }
  }

  /**
   Whatever the interleaving of requests and cleanups, the server forwards, shows login pages,
   exchanges, redirects and refuses exactly as one that never cleans up.
   */
  lemma CleanupUnobservable(wardId: string, start: int, es: seq<Event>)
    ensures Run(wardId, Boot(start), es).history == Run(wardId, Boot(start), WithoutSweeps(es)).history
  {
    SimilarRun(wardId, Boot(start), Boot(start), es);
  }
}
