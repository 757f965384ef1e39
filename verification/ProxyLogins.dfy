/** Logins: every code exchange and every redirect goes back to one login page of its own. */
module ProxyLogins {
  import opened Wrappers
  import opened GoTime
  import opened Jwt
  import opened ProxyServer
  import opened ProxyRuns

  /** Position `k` of the history is the login page that created the transaction. */
  predicate ShownAt(h: seq<Act>, k: nat, t: Txn) {
    k < |h| && h[k].Shown? && h[k].txn == t
  }

  predicate SpentAt(h: seq<Act>, j: nat, k: nat) {
    j < |h| && h[j].Exchanged? && h[j].serial == k
  }

  predicate RedirectedAt(h: seq<Act>, j: nat, k: nat) {
    j < |h| && h[j].Redirected? && h[j].serial == k
  }

  ghost predicate Spent(h: seq<Act>, k: nat) {
    exists j :: SpentAt(h, j, k)
  }

  ghost predicate Redirecting(h: seq<Act>, k: nat) {
    exists j :: RedirectedAt(h, j, k)
  }

  /** A request holds a transaction it has taken out of the map but not yet exchanged. */
  predicate Holds(pc: Option<Pc>, k: nat) {
    pc.Some? && pc.value.Popped? && pc.value.found.Some? && pc.value.serial == k
  }

  predicate Trades(pc: Option<Pc>, k: nat) {
    pc.Some? && pc.value.Exchanging? && pc.value.serial == k
  }

  ghost predicate LiveOk(w: World, s: string) {
    s in w.sessions.txns ==>
      && s in w.born && ShownAt(w.history, w.born[s], w.sessions.txns[s]) && w.history[w.born[s]].state == s
      && !Spent(w.history, w.born[s]) && (forall id :: !Holds(At(w, id), w.born[s]))
  }

  ghost predicate PcFine(w: World, id: nat) {
    id in w.pcs ==>
      match w.pcs[id]
      case Popped(Some(t), k) =>
        ShownAt(w.history, k, t) && !Spent(w.history, k) && (forall i :: i != id ==> !Holds(At(w, i), k))
      case Exchanging(t, k) =>
        ShownAt(w.history, k, t) && Spent(w.history, k) && !Redirecting(w.history, k)
        && (forall i :: i != id ==> !Trades(At(w, i), k))
      case _ => true
  }

  ghost predicate ActFine(wardId: string, h: seq<Act>, j: nat)
    requires j < |h|
  {
    match h[j]
    case Exchanged(_, k, t, at) =>
      && k < j && ShownAt(h, k, t) && t.wardId == wardId && at - t.createdAt <= LOGIN_TTL
      && (forall i :: 0 <= i < j ==> !SpentAt(h, i, k))
    case Redirected(_, k, to, x, token, at) =>
      && k < j && h[k].Shown? && to == OrRoot(h[k].txn.returnTo)
      && (exists i :: 0 <= i < j && SpentAt(h, i, k)) && (forall i :: 0 <= i < j ==> !RedirectedAt(h, i, k))
      && exists jti :: token == SessionToken(x, jti, at)
    case _ => true
  }

  ghost predicate Inv(wardId: string, w: World) {
    && (forall s :: LiveOk(w, s))
    && (forall id :: PcFine(w, id))
    && (forall j :: 0 <= j < |w.history| ==> ActFine(wardId, w.history, j))
  }

  /** The step appends at most one act, and that one is not an exchange or redirect of `k`. */
  lemma SpentStays(h: seq<Act>, h': seq<Act>, k: nat)
    requires h <= h' && |h'| <= |h| + 1
    ensures Spent(h, k) ==> Spent(h', k)
    ensures Redirecting(h, k) ==> Redirecting(h', k)
    ensures Spent(h', k) ==> Spent(h, k) || SpentAt(h', |h|, k)
    ensures Redirecting(h', k) ==> Redirecting(h, k) || RedirectedAt(h', |h|, k)
  {
    if j: nat :| SpentAt(h, j, k) { assert SpentAt(h', j, k); }
    if j: nat :| RedirectedAt(h, j, k) { assert RedirectedAt(h', j, k); }
    if j: nat :| SpentAt(h', j, k) { assert j < |h| ==> SpentAt(h, j, k); }
    if j: nat :| RedirectedAt(h', j, k) { assert j < |h| ==> RedirectedAt(h, j, k); }
  }

  lemma Appends(wardId: string, w: World, e: Event)
    ensures var v := Step(wardId, w, e);
            w.history <= v.history && |v.history| <= |w.history| + 1
  {
  }

  lemma LiveStep(wardId: string, w: World, e: Event, v: World, s: string)
    requires Inv(wardId, w) && v == Step(wardId, w, e)
    ensures LiveOk(v, s)
  {
    Appends(wardId, w, e);
    assert LiveOk(w, s);
    if s in v.sessions.txns {
      assert s in v.born;
      var k := v.born[s];
      SpentStays(w.history, v.history, k);
      if e.ShowLogin? && e.state == s && k == |w.history| {
        NothingFrom(wardId, w, k);
        forall id: nat ensures !Holds(At(v, id), k) {
          assert !Holds(At(w, id), k);
        }
      } else {
        LiveOld(wardId, w, e, v, s);
      }
    }
  }

  /** Nothing refers to a position that the history has not reached. */
  lemma NothingFrom(wardId: string, w: World, k: nat)
    requires Inv(wardId, w) && k >= |w.history|
    ensures !Spent(w.history, k) && !Redirecting(w.history, k)
    ensures forall id :: !Holds(At(w, id), k) && !Trades(At(w, id), k)
  {
    forall j: nat ensures !SpentAt(w.history, j, k) && !RedirectedAt(w.history, j, k) {
      if j < |w.history| { assert ActFine(wardId, w.history, j); }
    }
    forall id: nat ensures !Holds(At(w, id), k) && !Trades(At(w, id), k) {
      assert PcFine(w, id);
    }
  }

  lemma LiveOld(wardId: string, w: World, e: Event, v: World, s: string)
    requires Inv(wardId, w) && v == Step(wardId, w, e)
    requires w.history <= v.history && |v.history| <= |w.history| + 1
    requires s in v.sessions.txns && s in v.born && !(e.ShowLogin? && e.state == s && v.born[s] == |w.history|)
    ensures s in w.sessions.txns && w.sessions.txns[s] == v.sessions.txns[s] && LiveOk(v, s)
  {
    assert LiveOk(w, s);
    var k := v.born[s];
    assert k == w.born[s];
    SpentStays(w.history, v.history, k);
    forall id: nat ensures !Holds(At(v, id), k) {
      assert !Holds(At(w, id), k);
      if IdOf(e) != Some(id) {
        OthersStay(wardId, w, e, id);
      } else if e.Callback? && id !in w.pcs && e.state in w.sessions.txns {
        assert LiveOk(w, e.state);
      }
    }
    assert SpentAt(v.history, |w.history|, k) ==> e.Check? && Holds(At(w, e.id), k);
  }

  lemma PcStep(wardId: string, w: World, e: Event, v: World, id: nat)
    requires Inv(wardId, w) && v == Step(wardId, w, e)
    ensures PcFine(v, id)
  {
    Appends(wardId, w, e);
    if IdOf(e) == Some(id) {
      OwnPc(wardId, w, e, v, id);
    } else if id in v.pcs {
      OthersStay(wardId, w, e, id);
      assert At(v, id) == At(w, id);
      OtherPc(wardId, w, e, v, id);
    }
  }

  lemma OwnPc(wardId: string, w: World, e: Event, v: World, id: nat)
    requires Inv(wardId, w) && v == Step(wardId, w, e) && IdOf(e) == Some(id)
    requires w.history <= v.history && |v.history| <= |w.history| + 1
    ensures PcFine(v, id)
  {
    assert PcFine(w, id);
    if e.Callback? && id !in w.pcs {
      if e.code != "" && e.state != "" && e.state in w.sessions.txns {
        assert LiveOk(w, e.state);
        OwnHeld(wardId, w, e, v, id, w.born[e.state]);
      }
    } else if e.Check? && id in v.pcs && v.pcs[id].Exchanging? && id in w.pcs && w.pcs[id].Popped? {
      OwnTraded(wardId, w, e, v, id, w.pcs[id].serial);
    } else if id in v.pcs && (v.pcs[id].Popped? || v.pcs[id].Exchanging?) {
      assert v == w;
    }
  }

  lemma OwnHeld(wardId: string, w: World, e: Event, v: World, id: nat, k: nat)
    requires Inv(wardId, w) && v == Step(wardId, w, e) && e.Callback? && e.id == id && id !in w.pcs
    requires v.history == w.history && e.state in w.sessions.txns && e.state in w.born && k == w.born[e.state] && id in v.pcs
    requires v.pcs[id] == Popped(Some(w.sessions.txns[e.state]), k)
    ensures PcFine(v, id)
  {
    assert LiveOk(w, e.state);
    forall i: nat | i != id ensures !Holds(At(v, i), k) {
      OthersStay(wardId, w, e, i);
      assert !Holds(At(w, i), k);
    }
  }

  lemma RedirectsAreSpent(wardId: string, h: seq<Act>, k: nat)
    requires forall j :: 0 <= j < |h| ==> ActFine(wardId, h, j)
    ensures Redirecting(h, k) ==> Spent(h, k)
  {
    if Redirecting(h, k) {
      var j: nat :| RedirectedAt(h, j, k);
      assert ActFine(wardId, h, j);
    }
  }

  lemma OwnTraded(wardId: string, w: World, e: Event, v: World, id: nat, k: nat)
    requires Inv(wardId, w) && v == Step(wardId, w, e) && e.Check? && e.id == id
    requires w.history <= v.history && |v.history| <= |w.history| + 1
    requires id in w.pcs && w.pcs[id].Popped? && w.pcs[id].serial == k
    requires id in v.pcs && v.pcs[id].Exchanging?
    ensures PcFine(v, id)
  {
    assert PcFine(w, id);
    assert SpentAt(v.history, |w.history|, k);
    SpentStays(w.history, v.history, k);
    RedirectsAreSpent(wardId, w.history, k);
    forall i: nat | i != id ensures !Trades(At(v, i), k) {
      OthersStay(wardId, w, e, i);
      assert PcFine(w, i);
    }
  }

  lemma OtherPc(wardId: string, w: World, e: Event, v: World, id: nat)
    requires Inv(wardId, w) && v == Step(wardId, w, e) && IdOf(e) != Some(id)
    requires w.history <= v.history && |v.history| <= |w.history| + 1
    requires id in v.pcs && At(v, id) == At(w, id)
    ensures PcFine(v, id)
  {
    assert PcFine(w, id);
    match w.pcs[id]
    case Popped(Some(t), k) => OtherHeld(wardId, w, e, v, id, k);
    case Exchanging(t, k) => OtherTraded(wardId, w, e, v, id, k);
    case _ =>
  }

  /** What one request has taken stays its own while others move. */
  lemma OtherHeld(wardId: string, w: World, e: Event, v: World, id: nat, k: nat)
    requires Inv(wardId, w) && v == Step(wardId, w, e) && IdOf(e) != Some(id)
    requires w.history <= v.history && |v.history| <= |w.history| + 1
    requires Holds(At(w, id), k)
    ensures !Spent(v.history, k) && forall i :: i != id ==> !Holds(At(v, i), k)
  {
    assert PcFine(w, id);
    SpentStays(w.history, v.history, k);
    forall i: nat | i != id ensures !Holds(At(v, i), k) {
      assert !Holds(At(w, i), k);
      if IdOf(e) != Some(i) {
        OthersStay(wardId, w, e, i);
      } else if e.Callback? && i !in w.pcs && e.state in w.sessions.txns {
        assert LiveOk(w, e.state);
        assert !Holds(At(w, id), w.born[e.state]);
      }
    }
    assert SpentAt(v.history, |w.history|, k) ==> e.Check? && Holds(At(w, e.id), k);
  }

  lemma OtherTraded(wardId: string, w: World, e: Event, v: World, id: nat, k: nat)
    requires Inv(wardId, w) && v == Step(wardId, w, e) && IdOf(e) != Some(id)
    requires w.history <= v.history && |v.history| <= |w.history| + 1
    requires Trades(At(w, id), k)
    ensures Spent(v.history, k) && !Redirecting(v.history, k) && forall i :: i != id ==> !Trades(At(v, i), k)
  {
    assert PcFine(w, id);
    SpentStays(w.history, v.history, k);
    forall i: nat | i != id ensures !Trades(At(v, i), k) {
      assert !Trades(At(w, i), k);
      if IdOf(e) != Some(i) {
        OthersStay(wardId, w, e, i);
      } else {
        assert PcFine(w, i);
      }
    }
    assert RedirectedAt(v.history, |w.history|, k) ==> e.Answer? && Trades(At(w, e.id), k);
  }

  lemma ActOld(wardId: string, h: seq<Act>, h': seq<Act>, j: nat)
    requires h <= h' && j < |h| && ActFine(wardId, h, j)
    ensures ActFine(wardId, h', j)
  {
    forall i, k | 0 <= i < j
      ensures SpentAt(h', i, k) == SpentAt(h, i, k) && RedirectedAt(h', i, k) == RedirectedAt(h, i, k)
    {
    }
    if h[j].Redirected? {
      var k := h[j].serial;
      var i :| 0 <= i < j && SpentAt(h, i, k);
      assert SpentAt(h', i, k);
    }
  }

  lemma ActNew(wardId: string, w: World, e: Event, v: World)
    requires Inv(wardId, w) && v == Step(wardId, w, e)
    requires w.history <= v.history && |v.history| == |w.history| + 1
    ensures ActFine(wardId, v.history, |w.history|)
  {
    var j := |w.history|;
    if v.history[j].Exchanged? {
      assert PcFine(w, e.id);
      var k := v.history[j].serial;
      forall i | 0 <= i < j ensures !SpentAt(v.history, i, k) {
        assert SpentAt(v.history, i, k) ==> SpentAt(w.history, i, k);
      }
    } else if v.history[j].Redirected? {
      assert PcFine(w, e.id);
      var k := v.history[j].serial;
      var i :| SpentAt(w.history, i, k);
      assert SpentAt(v.history, i, k);
      forall i | 0 <= i < j ensures !RedirectedAt(v.history, i, k) {
        assert RedirectedAt(v.history, i, k) ==> RedirectedAt(w.history, i, k);
      }
      assert v.history[j].token == SessionToken(e.x.value, e.jti, w.clock);
    }
  }

  lemma InvStep(wardId: string, w: World, e: Event)
    requires Inv(wardId, w)
    ensures Inv(wardId, Step(wardId, w, e))
  {
    var v := Step(wardId, w, e);
    Appends(wardId, w, e);
    forall s ensures LiveOk(v, s) { LiveStep(wardId, w, e, v, s); }
    forall id: nat ensures PcFine(v, id) { PcStep(wardId, w, e, v, id); }
    forall j | 0 <= j < |v.history| ensures ActFine(wardId, v.history, j) {
      if j < |w.history| {
        ActOld(wardId, w.history, v.history, j);
      } else {
        ActNew(wardId, w, e, v);
      }
    }
  }

  lemma {:induction false} InvRun(wardId: string, w: World, es: seq<Event>)
    requires Inv(wardId, w)
    ensures Inv(wardId, Run(wardId, w, es))
    decreases |es|
  {
    if es != [] {
      InvStep(wardId, w, es[0]);
      InvRun(wardId, Step(wardId, w, es[0]), es[1..]);
    }
  }

  lemma BootInv(wardId: string, start: int)
    ensures Inv(wardId, Boot(start))
  {
  }

  /**
   Every code exchange goes back to an earlier login page of this ward that was shown at
   most ten minutes before, and no two exchanges go back to the same one.
   */
  lemma ExchangesInject(wardId: string, start: int, es: seq<Event>, i: nat, j: nat)
    requires var h := Run(wardId, Boot(start), es).history;
             i < j < |h| && h[i].Exchanged? && h[j].Exchanged?
    ensures var h := Run(wardId, Boot(start), es).history;
            && h[i].serial != h[j].serial
            && ShownAt(h[..j], h[j].serial, h[j].txn) && ShownAt(h[..i], h[i].serial, h[i].txn)
            && h[j].txn.wardId == h[i].txn.wardId == wardId
            && h[j].at - h[j].txn.createdAt <= 10 * MINUTE && h[i].at - h[i].txn.createdAt <= 10 * MINUTE
  {
    BootInv(wardId, start);
    InvRun(wardId, Boot(start), es);
    var h := Run(wardId, Boot(start), es).history;
    assert ActFine(wardId, h, i) && ActFine(wardId, h, j);
    assert !SpentAt(h, i, h[j].serial);
  }

  /** Every redirect follows the exchange of its own login page and leads where that page came from. */
  lemma RedirectsReturn(wardId: string, start: int, es: seq<Event>, j: nat) returns (k: nat, x: nat)
    requires j < |Run(wardId, Boot(start), es).history| && Run(wardId, Boot(start), es).history[j].Redirected?
    ensures var h := Run(wardId, Boot(start), es).history;
            && k < x < j && h[k].Shown? && SpentAt(h, x, k) && h[j].serial == k
            && h[j].location == OrRoot(h[k].txn.returnTo)
            && h[x].at - h[k].txn.createdAt <= 10 * MINUTE
            && (forall i :: 0 <= i < |h| && i != j ==> !RedirectedAt(h, i, k))
            && (forall i :: 0 <= i < |h| && i != x ==> !SpentAt(h, i, k))
  {
    BootInv(wardId, start);
    InvRun(wardId, Boot(start), es);
    var h := Run(wardId, Boot(start), es).history;
    assert ActFine(wardId, h, j);
    k := h[j].serial;
    x :| 0 <= x < j && SpentAt(h, x, k);
    assert ActFine(wardId, h, x);
    forall i | 0 <= i < |h| && i != j ensures !RedirectedAt(h, i, k) {
      assert ActFine(wardId, h, i);
      assert i > j ==> h[i].Redirected? && h[i].serial == k ==> RedirectedAt(h, j, k);
    }
    forall i | 0 <= i < |h| && i != x ensures !SpentAt(h, i, k) {
      assert ActFine(wardId, h, i);
    }
  }

  // ---------------------------------------------------------------- from a request back to its login

  /** Cookies that carry a genuine signature are ones this server has set. */
  predicate Unforged(w: World, e: Event) {
    match e
    case Request(_, Some(t), _) => t.authentic ==> exists r :: 0 <= r < |w.history| && SetBy(w.history, r, t)
    case _ => true
  }

  predicate SetBy(h: seq<Act>, r: nat, t: Token) {
    r < |h| && h[r].Redirected? && h[r].token == t
  }

  predicate AllUnforged(wardId: string, w: World, es: seq<Event>)
    decreases |es|
  {
    es == [] || (Unforged(w, es[0]) && AllUnforged(wardId, Step(wardId, w, es[0]), es[1..]))
  }

  /** The claims were read at `at` from a token that the history shows being set. */
  ghost predicate Sourced(wardId: string, h: seq<Act>, c: Claims, at: int) {
    exists r :: 0 <= r < |h| && SourcedAt(wardId, h, r, c, at)
  }

  predicate SourcedAt(wardId: string, h: seq<Act>, r: nat, c: Claims, at: int) {
    r < |h| && h[r].Redirected? && CookieClaims(wardId, Some(h[r].token), at) == Some(c)
  }

  ghost predicate PcSourced(wardId: string, h: seq<Act>, pc: Pc) {
    match pc
    case Verified(c, at, _) => Sourced(wardId, h, c, at)
    case Looked(c, at, _, _, _) => Sourced(wardId, h, c, at)
    case _ => true
  }

  ghost predicate AllSourced(wardId: string, w: World) {
    && (forall id :: id in w.pcs ==> PcSourced(wardId, w.history, w.pcs[id]))
    && (forall j :: 0 <= j < |w.history| && w.history[j].Passed? ==>
          Sourced(wardId, w.history[..j], w.history[j].claims, w.history[j].verifiedAt))
  }

  lemma SourcedStays(wardId: string, h: seq<Act>, h': seq<Act>, c: Claims, at: int)
    requires h <= h' && Sourced(wardId, h, c, at)
    ensures Sourced(wardId, h', c, at)
  {
    var r :| 0 <= r < |h| && SourcedAt(wardId, h, r, c, at);
    assert SourcedAt(wardId, h', r, c, at);
  }

  lemma PcSourcedStep(wardId: string, w: World, e: Event, v: World, id: nat)
    requires AllSourced(wardId, w) && Unforged(w, e) && v == Step(wardId, w, e) && id in v.pcs
    ensures PcSourced(wardId, v.history, v.pcs[id])
  {
    Appends(wardId, w, e);
    if IdOf(e) != Some(id) {
      OthersStay(wardId, w, e, id);
      assert At(v, id) == At(w, id);
    }
    if e.Request? && e.id == id && id !in w.pcs && v.pcs[id].Verified? {
      var r :| 0 <= r < |w.history| && SetBy(w.history, r, e.cookie.value);
      assert SourcedAt(wardId, v.history, r, v.pcs[id].claims, v.pcs[id].at);
    } else if v.pcs[id].Verified? {
      SourcedStays(wardId, w.history, v.history, w.pcs[id].claims, w.pcs[id].at);
    } else if v.pcs[id].Looked? {
      SourcedStays(wardId, w.history, v.history, w.pcs[id].claims, w.pcs[id].at);
    }
  }

  lemma SourcedStep(wardId: string, w: World, e: Event)
    requires AllSourced(wardId, w) && Unforged(w, e)
    ensures AllSourced(wardId, Step(wardId, w, e))
  {
    var v := Step(wardId, w, e);
    Appends(wardId, w, e);
    forall id | id in v.pcs ensures PcSourced(wardId, v.history, v.pcs[id]) {
      PcSourcedStep(wardId, w, e, v, id);
    }
    forall j | 0 <= j < |v.history| && v.history[j].Passed?
      ensures Sourced(wardId, v.history[..j], v.history[j].claims, v.history[j].verifiedAt)
    {
      if j < |w.history| {
        assert v.history[..j] == w.history[..j];
      } else {
        assert v.history[..j] == w.history;
        assert PcSourced(wardId, w.history, w.pcs[e.id]);
      }
    }
  }

  lemma {:induction false} SourcedRun(wardId: string, w: World, es: seq<Event>)
    requires AllSourced(wardId, w) && AllUnforged(wardId, w, es)
    ensures AllSourced(wardId, Run(wardId, w, es))
    decreases |es|
  {
    if es != [] {
      SourcedStep(wardId, w, es[0]);
      SourcedRun(wardId, Step(wardId, w, es[0]), es[1..]);
    }
  }

  /**
   Every request that passes does so on a session that a login of its own created: a page
   shown, its code exchanged within ten minutes, its cookie set, and less than eight hours
   between that second and the verification.
   */
  lemma PassedRequestsLoggedIn(wardId: string, start: int, es: seq<Event>, j: nat) returns (k: nat, x: nat, r: nat)
    requires AllUnforged(wardId, Boot(start), es)
    requires j < |Run(wardId, Boot(start), es).history| && Run(wardId, Boot(start), es).history[j].Passed?
    ensures var h := Run(wardId, Boot(start), es).history;
            && k < x < r < j && h[k].Shown? && SpentAt(h, x, k) && RedirectedAt(h, r, k)
            && h[x].at - h[k].txn.createdAt <= 10 * MINUTE
            && h[r].x.sessionId == h[j].claims.sessionId && h[r].x.principalId == h[j].claims.principalId
            && h[r].x.wardId == wardId
            && Whole(h[r].at) * SECOND <= h[j].verifiedAt < Whole(h[r].at) * SECOND + 8 * HOUR
  {
    SourcedRun(wardId, Boot(start), es);
    var h := Run(wardId, Boot(start), es).history;
    var c, at := h[j].claims, h[j].verifiedAt;
    r :| 0 <= r < |h[..j]| && SourcedAt(wardId, h[..j], r, c, at);
    assert h[..j][r] == h[r];
    k, x := RedirectsReturn(wardId, start, es, r);
    BootInv(wardId, start);
    InvRun(wardId, Boot(start), es);
    assert ActFine(wardId, h, r);
    var y := h[r].x;
    var jti :| h[r].token == SessionToken(y, jti, h[r].at);
    SignedTokenLifetime(y.principalId, y.wardId, y.sessionId, jti, h[r].at, at);
  }
}
