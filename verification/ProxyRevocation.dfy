/** How long a logout lasts: what can still pass for a session after its revocation was recorded. */
module ProxyRevocation {
  import opened Wrappers
  import opened GoTime
  import opened Jwt
  import opened ProxyServer
  import opened ProxyRuns

  predicate Logs(a: Act, sid: string) {
    a.Recorded? && a.sessionId == sid
  }

  /** The expiry that the latest logout of the session recorded. */
  function LastExpiry(h: seq<Act>, sid: string): Option<int> {
    if h == [] then None
    else if Logs(h[|h| - 1], sid) then Some(h[|h| - 1].exp)
    else LastExpiry(h[..|h| - 1], sid)
  }

  /** Nothing bars a request at `now`: no logout, or one whose recorded expiry has come. */
  predicate Over(last: Option<int>, now: int) {
    last.None? || now >= last.value * SECOND
  }

  /** What a lookup answers is the latest logout, or nothing once that is over. */
  predicate Agrees(entry: Option<int>, last: Option<int>, clock: int) {
    if entry.Some? then last.Some? && entry.value == last.value * SECOND else Over(last, clock)
  }

  predicate PcOk(h: seq<Act>, clock: int, pc: Pc) {
    match pc
    case Verified(c, at, _) => at < c.exp * SECOND
    case Looked(c, at, _, entry, seen) =>
      && at < c.exp * SECOND && seen <= |h|
      && Agrees(entry, LastExpiry(h[..seen], c.sessionId), clock)
    case _ => true
  }

  predicate ActOk(h: seq<Act>, j: nat)
    requires j < |h|
  {
    var a := h[j];
    a.Passed? ==>
      && a.verifiedAt < a.claims.exp * SECOND && a.seen <= j
      && Over(LastExpiry(h[..a.seen], a.claims.sessionId), a.decidedAt)
  }

  ghost predicate Inv(w: World) {
    && (w.sweeper.Some? ==> w.sweeper.value <= w.clock)
    && (forall sid :: Agrees(Lookup(w.sessions.revoked, sid), LastExpiry(w.history, sid), w.clock))
    && (forall id :: id in w.pcs ==> PcOk(w.history, w.clock, w.pcs[id]))
    && (forall j :: 0 <= j < |w.history| ==> ActOk(w.history, j))
  }

  lemma HistoryGrows(wardId: string, w: World, e: Event)
    ensures var v := Step(wardId, w, e);
            w.history <= v.history && |v.history| <= |w.history| + 1 && w.clock <= v.clock
  {
  }

  /** One more act is the latest logout of its own session and changes nothing for the others. */
  lemma LastSnoc(h: seq<Act>, a: Act, sid: string)
    ensures LastExpiry(h + [a], sid) == if Logs(a, sid) then Some(a.exp) else LastExpiry(h, sid)
  {
    assert (h + [a])[..|h|] == h;
  }

  /** Only a recording and a sweep touch the revocations, and only a recording is a logout. */
  lemma RevokedKept(wardId: string, w: World, e: Event)
    requires !e.Record? && !e.Sweep?
    ensures var v := Step(wardId, w, e);
            && v.sessions.revoked == w.sessions.revoked
            && (|v.history| > |w.history| ==> !v.history[|w.history|].Recorded?)
  {
  }

  lemma LastKept(h: seq<Act>, h': seq<Act>, sid: string)
    requires h <= h' && |h'| <= |h| + 1 && (|h'| > |h| ==> !Logs(h'[|h|], sid))
    ensures LastExpiry(h', sid) == LastExpiry(h, sid)
  {
    if |h'| > |h| {
      assert h' == h + [h'[|h|]];
      LastSnoc(h, h'[|h|], sid);
    } else {
      assert h' == h;
    }
  }

  lemma RevokedStep(wardId: string, w: World, e: Event, v: World, sid: string)
    requires Inv(w) && v == Step(wardId, w, e)
    ensures Agrees(Lookup(v.sessions.revoked, sid), LastExpiry(v.history, sid), v.clock)
  {
    assert Agrees(Lookup(w.sessions.revoked, sid), LastExpiry(w.history, sid), w.clock);
    if e.Record? {
      if e.id in w.pcs && w.pcs[e.id].LoggingOut? {
        LastSnoc(w.history, v.history[|w.history|], sid);
      }
    } else if !e.Sweep? {
      HistoryGrows(wardId, w, e);
      RevokedKept(wardId, w, e);
      LastKept(w.history, v.history, sid);
    }
  }

  lemma PcsStep(wardId: string, w: World, e: Event, v: World, id: nat)
    requires Inv(w) && v == Step(wardId, w, e) && id in v.pcs
    requires w.history <= v.history && w.clock <= v.clock
    ensures PcOk(v.history, v.clock, v.pcs[id])
  {
    if e.Look? && e.id == id && id in w.pcs && w.pcs[id].Verified? {
      assert PcOk(w.history, w.clock, w.pcs[id]);
      assert w.history[..|w.history|] == w.history;
    } else {
      if IdOf(e) != Some(id) {
        OthersStay(wardId, w, e, id);
        assert At(v, id) == At(w, id);
      }
      if id in w.pcs { PcStays(w.history, w.clock, v.history, v.clock, w.pcs[id]); }
    }
  }

  lemma PcStays(h: seq<Act>, clock: int, h': seq<Act>, clock': int, pc: Pc)
    requires PcOk(h, clock, pc) && h <= h' && clock <= clock'
    ensures PcOk(h', clock', pc)
  {
    if pc.Looked? {
      assert h'[..pc.seen] == h[..pc.seen];
    }
  }

  lemma ActsStep(wardId: string, w: World, e: Event, v: World, j: nat)
    requires Inv(w) && v == Step(wardId, w, e) && j < |v.history| && w.history <= v.history
    ensures ActOk(v.history, j)
  {
    if j < |w.history| {
      assert ActOk(w.history, j);
      assert v.history[j].Passed? ==> v.history[..v.history[j].seen] == w.history[..v.history[j].seen];
    } else if e.Decide? {
      assert PcOk(w.history, w.clock, w.pcs[e.id]);
      assert v.history[j].Passed? ==> v.history[..v.history[j].seen] == w.history[..v.history[j].seen];
    }
  }

  lemma InvStep(wardId: string, w: World, e: Event)
    requires Inv(w)
    ensures Inv(Step(wardId, w, e))
  {
    var v := Step(wardId, w, e);
    HistoryGrows(wardId, w, e);
    forall sid ensures Agrees(Lookup(v.sessions.revoked, sid), LastExpiry(v.history, sid), v.clock) {
      RevokedStep(wardId, w, e, v, sid);
    }
    forall id | id in v.pcs ensures PcOk(v.history, v.clock, v.pcs[id]) {
      PcsStep(wardId, w, e, v, id);
    }
    forall j | 0 <= j < |v.history| ensures ActOk(v.history, j) {
      ActsStep(wardId, w, e, v, j);
    }
  }

  lemma {:induction false} InvRun(wardId: string, w: World, es: seq<Event>)
    requires Inv(w)
    ensures Inv(Run(wardId, w, es))
    decreases |es|
  {
    if es != [] {
      InvStep(wardId, w, es[0]);
      InvRun(wardId, Step(wardId, w, es[0]), es[1..]);
    }
  }

  /**
   The exact rule, for every run and whatever expiries its tokens have: a verified request
   that has looked for revocations passes if and only if the session had not been logged out
   when it looked, or the expiry that the latest logout recorded has come since.
   */
  lemma PassesExactly(wardId: string, start: int, es: seq<Event>, id: nat)
    requires var w := Run(wardId, Boot(start), es); id in w.pcs && w.pcs[id].Looked?
    ensures var w := Run(wardId, Boot(start), es);
            var p := w.pcs[id];
            var v := Step(wardId, w, Decide(id));
            && p.seen <= |w.history|
            && (if Over(LastExpiry(w.history[..p.seen], p.claims.sessionId), w.clock)
                then v.history == w.history + [Passed(id, p.claims, p.at, p.seen, w.clock)]
                else v.history == w.history && At(v, id) == Some(Rejected(p.uri)))
  {
    InvRun(wardId, Boot(start), es);
  }

  /**
   A request that looked after a logout of its session passed only if its token expired
   between being verified and being decided, provided that logout, the latest before it
   looked, recorded no earlier expiry than the token's own.
   */
  lemma RevocationLasts(wardId: string, start: int, es: seq<Event>, j: nat)
    requires var h := Run(wardId, Boot(start), es).history;
             && j < |h| && h[j].Passed? && h[j].seen <= |h|
             && var last := LastExpiry(h[..h[j].seen], h[j].claims.sessionId);
             last.Some? && last.value >= h[j].claims.exp
    ensures var a := Run(wardId, Boot(start), es).history[j];
            a.verifiedAt < a.claims.exp * SECOND <= a.decidedAt
  {
    InvRun(wardId, Boot(start), es);
    assert ActOk(Run(wardId, Boot(start), es).history, j);
  }

  /** With one clock reading for both questions, such a request did not pass. */
  lemma RevokedNeverPasses(wardId: string, start: int, es: seq<Event>, j: nat)
    requires var h := Run(wardId, Boot(start), es).history;
             j < |h| && h[j].Passed? && h[j].verifiedAt == h[j].decidedAt
    ensures var h := Run(wardId, Boot(start), es).history;
            && h[j].seen <= j
            && var last := LastExpiry(h[..h[j].seen], h[j].claims.sessionId);
            last.None? || last.value < h[j].claims.exp
  {
    InvRun(wardId, Boot(start), es);
    assert ActOk(Run(wardId, Boot(start), es).history, j);
  }

  /** When every token of a session has one expiry, no logout records another. */
  predicate OneExpiry(es: seq<Event>, sid: string, exp: int) {
    forall k :: 0 <= k < |es| ==> CarriesExpiry(es[k], sid, exp)
  }

  predicate CarriesExpiry(e: Event, sid: string, exp: int) {
    match e
    case Request(_, Some(t), _) => t.payload.sessionId == sid ==> t.payload.exp == exp
    case Logout(_, Some(t)) => t.payload.sessionId == sid ==> t.payload.exp == exp
    case _ => true
  }

  predicate PcExpiry(pc: Pc, sid: string, exp: int) {
    match pc
    case Verified(c, _, _) => c.sessionId == sid ==> c.exp == exp
    case Looked(c, _, _, _, _) => c.sessionId == sid ==> c.exp == exp
    case LoggingOut(c) => c.sessionId == sid ==> c.exp == exp
    case _ => true
  }

  predicate ActExpiry(a: Act, sid: string, exp: int) {
    (Logs(a, sid) ==> a.exp == exp) && (a.Passed? && a.claims.sessionId == sid ==> a.claims.exp == exp)
  }

  predicate AllExpiry(w: World, sid: string, exp: int) {
    && (forall id :: id in w.pcs ==> PcExpiry(w.pcs[id], sid, exp))
    && (forall k :: 0 <= k < |w.history| ==> ActExpiry(w.history[k], sid, exp))
  }

  lemma ExpiryStep(wardId: string, w: World, e: Event, sid: string, exp: int)
    requires AllExpiry(w, sid, exp) && CarriesExpiry(e, sid, exp)
    ensures AllExpiry(Step(wardId, w, e), sid, exp)
  {
  }

  lemma {:induction false} ExpiryRun(wardId: string, w: World, es: seq<Event>, sid: string, exp: int)
    requires AllExpiry(w, sid, exp) && OneExpiry(es, sid, exp)
    ensures AllExpiry(Run(wardId, w, es), sid, exp)
    decreases |es|
  {
    if es != [] {
      ExpiryStep(wardId, w, es[0], sid, exp);
      ExpiryRun(wardId, Step(wardId, w, es[0]), es[1..], sid, exp);
    }
  }

  /** Some logout before `n` makes a latest one, whose expiry is that of some act. */
  lemma {:induction false} LastIsRecorded(h: seq<Act>, sid: string, i: nat) returns (k: nat)
    requires i < |h| && Logs(h[i], sid)
    ensures k < |h| && Logs(h[k], sid) && LastExpiry(h, sid) == Some(h[k].exp)
    decreases |h|
  {
    k := |h| - 1;
    if !Logs(h[k], sid) {
      k := LastIsRecorded(h[..k], sid, i);
    }
  }

  /** One expiry per session is enough for a logout to last. */
  lemma OneExpirySuffices(wardId: string, start: int, es: seq<Event>, sid: string, exp: int, i: nat, j: nat)
    requires OneExpiry(es, sid, exp)
    requires var h := Run(wardId, Boot(start), es).history;
             && i < |h| && Logs(h[i], sid) && j < |h| && h[j].Passed? && h[j].claims.sessionId == sid && h[j].seen > i
    ensures var a := Run(wardId, Boot(start), es).history[j];
            a.verifiedAt < exp * SECOND <= a.decidedAt
  {
    ExpiryRun(wardId, Boot(start), es, sid, exp);
    InvRun(wardId, Boot(start), es);
    var h := Run(wardId, Boot(start), es).history;
    assert ActOk(h, j) && ActExpiry(h[j], sid, exp);
    var k := LastIsRecorded(h[..h[j].seen], sid, i);
    assert ActExpiry(h[k], sid, exp);
    RevocationLasts(wardId, start, es, j);
  }

  // ---------------------------------------------------------------- both conditions are needed

  function TokenUntil(exp: int): Token {
    Token(true, Payload(VERSION, ISSUER, "p", [Audience("w")], "j", "p", "w", "s", 0, 0, exp))
  }

  const LATE_CHECK: seq<Event> := [
    Request(1, Some(TokenUntil(1)), "/"), Logout(2, Some(TokenUntil(1))), Record(2),
    Tick(SECOND), Look(1), Decide(1)]

  const TWO_EXPIRIES: seq<Event> := [
    Logout(1, Some(TokenUntil(1))), Record(1), Tick(SECOND),
    Request(2, Some(TokenUntil(2)), "/"), Look(2), Decide(2)]

  lemma RunThree(w: World, a: Event, b: Event, c: Event, rest: seq<Event>)
    ensures Run("w", w, [a, b, c] + rest) == Run("w", Step("w", Step("w", Step("w", w, a), b), c), rest)
  {
    assert [a, b, c] + rest == [a] + ([b] + ([c] + rest));
    RunStep("w", w, a, [b] + ([c] + rest));
    RunStep("w", Step("w", w, a), b, [c] + rest);
    RunStep("w", Step("w", Step("w", w, a), b), c, rest);
  }

  lemma RunSix(w: World, a: Event, b: Event, c: Event, d: Event, e: Event, f: Event)
    ensures Run("w", w, [a, b, c, d, e, f])
            == Step("w", Step("w", Step("w", Step("w", Step("w", Step("w", w, a), b), c), d), e), f)
  {
    assert [a, b, c, d, e, f] == [a, b, c] + [d, e, f];
    RunThree(w, a, b, c, [d, e, f]);
    assert [d, e, f] == [d, e, f] + [];
    RunThree(Step("w", Step("w", Step("w", w, a), b), c), d, e, f, []);
  }

  /** With two readings a request does pass after the logout, once its token has run out in between. */
  lemma LateCheckPasses()
    ensures OneExpiry(LATE_CHECK, "s", 1)
    ensures var h := Run("w", Boot(0), LATE_CHECK).history;
            |h| == 2 && Logs(h[0], "s") && h[1].Passed? && h[1].claims.sessionId == "s" && h[1].seen > 0
            && h[1].verifiedAt < SECOND <= h[1].decidedAt
  {
    RunSix(Boot(0), LATE_CHECK[0], LATE_CHECK[1], LATE_CHECK[2], LATE_CHECK[3], LATE_CHECK[4], LATE_CHECK[5]);
    var w1 := Step("w", Boot(0), LATE_CHECK[0]);
    var w2 := Step("w", w1, LATE_CHECK[1]);
    var w3 := Step("w", w2, LATE_CHECK[2]);
    assert w3.history == [Recorded(2, "s", 1)];
  }

  /** With a second expiry for the session, one reading is not enough: the later token outlives the entry. */
  lemma SecondExpiryPasses()
    ensures var h := Run("w", Boot(0), TWO_EXPIRIES).history;
            |h| == 2 && Logs(h[0], "s") && h[1].Passed? && h[1].claims.sessionId == "s" && h[1].seen > 0
            && h[1].verifiedAt == h[1].decidedAt
  {
    RunSix(Boot(0), TWO_EXPIRIES[0], TWO_EXPIRIES[1], TWO_EXPIRIES[2], TWO_EXPIRIES[3], TWO_EXPIRIES[4], TWO_EXPIRIES[5]);
    var w1 := Step("w", Boot(0), TWO_EXPIRIES[0]);
    var w2 := Step("w", w1, TWO_EXPIRIES[1]);
    assert w2.history == [Recorded(1, "s", 1)];
    var w3 := Step("w", w2, TWO_EXPIRIES[2]);
    var w4 := Step("w", w3, TWO_EXPIRIES[3]);
    assert w4.pcs[2].Verified?;
  }
}
