/**
 From draft to ward: polling a draft, claiming it when the platform has converted it,
 refreshing a ward, and the heartbeat. Each produces a journal of platform calls and saves.
 */
module Activation {
  import opened Wrappers
  import opened GoTime
  import opened Records
  import opened RuntimeObject
  import opened Store
  import opened StoreNaming
  import opened Lifecycle
  import opened NewService

  /** Answers and clock readings; `None` is an error. */
  datatype Answers = Answers(
    status: StatusAnswer, claim: Option<Claim>, ward: Option<WardView>, refresh: Option<WardView>,
    clearedAt: int, claimedAt: int, polledAt: int, refreshedAt: int)

  datatype Finish = Failed | Unfinished(current: Option<Runtime>) | Converted(ward: Runtime)

  datatype Report = Report(runtime: Option<Runtime>, claimed: bool, refreshed: bool, problem: bool)

  const LOAD: Entry := Complete(LoadWardOp)

  function SaveOf(r: Runtime): Entry {
    Complete(SaveWardOp(ToRecord(r)))
  }

  predicate Unclaimed(r: Runtime) {
    r.wardId == "" && r.wardDraftId != "" && r.wardDraftSecret != ""
  }

  predicate Convertible(a: StatusAnswer) {
    a == StatusIs("converted_pending_claim") || a == StatusIs("claimed")
  }

  /** The claim, and the ward as first read with its new secret. */
  function Claiming(r: Runtime, a: Answers): (seq<Entry>, Option<Runtime>) {
    var ask := AskClaim(r.wardDraftId, r.wardDraftSecret, a.claim);
    if a.claim.Some? && a.ward.Some? && Claimable(a.claim.value, a.ward.value) then
      var c := Claimed(r, a.claim.value, a.ward.value, a.claimedAt);
      ([ask, SaveOf(c)], Some(c))
    else ([ask], None)
  }

  /** What is done about an unclaimed draft, and the runtime saved last if one is. */
  function Decided(r: Runtime, status: StatusAnswer, a: Answers): (seq<Entry>, Option<Runtime>) {
    if Convertible(status) then Claiming(r, a)
    else if Voided(status) then
      var c := DraftCleared(r).(updatedAt := a.clearedAt);
      ([SaveOf(c)], Some(c))
    else ([], None)
  }

  predicate SaveFails(s: State, r: Runtime) {
    SaveWard(s, ToRecord(r)).1.Some?
  }

  function FinishOf(s: State, status: StatusAnswer, saved: Option<Runtime>): Finish {
    if status == StatusError(false) then Failed
    else if saved.None? then (if Convertible(status) then Failed else Unfinished(None))
    else if SaveFails(s, saved.value) then Failed
    else if Convertible(status) then Converted(saved.value)
    else Unfinished(if status.StatusError? then saved else None)
  }

  ghost function Finalized(s: State, status: StatusAnswer, a: Answers): (seq<Entry>, Finish) {
    var (s1, loaded) := LoadWard(s);
    if loaded.Err? then ([LOAD], Failed)
    else if loaded.value.None? || !Unclaimed(FromRecord(loaded.value.value)) then ([LOAD], Unfinished(None))
    else
      var (es, saved) := Decided(FromRecord(loaded.value.value), status, a);
      ([LOAD] + es, FinishOf(s1, status, saved))
  }

  function Polled(r: Runtime, status: string, now: int): Runtime {
    r.(wardStatus := OrString(status, r.wardStatus), lastRefreshedAt := now, updatedAt := now)
  }

  /** Polling an unclaimed draft; `None` is the error that ends the command. */
  ghost function DraftPart(s: State, r: Runtime, a: Answers): (seq<Entry>, Option<Runtime>, bool) {
    if !Unclaimed(r) || !a.status.StatusIs? then ([], Some(r), false)
    else if Convertible(a.status) then
      var (es, f) := Finalized(s, a.status, a);
      (es, if f.Failed? then None else if f.Converted? then Some(f.ward) else Some(r), f.Converted?)
    else
      var p := Polled(r, a.status.status, a.polledAt);
      ([SaveOf(p)], if SaveFails(s, p) then None else Some(p), false)
  }

  /** Reading a ward again; `None` is a failed save. */
  function WardPart(s: State, r: Runtime, a: Answers): (seq<Entry>, Option<Runtime>) {
    if r.wardId == "" || r.wardSecret == "" || a.refresh.None? then ([], Some(r))
    else
      var f := Refreshed(r, a.refresh.value, a.refreshedAt);
      ([SaveOf(f)], if SaveFails(s, f) then None else Some(f))
  }

  predicate WardRead(r: Runtime) {
    r.wardId != "" && r.wardSecret != ""
  }

  function ReportOf(first: Runtime, second: Runtime, last: Runtime, claimed: bool, a: Answers): Report {
    Report(Some(last), claimed,
           (Unclaimed(first) && !a.status.StatusError?) || (WardRead(second) && a.refresh.Some?),
           (Unclaimed(first) && a.status.StatusError?) || (WardRead(second) && a.refresh.None?))
  }

  ghost function StatusRun(s: State, a: Answers): (seq<Entry>, Option<Report>) {
    var (s1, loaded) := LoadWard(s);
    if loaded.Err? then ([LOAD], None)
    else if loaded.value.None? then ([LOAD], Some(Report(None, false, false, false)))
    else
      var r := FromRecord(loaded.value.value);
      var (e1, r1, claimed) := DraftPart(s1, r, a);
      if r1.None? then ([LOAD] + e1, None)
      else
        var (e2, r2) := WardPart(Stored(s1, e1), r1.value, a);
        ([LOAD] + e1 + e2, if r2.None? then None else Some(ReportOf(r, r1.value, r2.value, claimed, a)))
  }

  /** Start-up takes the ward's status from the platform but keeps the local configuration. */
  function Confirmed(r: Runtime, ward: WardView, now: int): Runtime {
    Refreshed(r, ward, now).(upstream := r.upstream, ingress := r.ingress, domain := r.domain)
  }

  predicate Terminal(status: string) {
    status == "expired" || status == "suspended" || status == "deleted"
  }

  /** What the check at the start of serving saves, if anything. */
  function Verifying(r: Runtime, answer: Option<WardView>, now: int): Option<Runtime> {
    if r.wardId == "" || answer.None? then None
    else if answer.value.status == ACTIVE then Some(Confirmed(r, answer.value, now))
    else if Terminal(answer.value.status) then Some(Polled(r, answer.value.status, now))
    else None
  }

  // ---------------------------------------------------------------- the journals are sound

  predicate Fine(r: Runtime, reg: Registry, sha: Hash) {
    Good(ToRecord(r), reg, sha)
  }

  lemma LoadedFine(s: State, reg: Registry, sha: Hash)
    requires DiskGood(s.disk, reg, sha)
    ensures var (s1, loaded) := LoadWard(s);
            && s1.disk == s.disk
            && (loaded.Ok? && loaded.value.Some? ==> Fine(FromRecord(loaded.value.value), reg, sha))
  {
  }

  lemma OneSave(w: World, r: Runtime, sha: Hash)
    requires Fine(r, w.reg, sha)
    ensures AllSound(w, [SaveOf(r)], sha) && PlayAll(w, [SaveOf(r)]).reg == w.reg
  {
  }

  /** The claim sends the registered preimage, and the record then saved has its ward's credentials. */
  lemma ClaimingSound(w: World, r: Runtime, a: Answers, sha: Hash)
    requires Fine(r, w.reg, sha) && Unclaimed(r) && AllHonest(w, Claiming(r, a).0)
    ensures var (es, c) := Claiming(r, a);
            AllSound(w, es, sha) && (c.Some? ==> Fine(c.value, PlayAll(w, es).reg, sha))
  {
    var ask := AskClaim(r.wardDraftId, r.wardDraftSecret, a.claim);
    var (es, c) := Claiming(r, a);
    var v := Play(w, ask);
    assert es == [ask] + es[1..];
    Cons(w, ask, es[1..], sha);
    if c.Some? {
      OneSave(v, c.value, sha);
      assert es[1..] == [SaveOf(c.value)];
    }
  }

  lemma DecidedSound(w: World, r: Runtime, status: StatusAnswer, a: Answers, sha: Hash)
    requires Fine(r, w.reg, sha) && Unclaimed(r) && AllHonest(w, Decided(r, status, a).0)
    ensures var (es, c) := Decided(r, status, a);
            AllSound(w, es, sha) && (c.Some? ==> Fine(c.value, PlayAll(w, es).reg, sha))
  {
    if Convertible(status) {
      ClaimingSound(w, r, a, sha);
    } else if Voided(status) {
      OneSave(w, DraftCleared(r).(updatedAt := a.clearedAt), sha);
    }
  }

  /** Finishing a draft, whatever the platform answers. */
  lemma FinalizeSound(w: World, status: StatusAnswer, a: Answers, sha: Hash)
    requires Inv(w, sha) && AllHonest(w, Finalized(w.store, status, a).0)
    ensures var (es, f) := Finalized(w.store, status, a);
            AllSound(w, es, sha) && (f.Converted? ==> Fine(f.ward, PlayAll(w, es).reg, sha))
  {
    var (es, f) := Finalized(w.store, status, a);
    LoadedFine(w.store, w.reg, sha);
    assert es == [LOAD] + es[1..];
    Cons(w, LOAD, es[1..], sha);
    if es[1..] != [] {
      var r := FromRecord(LoadWard(w.store).1.value.value);
      assert es[1..] == Decided(r, status, a).0;
      DecidedSound(Play(w, LOAD), r, status, a, sha);
    }
  }

  lemma DraftPartSound(w: World, r: Runtime, a: Answers, sha: Hash)
    requires Inv(w, sha) && Fine(r, w.reg, sha) && AllHonest(w, DraftPart(w.store, r, a).0)
    requires Injective(sha)
    ensures var (es, r1, _) := DraftPart(w.store, r, a);
            AllSound(w, es, sha) && (r1.Some? ==> Fine(r1.value, PlayAll(w, es).reg, sha))
  {
    var (es, r1, _) := DraftPart(w.store, r, a);
    if es != [] {
      if Convertible(a.status) {
        FinalizeSound(w, a.status, a, sha);
        InvRun(w, es, sha);
        GoodStable(ToRecord(r), w.reg, PlayAll(w, es).reg, sha);
      } else {
        OneSave(w, Polled(r, a.status.status, a.polledAt), sha);
      }
    }
  }

  lemma WardPartSound(w: World, r: Runtime, a: Answers, sha: Hash)
    requires Fine(r, w.reg, sha)
    ensures AllSound(w, WardPart(w.store, r, a).0, sha)
  {
  }

  lemma DraftPartRuns(s: State, r: Runtime, a: Answers)
    ensures forall i :: 0 <= i < |DraftPart(s, r, a).0| ==> !DraftPart(s, r, a).0[i].Stopped?
  {
  }

  /** The status command journals only entries the client is entitled to. */
  lemma StatusRunSound(w: World, a: Answers, sha: Hash)
    requires Inv(w, sha) && Injective(sha) && AllHonest(w, StatusRun(w.store, a).0)
    ensures AllSound(w, StatusRun(w.store, a).0, sha)
  {
    var loaded := LoadWard(w.store).1;
    LoadedFine(w.store, w.reg, sha);
    var rest := if loaded.Ok? && loaded.value.Some? then RestOf(LoadWard(w.store).0, FromRecord(loaded.value.value), a) else [];
    assert StatusRun(w.store, a).0 == [LOAD] + rest;
    Cons(w, LOAD, rest, sha);
    if rest != [] {
      RestSound(Play(w, LOAD), FromRecord(loaded.value.value), a, sha);
    }
  }

  /** What follows the load. */
  ghost function RestOf(s: State, r: Runtime, a: Answers): seq<Entry> {
    var (e1, r1, _) := DraftPart(s, r, a);
    e1 + if r1.None? then [] else WardPart(Stored(s, e1), r1.value, a).0
  }

  lemma RestSound(v: World, r: Runtime, a: Answers, sha: Hash)
    requires Inv(v, sha) && Injective(sha) && Fine(r, v.reg, sha) && AllHonest(v, RestOf(v.store, r, a))
    ensures AllSound(v, RestOf(v.store, r, a), sha)
  {
    var (e1, r1, _) := DraftPart(v.store, r, a);
    var e2 := if r1.None? then [] else WardPart(Stored(v.store, e1), r1.value, a).0;
    PlayAppend(v, e1, e2, sha);
    DraftPartSound(v, r, a, sha);
    DraftPartRuns(v.store, r, a);
    PlayStores(v, e1);
    if r1.Some? {
      WardPartSound(PlayAll(v, e1), r1.value, a, sha);
    }
  }

  /** A heartbeat changes no identity, so what it saves is as good as what it started from. */
  lemma BeatSound(w: World, r: Runtime, hb: Heartbeat, now: int, sha: Hash)
    requires Fine(r, w.reg, sha)
    ensures Fine(Beaten(r, hb, now), w.reg, sha) && AllSound(w, [SaveOf(Beaten(r, hb, now))], sha)
  {
  }

  lemma VerifyingSound(w: World, r: Runtime, answer: Option<WardView>, now: int, sha: Hash)
    requires Fine(r, w.reg, sha)
    ensures var f := Verifying(r, answer, now);
            f.Some? ==> Fine(f.value, w.reg, sha) && AllSound(w, [SaveOf(f.value)], sha)
  {
  }

  // ---------------------------------------------------------------- the methods

  method SaveRuntime(store: JSONStore, runtime: LocalWardRuntime) returns (ok: bool, ghost journal: seq<Entry>)
    modifies store, store.fs
    ensures journal == [SaveOf(runtime.it)] && runtime.it == old(runtime.it)
    ensures store.View() == Stored(old(store.View()), journal)
    ensures ok == !SaveFails(old(store.View()), runtime.it)
  {
    StoredSnoc(store.View(), [], SaveOf(runtime.it));
    journal := [] + [SaveOf(runtime.it)];
    var failed := store.SaveWardRuntime(ToRecord(runtime.it));
    ok := failed.None?;
  }

  /** `prefetched` is a status the caller already has; otherwise the platform is asked. */
  method FinalizeIfConverted(store: JSONStore, prefetched: Option<string>, a: Answers)
    returns (finish: Finish, ghost journal: seq<Entry>)
    modifies store, store.fs
    ensures var status := if prefetched.Some? then StatusIs(prefetched.value) else a.status;
            (journal, finish) == Finalized(old(store.View()), status, a)
    ensures store.View() == Stored(old(store.View()), journal)
  {
    ghost var s0 := store.View();
    StoredSnoc(s0, [], LOAD);
    assert [] + [LOAD] == [LOAD];
    var loaded := store.LoadWardRuntime();
    ghost var s1 := store.View();
    assert s1 == Stored(s0, [LOAD]);
    if loaded.Err? {
      return Failed, [LOAD];
    }
    var record := loaded.value;
    if record.None? || record.value.wardId != "" || record.value.wardDraftId == "" || record.value.wardDraftSecret == "" {
      return Unfinished(None), [LOAD];
    }
    var runtime := new LocalWardRuntime(FromRecord(record.value));
    var status := a.status;
    if prefetched.Some? {
      status := StatusIs(prefetched.value);
    }
    ghost var es;
    finish, es := Conclude(store, runtime, status, a);
    StoredAppend(s0, [LOAD], es);
    journal := [LOAD] + es;
  }

  method Conclude(store: JSONStore, runtime: LocalWardRuntime, status: StatusAnswer, a: Answers)
    returns (finish: Finish, ghost journal: seq<Entry>)
    requires Unclaimed(runtime.it)
    modifies store, store.fs, runtime
    ensures journal == Decided(old(runtime.it), status, a).0
    ensures finish == FinishOf(old(store.View()), status, Decided(old(runtime.it), status, a).1)
    ensures store.View() == Stored(old(store.View()), journal)
  {
    journal := [];
    var ok;
    match status {
      case StatusError(stale) =>
        if !stale {
          return Failed, journal;
        }
        ok, journal := ForgetDraft(store, runtime, a.clearedAt);
        finish := if ok then Unfinished(Some(runtime.it)) else Failed;
      case NoStatus => finish := Unfinished(None);
      case StatusIs(word) =>
        if word != "converted_pending_claim" && word != "claimed" {
          finish := Unfinished(None);
          if word == "expired" || word == "failed" {
            ok, journal := ForgetDraft(store, runtime, a.clearedAt);
            finish := if ok then Unfinished(None) else Failed;
          }
          return;
        }
        finish, journal := ClaimDraft(store, runtime, a);
    }
  }

  method ForgetDraft(store: JSONStore, runtime: LocalWardRuntime, now: int) returns (ok: bool, ghost journal: seq<Entry>)
    modifies store, store.fs, runtime
    ensures runtime.it == DraftCleared(old(runtime.it)).(updatedAt := now)
    ensures journal == [SaveOf(runtime.it)] && store.View() == Stored(old(store.View()), journal)
    ensures ok == !SaveFails(old(store.View()), runtime.it)
  {
    runtime.ClearDraftState();
    runtime.it := runtime.it.(updatedAt := now);
    ok, journal := SaveRuntime(store, runtime);
  }

  /** Claims with the draft secret, reads the ward with the new one, and saves both answers together. */
  method ClaimDraft(store: JSONStore, runtime: LocalWardRuntime, a: Answers)
    returns (finish: Finish, ghost journal: seq<Entry>)
    modifies store, store.fs, runtime
    ensures var (es, c) := Claiming(old(runtime.it), a);
            && journal == es
            && finish == if c.None? || SaveFails(old(store.View()), c.value) then Failed else Converted(c.value)
    ensures store.View() == Stored(old(store.View()), journal)
  {
    ghost var s0 := store.View();
    ghost var ask := AskClaim(runtime.it.wardDraftId, runtime.it.wardDraftSecret, a.claim);
    journal := [ask];
    StoredSnoc(s0, [], ask);
    assert [] + [ask] == [ask];
    if a.claim.None? {
      return Failed, journal;
    }
    var claim := a.claim.value;
    if claim.wardId == "" || claim.wardSecret == "" || a.ward.None? {
      return Failed, journal;
    }
    var applied := runtime.ApplyClaimAndWardResponse(claim, a.ward.value, a.claimedAt);
    if !applied {
      return Failed, journal;
    }
    ghost var es;
    var ok;
    ok, es := SaveRuntime(store, runtime);
    StoredAppend(s0, [ask], es);
    journal := [ask] + es;
    finish := if ok then Converted(runtime.it) else Failed;
  }

  method RunStatus(store: JSONStore, a: Answers) returns (report: Option<Report>, ghost journal: seq<Entry>)
    modifies store, store.fs
    ensures (journal, report) == StatusRun(old(store.View()), a)
    ensures store.View() == Stored(old(store.View()), journal)
  {
    ghost var s0 := store.View();
    StoredSnoc(s0, [], LOAD);
    assert [] + [LOAD] == [LOAD];
    var loaded := store.LoadWardRuntime();
    ghost var s1 := store.View();
    assert s1 == Stored(s0, [LOAD]);
    if loaded.Err? {
      return None, [LOAD];
    }
    if loaded.value.None? {
      return Some(Report(None, false, false, false)), [LOAD];
    }
    var runtime := new LocalWardRuntime(FromRecord(loaded.value.value));
    var r := runtime.it;
    var go, claimed;
    ghost var e1;
    go, claimed, e1 := PollDraft(store, runtime, a);
    StoredAppend(s0, [LOAD], e1);
    journal := [LOAD] + e1;
    if !go {
      return None, journal;
    }
    var second := runtime.it;
    ghost var e2;
    go, e2 := RefreshWard(store, runtime, a);
    StoredAppend(s0, journal, e2);
    journal := journal + e2;
    report := if go then Some(ReportOf(r, second, runtime.it, claimed, a)) else None;
  }

  method PollDraft(store: JSONStore, runtime: LocalWardRuntime, a: Answers)
    returns (go: bool, claimed: bool, ghost journal: seq<Entry>)
    modifies store, store.fs, runtime
    ensures var (es, r1, converted) := DraftPart(old(store.View()), old(runtime.it), a);
            && journal == es && go == r1.Some? && (go ==> runtime.it == r1.value && claimed == converted)
    ensures store.View() == Stored(old(store.View()), journal)
  {
    go, claimed, journal := true, false, [];
    if runtime.it.wardDraftId != "" && runtime.it.wardId == "" && runtime.it.wardDraftSecret != "" && a.status.StatusIs? {
      var word := a.status.status;
      if word == "converted_pending_claim" || word == "claimed" {
        var finish;
        finish, journal := FinalizeIfConverted(store, Some(word), a);
        if finish.Failed? {
          return false, false, journal;
        }
        if finish.Converted? {
          runtime.it := finish.ward;
          claimed := true;
        }
      } else {
        if word != "" {
          runtime.it := runtime.it.(wardStatus := word);
        }
        runtime.it := runtime.it.(lastRefreshedAt := a.polledAt, updatedAt := a.polledAt);
        go, journal := SaveRuntime(store, runtime);
      }
    }
  }

  method RefreshWard(store: JSONStore, runtime: LocalWardRuntime, a: Answers) returns (go: bool, ghost journal: seq<Entry>)
    modifies store, store.fs, runtime
    ensures var (es, r2) := WardPart(old(store.View()), old(runtime.it), a);
            journal == es && go == r2.Some? && (go ==> runtime.it == r2.value)
    ensures store.View() == Stored(old(store.View()), journal)
  {
    go, journal := true, [];
    if runtime.it.wardId != "" && runtime.it.wardSecret != "" && a.refresh.Some? {
      runtime.ApplyGetWardResponseToStatus(a.refresh.value, a.refreshedAt);
      go, journal := SaveRuntime(store, runtime);
    }
  }

  /** Something is saved for a ward whose status is known to the platform and to this program. */
  lemma VerifyingExactly(r: Runtime, answer: Option<WardView>, now: int)
    ensures Verifying(r, answer, now).Some? <==>
              r.wardId != "" && answer.Some? && answer.value.status in {"active", "expired", "suspended", "deleted"}
  {
  }

  /** The check at the start of serving: only an active ward that could be saved may serve. */
  method VerifyActive(store: JSONStore, runtime: LocalWardRuntime, answer: Option<WardView>, now: int)
    returns (ok: bool, ghost journal: seq<Entry>)
    modifies store, store.fs, runtime
    ensures var f := Verifying(old(runtime.it), answer, now);
            && runtime.it == (if f.Some? then f.value else old(runtime.it))
            && journal == (if f.Some? then [SaveOf(f.value)] else [])
            && (ok <==> f.Some? && answer.value.status == ACTIVE && !SaveFails(old(store.View()), f.value))
    ensures ok ==> old(runtime.it).wardId != "" && answer.Some? && answer.value.status == "active" && runtime.it.wardStatus == "active"
    ensures store.View() == Stored(old(store.View()), journal)
  {
    journal := [];
    if runtime.it.wardId == "" || answer.None? {
      return false, journal;
    }
    var status := answer.value.status;
    if status == ACTIVE {
      var savedUpstream, savedIngress, savedDomain := runtime.it.upstream, runtime.it.ingress, runtime.it.domain;
      runtime.ApplyGetWardResponseToStatus(answer.value, now);
      runtime.it := runtime.it.(upstream := savedUpstream, ingress := savedIngress, domain := savedDomain);
      ok, journal := SaveRuntime(store, runtime);
      return;
    }
    if status == "expired" || status == "suspended" || status == "deleted" {
      runtime.it := runtime.it.(wardStatus := status, lastRefreshedAt := now, updatedAt := now);
      ok, journal := SaveRuntime(store, runtime);
    }
    ok := false;
  }

  /** A failed heartbeat; `expired` marks the one error that ends serving. */
  datatype Pulse = Silence(expired: bool) | Heard(hb: Heartbeat)

  const MIN_HEARTBEAT: int := 30 * SECOND

  /** How long a heartbeat loop waits after an interval has been asked for. */
  function Wait(interval: int): int {
    if interval < MIN_HEARTBEAT then MIN_HEARTBEAT else interval
  }

  /** Whatever the hint, heartbeats are half a minute apart; a hint in range is followed to the second. */
  lemma HeartbeatSpacing(seconds: int)
    ensures Wait(HeartbeatInterval(seconds)) >= 30 * SECOND
    ensures Wait(HeartbeatInterval(seconds)) == seconds * SECOND
            <==> (30 <= seconds && seconds * SECOND <= MAX_DURATION)
    ensures seconds <= 0 ==> Wait(HeartbeatInterval(seconds)) == 60 * SECOND
  {
    var product := seconds * SECOND;
    assert product > MAX_DURATION ==> Wrap64(product) <= MAX_DURATION;
  }

  /** A ward that is active, or says nothing, goes on being served. */
  lemma ServesExactly(r: Runtime, hb: Heartbeat, now: int)
    ensures Serves(Beaten(r, hb, now)) <==> hb.status == "active" || (hb.status == "" && (r.wardStatus == "" || r.wardStatus == "active"))
  {
  }

  /** One heartbeat of a serving process: when to beat next, and whether it keeps serving. */
  method RunHeartbeat(store: JSONStore, runtime: LocalWardRuntime, pulse: Pulse, now: int)
    returns (interval: int, goOn: bool, ghost journal: seq<Entry>)
    modifies store, store.fs, runtime
    ensures pulse.Silence? ==>
              && goOn == !pulse.expired && journal == [] && runtime.it == old(runtime.it) && interval == DEFAULT_HEARTBEAT
    ensures pulse.Heard? ==>
              && runtime.it == Beaten(old(runtime.it), pulse.hb, now) && journal == [SaveOf(runtime.it)]
              && var saved := !SaveFails(old(store.View()), runtime.it);
                 && goOn == (saved && Serves(runtime.it))
                 && interval == if goOn then HeartbeatInterval(pulse.hb.next) else DEFAULT_HEARTBEAT
    ensures store.View() == Stored(old(store.View()), journal)
  {
    journal := [];
    if pulse.Silence? {
      return DEFAULT_HEARTBEAT, !pulse.expired, journal;
    }
    var serves;
    interval, serves := runtime.ApplyHeartbeatResponse(pulse.hb, now);
    goOn, journal := SaveRuntime(store, runtime);
    if !goOn {
      return DEFAULT_HEARTBEAT, false, journal;
    }
    return interval, serves, journal;
  }
}
