/**
 The draft-to-ward lifecycle as a protocol between disk and platform: what is registered
 where, which entries a client may add to the journal, and what every journal keeps.
 */
module Lifecycle {
  import opened Wrappers
  import opened Records
  import opened Store
  import opened StoreSteps
  import opened StoreNaming

  /** A ward as it was claimed: from which draft, with which draft secret, and its credentials. */
  datatype WardEntry = WardEntry(draftId: string, preimage: string, wardSecret: string, jwt: string)

  /**
   `drafts` are the challenges the platform holds; `minted` records with which JWT secret
   each draft secret was generated; `wards` are the claims the platform has granted.
   */
  datatype Registry = Registry(drafts: map<string, string>, minted: map<string, string>, wards: map<string, WardEntry>)

  datatype World = World(store: State, reg: Registry)

  datatype Entry =
    | Mint(secret: string, jwt: string)
    | AskCreate(challenge: string, draftId: Option<string>)
    | AskClaim(id: string, preimage: string, answer: Option<Claim>)
    | Complete(op: Op)
    | Stopped(op: Op, n: nat)

  /** SHA-256 in hexadecimal, about which only injectivity is used. */
  type Hash = string -> string

  ghost predicate Injective(sha: Hash) {
    forall a, b :: sha(a) == sha(b) ==> a == b
  }

  /** The point at which the directory steps of a store operation begin. */
  function FirstStep(s: State, op: Op): (State, Saver) {
    match op
    case SaveWardOp(r) => (s, TestPending(r))
    case SavePendingOp(r) => (s, MakeDir(r.(wardId := "", wardSecret := ""), PENDING))
    case CommitPendingOp(r) =>
      var t := Target(s.cursor, r);
      if t == PENDING then (s, MakeDir(r, PENDING))
      else if t in s.disk then (s, Failed(TargetExists))
      else if PENDING in s.disk then (s.(cursor := Some(PENDING)), RenameSource(r, t))
      else (s, SetCursor(r, t))
    case _ => (s, Done)
  }

  /** A claim that brings a ward's credentials; an error or an incomplete answer does not. */
  predicate Granted(answer: Option<Claim>) {
    answer.Some? && HasCredentials(answer.value)
  }

  ghost function Play(w: World, e: Entry): World {
    match e
    case Mint(secret, jwt) => w.(reg := w.reg.(minted := w.reg.minted[secret := jwt]))
    case AskCreate(_, None) => w
    case AskCreate(challenge, Some(id)) => w.(reg := w.reg.(drafts := w.reg.drafts[id := challenge]))
    case AskClaim(id, preimage, answer) =>
      if !Granted(answer) || preimage !in w.reg.minted then w
      else w.(reg := w.reg.(wards := w.reg.wards[answer.value.wardId :=
             WardEntry(id, preimage, answer.value.wardSecret, w.reg.minted[preimage])]))
    case Complete(op) => w.(store := Apply(w.store, op))
    case Stopped(op, n) =>
      var (s, sv) := FirstStep(w.store, op);
      w.(store := Steps(s, sv, n).0.(cursor := None))
  }

  /** What is assumed of the platform and of fresh random secrets. */
  predicate Honest(w: World, e: Entry) {
    match e
    case Mint(secret, _) => secret != "" && secret !in w.reg.minted
    case AskCreate(challenge, Some(id)) =>
      id != "" && id != PENDING && (id in w.reg.drafts ==> w.reg.drafts[id] == challenge)
    case AskClaim(id, _, answer) =>
      Granted(answer) ==>
        && var claim := answer.value;
        && claim.wardId != PENDING
        && (claim.wardId in w.reg.wards ==>
              w.reg.wards[claim.wardId].draftId == id && w.reg.wards[claim.wardId].wardSecret == claim.wardSecret)
    case _ => true
  }

  /** The credentials of a record agree with what has been registered and minted. */
  predicate Good(r: Record, reg: Registry, sha: Hash) {
    && (r.wardId == "" && r.wardDraftId != "" ==>
          && r.wardDraftSecret != ""
          && r.wardDraftId in reg.drafts && reg.drafts[r.wardDraftId] == sha(r.wardDraftSecret))
    && (r.wardDraftSecret != "" ==>
          && r.jwtSecret != ""
          && r.wardDraftSecret in reg.minted && reg.minted[r.wardDraftSecret] == r.jwtSecret)
    && (r.wardId != "" <==> r.wardSecret != "")
    && (r.wardId != "" ==>
          && r.wardDraftSecret == ""
          && r.wardId in reg.wards
          && reg.wards[r.wardId].wardSecret == r.wardSecret && reg.wards[r.wardId].jwt == r.jwtSecret)
    && r.wardId != PENDING && r.wardDraftId != PENDING
  }

  /** What the client has to make sure of. */
  predicate Sound(w: World, e: Entry, sha: Hash) {
    match e
    case Mint(_, jwt) => jwt != ""
    case AskCreate(_, _) => true
    case AskClaim(id, preimage, _) =>
      id in w.reg.drafts && w.reg.drafts[id] == sha(preimage) && preimage in w.reg.minted
    case Complete(op) => SoundOp(w, op, sha)
    case Stopped(op, _) => SoundOp(w, op, sha)
  }

  predicate SoundOp(w: World, op: Op, sha: Hash) {
    match op
    case SaveWardOp(r) => Good(r, w.reg, sha)
    case SavePendingOp(r) => Good(r, w.reg, sha) && r.wardId == ""
    case CommitPendingOp(r) => Good(r, w.reg, sha)
    case _ => true
  }

  // ---------------------------------------------------------------- the invariant

  predicate FileGood(f: File, reg: Registry, sha: Hash) {
    f.Whole? ==> Good(f.record, reg, sha)
  }

  predicate NotWard(f: File) {
    f.Whole? ==> f.record.wardId == ""
  }

  predicate DiskGood(disk: Disk, reg: Registry, sha: Hash) {
    && (forall d :: d in disk ==> FileGood(disk[d].file, reg, sha) && FileGood(disk[d].tmp, reg, sha))
    && (PENDING in disk ==> NotWard(disk[PENDING].file) && NotWard(disk[PENDING].tmp))
  }

  predicate RegistryGood(reg: Registry, sha: Hash) {
    && (forall s :: s in reg.minted ==> reg.minted[s] != "")
    && (forall id :: id in reg.wards ==>
          && reg.wards[id].draftId in reg.drafts && reg.drafts[reg.wards[id].draftId] == sha(reg.wards[id].preimage)
          && reg.wards[id].preimage in reg.minted && reg.minted[reg.wards[id].preimage] == reg.wards[id].jwt)
  }

  predicate Inv(w: World, sha: Hash) {
    DiskGood(w.store.disk, w.reg, sha) && RegistryGood(w.reg, sha)
  }

  /** Later registries agree with earlier ones on everything those knew. */
  predicate Grows(a: Registry, b: Registry) {
    && (forall k :: k in a.drafts ==> k in b.drafts && b.drafts[k] == a.drafts[k])
    && (forall k :: k in a.minted ==> k in b.minted && b.minted[k] == a.minted[k])
    && (forall k :: k in a.wards ==> k in b.wards && b.wards[k].wardSecret == a.wards[k].wardSecret
                                      && b.wards[k].jwt == a.wards[k].jwt)
  }

  lemma GoodStable(r: Record, a: Registry, b: Registry, sha: Hash)
    requires Good(r, a, sha) && Grows(a, b)
    ensures Good(r, b, sha)
  {
  }

  lemma DiskGoodStable(disk: Disk, a: Registry, b: Registry, sha: Hash)
    requires DiskGood(disk, a, sha) && Grows(a, b)
    ensures DiskGood(disk, b, sha)
  {
  }

  /** Registering keeps what is registered; a repeated claim finds the very same credentials. */
  lemma RegistryStep(w: World, e: Entry, sha: Hash)
    requires RegistryGood(w.reg, sha) && Injective(sha) && Honest(w, e) && Sound(w, e, sha)
    ensures RegistryGood(Play(w, e).reg, sha) && Grows(w.reg, Play(w, e).reg)
  {
  }

  // ---------------------------------------------------------------- the disk keeps good records

  /** The step writes `r` and never names the pending directory for a ward. */
  predicate Sane(s: State, sv: Saver, r: Record) {
    match sv
    case TestPending(q) => q == r
    case Aim(q) => q == r
    case TestCursor(q, t) => q == r && (t == PENDING ==> r.wardId == "" && (s.cursor.None? || s.cursor == Some(PENDING)))
    case StatTarget(q, t) => q == r && t != PENDING
    case TestSame(q, t) => q == r && t != PENDING
    case RenameSource(q, t) => q == r && t != PENDING
    case SetCursor(q, t) => q == r && (t == PENDING ==> r.wardId == "")
    case MakeDir(q, t) => q == r && (t == PENDING ==> r.wardId == "")
    case OpenTmp(q, t) => q == r && (t == PENDING ==> r.wardId == "")
    case FillTmp(q, t) => q == r && (t == PENDING ==> r.wardId == "")
    case SwapTmp(q, t) => q == r && (t == PENDING ==> r.wardId == "")
    case Done => true
    case Failed(_) => true
  }

  lemma SaneStep(s: State, sv: Saver, r: Record)
    requires Sane(s, sv, r) && r.wardId != PENDING && r.wardDraftId != PENDING
    ensures Sane(Step(s, sv).0, Step(s, sv).1, r)
  {
  }

  lemma GoodStep(s: State, sv: Saver, r: Record, reg: Registry, sha: Hash)
    requires Sane(s, sv, r) && Good(r, reg, sha) && DiskGood(s.disk, reg, sha)
    ensures DiskGood(Step(s, sv).0.disk, reg, sha)
  {
  }

  lemma {:induction false} GoodSteps(s: State, sv: Saver, r: Record, n: nat, reg: Registry, sha: Hash)
    requires Sane(s, sv, r) && Good(r, reg, sha) && DiskGood(s.disk, reg, sha)
    ensures DiskGood(Steps(s, sv, n).0.disk, reg, sha)
    decreases n
  {
    if n > 0 {
      SaneStep(s, sv, r);
      GoodStep(s, sv, r, reg, sha);
      GoodSteps(Step(s, sv).0, Step(s, sv).1, r, n - 1, reg, sha);
    }
  }

  lemma GoodStopped(w: World, op: Op, n: nat, sha: Hash)
    requires DiskGood(w.store.disk, w.reg, sha) && SoundOp(w, op, sha)
    ensures DiskGood(Play(w, Stopped(op, n)).store.disk, w.reg, sha)
  {
    var (s, sv) := FirstStep(w.store, op);
    match op
    case SaveWardOp(r) => GoodSteps(s, sv, r, n, w.reg, sha);
    case SavePendingOp(r) => GoodSteps(s, sv, r.(wardId := "", wardSecret := ""), n, w.reg, sha);
    case CommitPendingOp(r) => GoodSteps(s, sv, r, n, w.reg, sha);
    case _ => DoneStays(s, n);
  }

  lemma DoneStays(s: State, n: nat)
    ensures Steps(s, Done, n) == (s, Done)
    decreases n
  {
  }

  lemma GoodSave(w: World, r: Record, n: nat, sha: Hash)
    requires DiskGood(w.store.disk, w.reg, sha) && Good(r, w.reg, sha) && n >= 11
    ensures DiskGood(SaveWard(w.store, r).0.disk, w.reg, sha)
  {
    StepsRefineSave(w.store, r, n);
    GoodSteps(w.store, TestPending(r), r, n, w.reg, sha);
  }

  lemma GoodComplete(w: World, op: Op, sha: Hash)
    requires DiskGood(w.store.disk, w.reg, sha) && SoundOp(w, op, sha)
    ensures DiskGood(Apply(w.store, op).disk, w.reg, sha)
  {
    match op
    case SaveWardOp(r) => GoodSave(w, r, 11, sha);
    case SavePendingOp(r) => assert Good(Normalise(r.(wardId := "", wardSecret := "")), w.reg, sha);
    case CommitPendingOp(r) => assert Good(Normalise(r), w.reg, sha);
    case _ =>
  }

  lemma InvStep(w: World, e: Entry, sha: Hash)
    requires Inv(w, sha) && Injective(sha) && Honest(w, e) && Sound(w, e, sha)
    ensures Inv(Play(w, e), sha) && Grows(w.reg, Play(w, e).reg)
  {
    RegistryStep(w, e, sha);
    match e
    case Complete(op) => GoodComplete(w, op, sha);
    case Stopped(op, n) => GoodStopped(w, op, n, sha);
    case _ => DiskGoodStable(w.store.disk, w.reg, Play(w, e).reg, sha);
  }

  // ---------------------------------------------------------------- journals

  ghost function PlayAll(w: World, es: seq<Entry>): World
    decreases |es|
  {
    if es == [] then w else PlayAll(Play(w, es[0]), es[1..])
  }

  ghost predicate AllHonest(w: World, es: seq<Entry>)
    decreases |es|
  {
    es == [] || (Honest(w, es[0]) && AllHonest(Play(w, es[0]), es[1..]))
  }

  ghost predicate AllSound(w: World, es: seq<Entry>, sha: Hash)
    decreases |es|
  {
    es == [] || (Sound(w, es[0], sha) && AllSound(Play(w, es[0]), es[1..], sha))
  }

  lemma GrowsTransitive(a: Registry, b: Registry, c: Registry)
    requires Grows(a, b) && Grows(b, c)
    ensures Grows(a, c)
  {
  }

  lemma {:induction false} InvRun(w: World, es: seq<Entry>, sha: Hash)
    requires Inv(w, sha) && Injective(sha) && AllHonest(w, es) && AllSound(w, es, sha)
    ensures Inv(PlayAll(w, es), sha) && Grows(w.reg, PlayAll(w, es).reg)
    decreases |es|
  {
    if es != [] {
      var v := Play(w, es[0]);
      InvStep(w, es[0], sha);
      InvRun(v, es[1..], sha);
      GrowsTransitive(w.reg, v.reg, PlayAll(v, es[1..]).reg);
    }
  }

  lemma {:induction false} PlayAppend(w: World, a: seq<Entry>, b: seq<Entry>, sha: Hash)
    ensures PlayAll(w, a + b) == PlayAll(PlayAll(w, a), b)
    ensures AllHonest(w, a + b) <==> AllHonest(w, a) && AllHonest(PlayAll(w, a), b)
    ensures AllSound(w, a + b, sha) <==> AllSound(w, a, sha) && AllSound(PlayAll(w, a), b, sha)
    decreases |a|
  {
    if a == [] {
      assert a + b == b;
    } else {
      assert (a + b)[0] == a[0] && (a + b)[1..] == a[1..] + b;
      PlayAppend(Play(w, a[0]), a[1..], b, sha);
    }
  }

  /** What the completed operations of a journal do to the store. */
  ghost function Stored(s: State, es: seq<Entry>): State
    decreases |es|
  {
    if es == [] then s
    else Stored(if es[0].Complete? then Apply(s, es[0].op) else s, es[1..])
  }

  lemma {:induction false} PlayStores(w: World, es: seq<Entry>)
    requires forall i :: 0 <= i < |es| ==> !es[i].Stopped?
    ensures PlayAll(w, es).store == Stored(w.store, es)
    decreases |es|
  {
    if es != [] {
      PlayStores(Play(w, es[0]), es[1..]);
    }
  }

  lemma {:induction false} StoredSnoc(s: State, es: seq<Entry>, e: Entry)
    ensures Stored(s, es + [e]) == if e.Complete? then Apply(Stored(s, es), e.op) else Stored(s, es)
    decreases |es|
  {
    if es == [] {
      assert es + [e] == [e];
      assert Stored(Stored(s, [e]), []) == Stored(s, [e]);
    } else {
      assert (es + [e])[0] == es[0] && (es + [e])[1..] == es[1..] + [e];
      StoredSnoc(if es[0].Complete? then Apply(s, es[0].op) else s, es[1..], e);
    }
  }

  /**
   Over every journal of sound entries, with crashes anywhere in a store operation: an
   unclaimed record with a draft id has its challenge on the platform, ward id and ward
   secret come together and end the draft secret, and credentials once seen on disk for a
   ward are the same in every later record of that ward; the JWT secret in it is the one
   minted together with the draft secret it was claimed with.
   */
  lemma LifecycleInvariant(w: World, es: seq<Entry>, sha: Hash, d: string, later: string)
    requires Inv(w, sha) && Injective(sha) && AllHonest(w, es) && AllSound(w, es, sha)
    ensures var v := PlayAll(w, es);
            later in v.store.disk && v.store.disk[later].file.Whole? ==>
              && var r := v.store.disk[later].file.record;
              && (r.wardId == "" && r.wardDraftId != "" ==>
                    r.wardDraftId in v.reg.drafts && v.reg.drafts[r.wardDraftId] == sha(r.wardDraftSecret))
              && (r.wardId != "" <==> r.wardSecret != "")
              && (r.wardId != "" ==>
                    && r.wardDraftSecret == ""
                    && r.wardId in v.reg.wards
                    && var claimed := v.reg.wards[r.wardId];
                    && claimed.draftId in v.reg.drafts && v.reg.drafts[claimed.draftId] == sha(claimed.preimage)
                    && claimed.preimage in v.reg.minted && v.reg.minted[claimed.preimage] == r.jwtSecret)
              && (d in w.store.disk && w.store.disk[d].file.Whole? && r.wardId != ""
                  && w.store.disk[d].file.record.wardId == r.wardId ==>
                    && r.wardSecret == w.store.disk[d].file.record.wardSecret
                    && r.jwtSecret == w.store.disk[d].file.record.jwtSecret)
  {
    InvRun(w, es, sha);
  }

  lemma NextSteps(s: State, sv: Saver, n: nat)
    ensures Steps(s, sv, n + 1) == Steps(Step(s, sv).0, Step(s, sv).1, n)
  {
  }

  lemma OpenSteps(s: State, r: Record, t: string, n: nat)
    ensures var s' := s.(disk := WithTmp(WithDir(s.disk, t), t, Torn));
            Steps(s, MakeDir(r, t), n + 2) == Steps(s', FillTmp(r, t), n)
  {
  }

  lemma CloseSteps(s: State, r: Record, t: string, n: nat)
    requires t in s.disk
    ensures Steps(s, FillTmp(r, t), n + 2) == (s.(disk := Written(s.disk, t, r)), Done)
  {
    NextSteps(s, FillTmp(r, t), n + 1);
    var s' := s.(disk := WithTmp(s.disk, t, Whole(Normalise(r))));
    NextSteps(s', SwapTmp(r, t), n);
    assert Step(s', SwapTmp(r, t)).0.disk == Written(s.disk, t, r);
    DoneStays(s.(disk := Written(s.disk, t, r)), n);
  }

  lemma WriteSteps(s: State, r: Record, t: string, n: nat)
    ensures Steps(s, MakeDir(r, t), n + 4) == (s.(disk := Written(s.disk, t, r)), Done)
  {
    OpenSteps(s, r, t, n + 2);
    var begun := WithTmp(WithDir(s.disk, t), t, Torn);
    CloseSteps(s.(disk := begun), r, t, n);
    assert Written(begun, t, r) == Written(s.disk, t, r);
  }

  /** Not stopped before its end, the steps of a pending save do all of it. */
  lemma StepsRefineSavePending(s: State, r: Record, n: nat)
    requires n >= 11
    ensures var (b, sv) := FirstStep(s, SavePendingOp(r)); Steps(b, sv, n) == (SavePending(s, r), Done)
  {
    WriteSteps(s, r.(wardId := "", wardSecret := ""), PENDING, n - 4);
  }

  lemma CursorSteps(s: State, r: Record, t: string, n: nat)
    ensures Steps(s, SetCursor(r, t), n + 5) == (State(Written(s.disk, t, r), Some(t)), Done)
  {
    NextSteps(s, SetCursor(r, t), n + 4);
    WriteSteps(s.(cursor := Some(t)), r, t, n);
  }

  lemma MoveSteps(s: State, r: Record, t: string, n: nat)
    requires PENDING in s.disk && t !in s.disk
    ensures Steps(s.(cursor := Some(PENDING)), RenameSource(r, t), n + 6)
            == (State(Written(Moved(s.disk, PENDING, t), t, r), Some(t)), Done)
  {
    var s1 := s.(cursor := Some(PENDING));
    NextSteps(s1, RenameSource(r, t), n + 5);
    CursorSteps(s1.(disk := Moved(s.disk, PENDING, t)), r, t, n);
  }

  /** Not stopped before its end, the steps of a commit do all of it. */
  lemma StepsRefineCommit(s: State, r: Record, n: nat)
    requires n >= 11
    ensures var (b, sv) := FirstStep(s, CommitPendingOp(r));
            var (saved, error) := CommitPending(s, r);
            Steps(b, sv, n) == (saved, if error.None? then Done else Failed(error.value))
  {
    var t := Target(s.cursor, r);
    if t == PENDING {
      WriteSteps(s, r, PENDING, n - 4);
    } else if t in s.disk {
      FailedStays(s, TargetExists, n);
    } else if PENDING in s.disk {
      MoveSteps(s, r, t, n - 6);
    } else {
      CursorSteps(s, r, t, n - 5);
    }
  }

  lemma FailedStays(s: State, e: Error, n: nat)
    ensures Steps(s, Failed(e), n) == (s, Failed(e))
    decreases n
  {
  }
}
