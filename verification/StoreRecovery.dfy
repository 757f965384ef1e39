/**
 Recovery of an interrupted promotion: however often a claiming process dies, a later one
 that is given the same claim brings the store to where an undisturbed one would have.
 */
module StoreRecovery {
  import opened Wrappers
  import opened Records
  import opened Store
  import opened StoreSteps
  import opened StoreNaming
  import opened Lifecycle
  import opened NewService
  import opened Activation
  import opened Commands

  /** A store of one draft in directory `home`, and the platform's unchanging answers about it. */
  datatype Case = Case(rest: Disk, home: string, draft: Record, claim: Claim, ward: WardView)

  predicate Proper(c: Case) {
    && c.home !in c.rest && c.home != PENDING && Scanned(c.rest) == {}
    && c.draft.listenAddr == "" && Unclaimed(FromRecord(c.draft))
    && Claimable(c.claim, c.ward) && c.claim.wardId != PENDING && c.claim.wardId !in c.rest
  }

  /** The claimed record as written at time `t`. */
  function NewRecord(c: Case, t: int): Record
    requires Claimable(c.claim, c.ward)
  {
    Normalise(ToRecord(Claimed(FromRecord(Normalise(c.draft)), c.claim, c.ward, t)))
  }

  function Start(c: Case): Disk {
    c.rest[c.home := Dir(Whole(c.draft), Absent)]
  }

  /** Where an undisturbed activation ends. */
  function Final(c: Case, t: int): Disk
    requires Claimable(c.claim, c.ward)
  {
    c.rest[c.claim.wardId := Dir(Whole(NewRecord(c, t)), Absent)]
  }

  /** The draft is still there, under its old name or already under the new one. */
  predicate Waiting(c: Case, disk: Disk, name: string, tmp: File) {
    (name == c.home || name == c.claim.wardId) && disk == c.rest[name := Dir(Whole(c.draft), tmp)]
  }

  ghost predicate Recoverable(c: Case, disk: Disk)
    requires Claimable(c.claim, c.ward)
  {
    (exists name, tmp :: Waiting(c, disk, name, tmp)) || (exists t :: disk == Final(c, t))
  }

  /** Times apart, there is one final store. */
  lemma FinalUpToTime(c: Case, t: int, u: int)
    requires Claimable(c.claim, c.ward)
    ensures NewRecord(c, t).(updatedAt := u) == NewRecord(c, u)
    ensures NewRecord(c, t).wardId == c.claim.wardId
  {
  }

  /** An activation by a fresh process; its answers repeat the case's or are errors. */
  predicate Repeats(c: Case, status: StatusAnswer, a: Answers) {
    && !Voided(status)
    && (a.claim.None? || a.claim == Some(c.claim)) && (a.ward.None? || a.ward == Some(c.ward))
  }

  ghost function Attempt(w: World, status: StatusAnswer, a: Answers, ending: Ending): World {
    var v := w.(store := State(w.store.disk, None));
    PlayAll(v, CutOff(Finalized(v.store, status, a).0, ending))
  }

  lemma OnlyListed(c: Case, disk: Disk, name: string)
    requires Proper(c) && name != PENDING && name in disk && !disk[name].file.Absent?
    requires disk == c.rest[name := disk[name]]
    ensures Scanned(disk) == {name} && forall x :: x in Scanned(disk) ==> x == name
    ensures |Scanned(disk)| == 1
  {
  }

  lemma LoadWaiting(c: Case, disk: Disk, name: string, tmp: File)
    requires Proper(c) && Waiting(c, disk, name, tmp)
    ensures LoadWard(State(disk, None)) == (State(disk, Some(name)), Ok(Some(Normalise(c.draft))))
  {
    assert name !in c.rest;
    OnlyListed(c, disk, name);
  }

  lemma LoadFinal(c: Case, t: int)
    requires Proper(c)
    ensures var disk := Final(c, t);
            LoadWard(State(disk, None)) == (State(disk, Some(c.claim.wardId)), Ok(Some(NewRecord(c, t))))
  {
    var disk, name := Final(c, t), c.claim.wardId;
    OnlyListed(c, disk, name);
    NormaliseIdempotent(ToRecord(Claimed(FromRecord(Normalise(c.draft)), c.claim, c.ward, t)));
  }

  /** The record the claiming process hands to the store. */
  function Handed(c: Case, t: int): Record
    requires Claimable(c.claim, c.ward)
  {
    ToRecord(Claimed(FromRecord(Normalise(c.draft)), c.claim, c.ward, t))
  }

  lemma BaseOfSave(c: Case, disk: Disk, name: string, tmp: File, t: int)
    requires Proper(c) && Waiting(c, disk, name, tmp)
    ensures var s, r := State(disk, Some(name)), Handed(c, t);
            && Destination(s, r) == c.claim.wardId
            && Waiting(c, Base(s, r), c.claim.wardId, tmp) && WithDir(Base(s, r), c.claim.wardId) == Base(s, r)
  {
  }

  lemma StandingRecoverable(c: Case, disk: Disk, name: string, tmp: File, t: int, u: State, sv: Saver)
    requires Proper(c) && Waiting(c, disk, name, tmp)
    requires Standing(State(disk, Some(name)), Handed(c, t), u, sv)
    ensures Recoverable(c, u.disk)
  {
    if sv.Done? {
      DoneIsFinal(c, disk, name, tmp, t, u);
    } else {
      BaseOfSave(c, disk, name, tmp, t);
      var now := if sv.FillTmp? then Torn else if sv.SwapTmp? then Whole(Normalise(Handed(c, t))) else tmp;
      assert Waiting(c, u.disk, c.claim.wardId, now) || u.disk == disk;
    }
  }

  lemma DoneIsFinal(c: Case, disk: Disk, name: string, tmp: File, t: int, u: State)
    requires Proper(c) && Waiting(c, disk, name, tmp)
    requires Standing(State(disk, Some(name)), Handed(c, t), u, Done)
    ensures u.disk == Final(c, t)
  {
    BaseOfSave(c, disk, name, tmp, t);
    assert u.disk == Written(Base(State(disk, Some(name)), Handed(c, t)), c.claim.wardId, Handed(c, t)) == Final(c, t);
  }

  /** Dying anywhere in the save leaves the draft under one of the two names, or the ward. */
  lemma StoppedSave(c: Case, disk: Disk, name: string, tmp: File, t: int, n: nat)
    requires Proper(c) && Waiting(c, disk, name, tmp)
    ensures Recoverable(c, Steps(State(disk, Some(name)), TestPending(Handed(c, t)), n).0.disk)
  {
    var s, r := State(disk, Some(name)), Handed(c, t);
    StandingSteps(s, r, s, TestPending(r), n);
    var (u, sv) := Steps(s, TestPending(r), n);
    StandingRecoverable(c, disk, name, tmp, t, u, sv);
  }

  lemma WholeSave(c: Case, disk: Disk, name: string, tmp: File, t: int)
    requires Proper(c) && Waiting(c, disk, name, tmp)
    ensures SaveWard(State(disk, Some(name)), Handed(c, t)) == (State(Final(c, t), Some(c.claim.wardId)), None)
  {
    assert name !in c.rest && c.rest - {name} == c.rest;
    var target := c.claim.wardId;
    assert Written(c.rest[target := Dir(Whole(c.draft), tmp)], target, Handed(c, t)) == Final(c, t);
    if name != target {
      assert Moved(disk, name, target) == c.rest[target := Dir(Whole(c.draft), tmp)];
    }
  }

  /** The journal of an attempt, by what the disk shows it. */
  lemma AttemptJournal(c: Case, disk: Disk, name: string, tmp: File, status: StatusAnswer, a: Answers)
    requires Proper(c) && Waiting(c, disk, name, tmp) && Repeats(c, status, a)
    ensures var es := Finalized(State(disk, None), status, a).0;
            if !Convertible(status) then es == [LOAD]
            else var ask := AskClaim(c.draft.wardDraftId, c.draft.wardDraftSecret, a.claim);
                 es == if a.claim.Some? && a.ward.Some? then [LOAD, ask, Complete(SaveWardOp(Handed(c, a.claimedAt)))]
                       else [LOAD, ask]
  {
    LoadWaiting(c, disk, name, tmp);
  }

  lemma PlayOne(w: World, a: Entry)
    ensures PlayAll(w, [a]) == Play(w, a)
  {
  }

  lemma PlayTwo(w: World, a: Entry, b: Entry)
    ensures PlayAll(w, [a, b]) == Play(Play(w, a), b)
  {
    assert [a, b][1..] == [b];
    PlayOne(Play(w, a), b);
  }

  lemma PlayThree(w: World, a: Entry, b: Entry, c: Entry)
    ensures PlayAll(w, [a, b, c]) == Play(Play(Play(w, a), b), c)
  {
    assert [a, b, c][1..] == [b, c];
    PlayTwo(Play(w, a), b, c);
  }

  /** Reading and asking leave the disk alone. */
  lemma ShortJournal(v: World, cut: seq<Entry>)
    requires |cut| <= 2
    requires |cut| >= 1 ==> cut[0] == LOAD || (cut[0].Stopped? && cut[0].op == LoadWardOp)
    requires |cut| == 2 ==> cut[1].AskClaim?
    ensures PlayAll(v, cut).store.disk == v.store.disk
  {
    if |cut| >= 1 {
      if cut[0].Stopped? { DoneStays(v.store, cut[0].n); }
      assert Play(v, cut[0]).store.disk == v.store.disk;
      if |cut| == 1 {
        assert cut == [cut[0]];
        PlayOne(v, cut[0]);
      } else {
        assert cut == [cut[0], cut[1]];
        PlayTwo(v, cut[0], cut[1]);
      }
    }
  }

  lemma LongJournal(c: Case, v: World, name: string, tmp: File, ask: Entry, t: int, last: Entry)
    requires Proper(c) && Waiting(c, v.store.disk, name, tmp) && v.store.cursor.None? && ask.AskClaim?
    requires last == Complete(SaveWardOp(Handed(c, t))) || (last.Stopped? && last.op == SaveWardOp(Handed(c, t)))
    ensures var disk := PlayAll(v, [LOAD, ask, last]).store.disk;
            Recoverable(c, disk) && (last.Complete? ==> disk == Final(c, t))
  {
    var disk := v.store.disk;
    LoadWaiting(c, disk, name, tmp);
    PlayThree(v, LOAD, ask, last);
    assert Play(Play(v, LOAD), ask).store == State(disk, Some(name));
    if last.Stopped? {
      StoppedSave(c, disk, name, tmp, t, last.n);
    } else {
      WholeSave(c, disk, name, tmp, t);
    }
  }

  /** What is left of the journal: at most the load and the claim, or these and a save of the claimed record. */
  predicate CutForm(c: Case, cut: seq<Entry>, t: int)
    requires Claimable(c.claim, c.ward)
  {
    if |cut| <= 2 then
      && (|cut| >= 1 ==> cut[0] == LOAD || (cut[0].Stopped? && cut[0].op == LoadWardOp))
      && (|cut| == 2 ==> cut[1].AskClaim?)
    else
      && cut == [LOAD, cut[1], cut[2]] && cut[1].AskClaim?
      && (cut[2] == Complete(SaveWardOp(Handed(c, t))) || (cut[2].Stopped? && cut[2].op == SaveWardOp(Handed(c, t))))
  }

  lemma CutHasForm(c: Case, disk: Disk, name: string, tmp: File, status: StatusAnswer, a: Answers, ending: Ending)
    requires Proper(c) && Waiting(c, disk, name, tmp) && Repeats(c, status, a)
    ensures var cut := CutOff(Finalized(State(disk, None), status, a).0, ending);
            && CutForm(c, cut, a.claimedAt)
            && (Convertible(status) && a.claim.Some? && a.ward.Some? && ending.Finishes? ==> |cut| == 3 && cut[2].Complete?)
  {
    AttemptJournal(c, disk, name, tmp, status, a);
  }

  lemma AttemptWaiting(c: Case, w: World, name: string, tmp: File, status: StatusAnswer, a: Answers, ending: Ending)
    requires Proper(c) && Waiting(c, w.store.disk, name, tmp) && Repeats(c, status, a)
    ensures Recoverable(c, Attempt(w, status, a, ending).store.disk)
    ensures Convertible(status) && a.claim.Some? && a.ward.Some? && ending.Finishes? ==>
              Attempt(w, status, a, ending).store.disk == Final(c, a.claimedAt)
  {
    var v := w.(store := State(w.store.disk, None));
    CutHasForm(c, w.store.disk, name, tmp, status, a, ending);
    var cut := CutOff(Finalized(v.store, status, a).0, ending);
    if |cut| <= 2 {
      ShortJournal(v, cut);
      assert Waiting(c, PlayAll(v, cut).store.disk, name, tmp);
    } else {
      LongJournal(c, v, name, tmp, cut[1], a.claimedAt, cut[2]);
    }
  }

  /** On a store that has arrived, an attempt finds a ward and does nothing. */
  lemma AttemptFinal(c: Case, w: World, t: int, status: StatusAnswer, a: Answers, ending: Ending)
    requires Proper(c) && w.store.disk == Final(c, t)
    ensures Attempt(w, status, a, ending).store.disk == Final(c, t)
  {
    LoadFinal(c, t);
    var v := w.(store := State(w.store.disk, None));
    var cut := CutOff(Finalized(v.store, status, a).0, ending);
    ShortJournal(v, cut);
  }

  lemma AttemptRecoverable(c: Case, w: World, status: StatusAnswer, a: Answers, ending: Ending)
    requires Proper(c) && Recoverable(c, w.store.disk) && Repeats(c, status, a)
    ensures Recoverable(c, Attempt(w, status, a, ending).store.disk)
  {
    if name, tmp :| Waiting(c, w.store.disk, name, tmp) {
      AttemptWaiting(c, w, name, tmp, status, a, ending);
    } else {
      var t :| w.store.disk == Final(c, t);
      AttemptFinal(c, w, t, status, a, ending);
    }
  }

  datatype Try = Try(status: StatusAnswer, a: Answers, ending: Ending)

  ghost function AttemptAll(w: World, ts: seq<Try>): World
    decreases |ts|
  {
    if ts == [] then w else AttemptAll(Attempt(w, ts[0].status, ts[0].a, ts[0].ending), ts[1..])
  }

  lemma {:induction false} TriesRecoverable(c: Case, w: World, ts: seq<Try>)
    requires Proper(c) && Recoverable(c, w.store.disk)
    requires forall i :: 0 <= i < |ts| ==> Repeats(c, ts[i].status, ts[i].a)
    ensures Recoverable(c, AttemptAll(w, ts).store.disk)
    decreases |ts|
  {
    if ts != [] {
      AttemptRecoverable(c, w, ts[0].status, ts[0].a, ts[0].ending);
      TriesRecoverable(c, Attempt(w, ts[0].status, ts[0].a, ts[0].ending), ts[1..]);
    }
  }

  /**
   After any number of attempts, each failed, killed or not, one more that is answered and
   left alone ends in the store of an undisturbed activation, times apart.
   */
  lemma RetryReachesFinalStore(c: Case, w: World, ts: seq<Try>, status: StatusAnswer, a: Answers)
    requires Proper(c) && w.store.disk == Start(c)
    requires forall i :: 0 <= i < |ts| ==> Repeats(c, ts[i].status, ts[i].a)
    requires Convertible(status) && a.claim == Some(c.claim) && a.ward == Some(c.ward)
    ensures Attempt(w, status, a, Finishes).store.disk == Final(c, a.claimedAt)
    ensures exists t :: Attempt(AttemptAll(w, ts), status, a, Finishes).store.disk == Final(c, t)
  {
    assert Waiting(c, w.store.disk, c.home, Absent);
    AttemptWaiting(c, w, c.home, Absent, status, a, Finishes);
    TriesRecoverable(c, w, ts);
    var v := AttemptAll(w, ts);
    if name, tmp :| Waiting(c, v.store.disk, name, tmp) {
      AttemptWaiting(c, v, name, tmp, status, a, Finishes);
    } else {
      var t :| v.store.disk == Final(c, t);
      AttemptFinal(c, v, t, status, a, Finishes);
    }
  }

  /** Looking the draft up by its id finds it exactly while its directory has the old name. */
  lemma DraftIdFindsOldNameOnly(c: Case, disk: Disk, name: string, tmp: File)
    requires Proper(c) && Waiting(c, disk, name, tmp) && PENDING !in c.rest
    requires c.home == c.draft.wardDraftId
    ensures LoadById(State(disk, None), c.draft.wardDraftId).1.Ok? <==> name == c.home
    ensures name != c.home ==> LoadById(State(disk, None), c.draft.wardDraftId).1 == Err(NotFound)
  {
  }

  /** Such a state is reached: stopped right after its rename, a promotion hides the draft from its id. */
  lemma RenameHidesDraft(c: Case, t: int)
    requires Proper(c) && PENDING !in c.rest && c.home == c.draft.wardDraftId && c.home != c.claim.wardId
    ensures var disk := Steps(State(Start(c), Some(c.home)), TestPending(Handed(c, t)), 5).0.disk;
            && Waiting(c, disk, c.claim.wardId, Absent)
            && LoadById(State(disk, None), c.draft.wardDraftId).1 == Err(NotFound)
            && LoadWard(State(disk, None)).1 == Ok(Some(Normalise(c.draft)))
  {
    var s, r := State(Start(c), Some(c.home)), Handed(c, t);
    var u := c.claim.wardId;
    assert c.home !in c.rest && c.rest - {c.home} == c.rest;
    NextSteps(s, TestPending(r), 4);
    NextSteps(s, Aim(r), 3);
    NextSteps(s, TestCursor(r, u), 2);
    NextSteps(s, StatTarget(r, u), 1);
    NextSteps(s, RenameSource(r, u), 0);
    var disk := Steps(s, TestPending(r), 5).0.disk;
    assert disk == c.rest[u := Dir(Whole(c.draft), Absent)];
    DraftIdFindsOldNameOnly(c, disk, u, Absent);
    LoadWaiting(c, disk, u, Absent);
  }
}
