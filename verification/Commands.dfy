/**
 Whole runs: any sequence of setup, commit, status, activation and heartbeat commands, each
 possibly killed between two actions or inside a store operation.
 */
module Commands {
  import opened Wrappers
  import opened Records
  import opened Store
  import opened StoreNaming
  import opened Lifecycle
  import opened NewService
  import NewCommand
  import opened Activation

  /** `SwitchTo` passes control to a process whose own cursor is given; a fresh one has none. */
  datatype Command =
    | New(inv: NewCommand.Invocation)
    | Status(a: Answers)
    | Activate(status: StatusAnswer, a: Answers)
    | Open(id: string)
    | Check(r: Runtime, answer: Option<WardView>, now: int)
    | Beat(r: Runtime, hb: Heartbeat, now: int)
    | SwitchTo(cursor: Option<string>)

  /** `Killed(k, n)`: k actions complete; if the next is a store operation, n of its steps happen. */
  datatype Ending = Finishes | Killed(k: nat, n: nat)

  /** `held` are the runtimes that serving processes keep in memory. */
  datatype Session = Session(w: World, held: set<Runtime>)

  ghost function JournalOf(s: Session, c: Command, sha: Hash): seq<Entry> {
    match c
    case New(inv) =>
      var pending := Load(s.w.store.disk, PENDING);
      if pending.Err? then []
      else NewCommand.Journal(pending.value, inv, sha)
    case Status(a) => StatusRun(s.w.store, a).0
    case Activate(status, a) => Finalized(s.w.store, status, a).0
    case Open(id) => [Complete(LoadByIdOp(id))]
    case Check(r, answer, now) =>
      var f := Verifying(r, answer, now);
      if r in s.held && f.Some? then [SaveOf(f.value)] else []
    case Beat(r, hb, now) => if r in s.held then [SaveOf(Beaten(r, hb, now))] else []
    case SwitchTo(_) => []
  }

  function CutOff(es: seq<Entry>, ending: Ending): seq<Entry> {
    if ending.Finishes? || ending.k >= |es| then es
    else es[..ending.k] + (if es[ending.k].Complete? then [Stopped(es[ending.k].op, ending.n)] else [])
  }

  ghost function HeldAfter(s: Session, c: Command): set<Runtime> {
    match c
    case Open(id) =>
      var found := LoadById(s.w.store, id).1;
      if found.Ok? then s.held + {FromRecord(found.value)} else s.held
    case Check(r, answer, now) =>
      var f := Verifying(r, answer, now);
      if r in s.held && f.Some? then s.held + {f.value} else s.held
    case Beat(r, hb, now) => if r in s.held then s.held + {Beaten(r, hb, now)} else s.held
    case _ => s.held
  }

  ghost function Next(s: Session, c: Command, ending: Ending, sha: Hash): Session {
    var w := if c.SwitchTo? then s.w.(store := s.w.store.(cursor := c.cursor)) else s.w;
    Session(PlayAll(w, CutOff(JournalOf(s, c, sha), ending)), HeldAfter(s, c))
  }

  /** Generated JWT secrets are not empty, and the platform's answers are honest. */
  ghost predicate Allowed(s: Session, c: Command, sha: Hash) {
    && AllHonest(s.w, JournalOf(s, c, sha))
    && (c.New? ==> c.inv.m.jwt != "" && c.inv.o.jwt != "")
  }

  ghost function RunAll(s: Session, cs: seq<(Command, Ending)>, sha: Hash): Session
    decreases |cs|
  {
    if cs == [] then s else RunAll(Next(s, cs[0].0, cs[0].1, sha), cs[1..], sha)
  }

  ghost predicate AllAllowed(s: Session, cs: seq<(Command, Ending)>, sha: Hash)
    decreases |cs|
  {
    cs == [] || (Allowed(s, cs[0].0, sha) && AllAllowed(Next(s, cs[0].0, cs[0].1, sha), cs[1..], sha))
  }

  ghost predicate SessionGood(s: Session, sha: Hash) {
    Inv(s.w, sha) && (forall r :: r in s.held ==> Fine(r, s.w.reg, sha))
  }

  lemma JournalSound(s: Session, c: Command, sha: Hash)
    requires SessionGood(s, sha) && Injective(sha) && Allowed(s, c, sha)
    ensures AllSound(s.w, JournalOf(s, c, sha), sha)
  {
    match c
    case New(inv) =>
      var pending := Load(s.w.store.disk, PENDING);
      if pending.Ok? {
        NewCommand.NewCommandSound(s.w, pending.value, inv, sha);
      }
    case Status(a) => StatusRunSound(s.w, a, sha);
    case Activate(status, a) => FinalizeSound(s.w, status, a, sha);
    case Open(id) => NothingSaved(s.w, LoadByIdOp(id), sha);
    case Check(r, answer, now) =>
      if r in s.held {
        VerifyingSound(s.w, r, answer, now, sha);
      }
    case Beat(r, hb, now) =>
      if r in s.held {
        BeatSound(s.w, r, hb, now, sha);
      }
    case SwitchTo(_) =>
  }

  lemma NothingSaved(w: World, op: Op, sha: Hash)
    requires op.LoadByIdOp?
    ensures AllSound(w, [Complete(op)], sha)
  {
  }

  /** A killed command leaves a journal that is as sound as the whole one. */
  lemma CutOffSound(w: World, es: seq<Entry>, ending: Ending, sha: Hash)
    requires AllSound(w, es, sha) && AllHonest(w, es)
    ensures AllSound(w, CutOff(es, ending), sha) && AllHonest(w, CutOff(es, ending))
  {
    if ending.Killed? && ending.k < |es| {
      var head, e := es[..ending.k], es[ending.k];
      assert es == head + ([e] + es[ending.k + 1..]);
      PlayAppend(w, head, [e] + es[ending.k + 1..], sha);
      var v := PlayAll(w, head);
      Cons(v, e, es[ending.k + 1..], sha);
      if e.Complete? {
        var stop := Stopped(e.op, ending.n);
        Cons(v, stop, [], sha);
        assert [stop] + [] == [stop];
        PlayAppend(w, head, [stop], sha);
      } else {
        assert CutOff(es, ending) == head;
      }
    }
  }

  lemma HeldFine(s: Session, c: Command, v: World, sha: Hash)
    requires SessionGood(s, sha) && Grows(s.w.reg, v.reg)
    ensures forall r :: r in HeldAfter(s, c) ==> Fine(r, v.reg, sha)
  {
    forall r | r in HeldAfter(s, c)
      ensures Fine(r, v.reg, sha)
    {
      if r !in s.held && c.Open? {
        var (s1, found) := LoadById(s.w.store, c.id);
        var stored := s.w.store.disk[s1.cursor.value].file.record;
        assert found.value == Normalise(stored);
      }
      assert Fine(r, s.w.reg, sha);
      GoodStable(ToRecord(r), s.w.reg, v.reg, sha);
    }
  }

  lemma NextGood(s: Session, c: Command, ending: Ending, sha: Hash)
    requires SessionGood(s, sha) && Injective(sha) && Allowed(s, c, sha)
    ensures SessionGood(Next(s, c, ending, sha), sha) && Grows(s.w.reg, Next(s, c, ending, sha).w.reg)
  {
    var es := JournalOf(s, c, sha);
    JournalSound(s, c, sha);
    CutOffSound(s.w, es, ending, sha);
    InvRun(s.w, CutOff(es, ending), sha);
    assert c.SwitchTo? ==> PlayAll(Next(s, c, ending, sha).w, []) == Next(s, c, ending, sha).w;
    HeldFine(s, c, PlayAll(s.w, CutOff(es, ending)), sha);
  }

  lemma {:induction false} RunGood(s: Session, cs: seq<(Command, Ending)>, sha: Hash)
    requires SessionGood(s, sha) && Injective(sha) && AllAllowed(s, cs, sha)
    ensures SessionGood(RunAll(s, cs, sha), sha) && Grows(s.w.reg, RunAll(s, cs, sha).w.reg)
    decreases |cs|
  {
    if cs != [] {
      var t := Next(s, cs[0].0, cs[0].1, sha);
      NextGood(s, cs[0].0, cs[0].1, sha);
      RunGood(t, cs[1..], sha);
      GrowsTransitive(s.w.reg, t.w.reg, RunAll(t, cs[1..], sha).w.reg);
    }
  }

  const EMPTY: Session := Session(World(State(map[], None), Registry(map[], map[], map[])), {})

  /** What a record may say, given what the platform holds and which secrets were generated together. */
  predicate Consistent(r: Record, reg: Registry, sha: Hash) {
    && (r.wardId == "" && r.wardDraftId != "" ==>
          r.wardDraftId in reg.drafts && reg.drafts[r.wardDraftId] == sha(r.wardDraftSecret))
    && (r.wardId != "" <==> r.wardSecret != "")
    && (r.wardId != "" ==>
          && r.wardDraftSecret == "" && r.wardId in reg.wards
          && var from := reg.wards[r.wardId];
          && from.wardSecret == r.wardSecret
          && from.preimage in reg.minted && reg.minted[from.preimage] == r.jwtSecret
          && from.draftId in reg.drafts && reg.drafts[from.draftId] == sha(from.preimage))
  }

  /**
   From an empty store, after any commands with any deaths: every complete record on disk
   is consistent with the platform.
   */
  lemma EveryRecordConsistent(cs: seq<(Command, Ending)>, sha: Hash)
    requires Injective(sha) && AllAllowed(EMPTY, cs, sha)
    ensures var v := RunAll(EMPTY, cs, sha).w;
            forall d :: d in v.store.disk && v.store.disk[d].file.Whole? ==> Consistent(v.store.disk[d].file.record, v.reg, sha)
  {
    RunGood(EMPTY, cs, sha);
    var v := RunAll(EMPTY, cs, sha).w;
    forall d | d in v.store.disk && v.store.disk[d].file.Whole?
      ensures Consistent(v.store.disk[d].file.record, v.reg, sha)
    {
      assert FileGood(v.store.disk[d].file, v.reg, sha);
    }
  }

  /** Once a ward is on disk, whatever is on disk for it later has the same two secrets. */
  lemma CredentialsLast(before: seq<(Command, Ending)>, after: seq<(Command, Ending)>, sha: Hash, d: string, e: string)
    requires Injective(sha) && AllAllowed(EMPTY, before, sha) && AllAllowed(RunAll(EMPTY, before, sha), after, sha)
    requires var v := RunAll(EMPTY, before, sha).w.store.disk;
             d in v && v[d].file.Whole? && v[d].file.record.wardId != ""
    requires var u := RunAll(RunAll(EMPTY, before, sha), after, sha).w.store.disk;
             e in u && u[e].file.Whole? && u[e].file.record.wardId == RunAll(EMPTY, before, sha).w.store.disk[d].file.record.wardId
    ensures var old_ := RunAll(EMPTY, before, sha).w.store.disk[d].file.record;
            var new_ := RunAll(RunAll(EMPTY, before, sha), after, sha).w.store.disk[e].file.record;
            new_.wardSecret == old_.wardSecret && new_.jwtSecret == old_.jwtSecret && new_.wardDraftSecret == ""
  {
    RunGood(EMPTY, before, sha);
    var s := RunAll(EMPTY, before, sha);
    RunGood(s, after, sha);
    assert FileGood(s.w.store.disk[d].file, s.w.reg, sha);
    var t := RunAll(s, after, sha);
    assert FileGood(t.w.store.disk[e].file, t.w.reg, sha);
  }
}
