/** What directory names mean after any sequence of completed store operations. */
module StoreNaming {
  import opened Wrappers
  import opened Records
  import opened Store

  /** `NewProcess` is a fresh store over the same disk. */
  datatype Op =
    | NewProcess
    | LoadWardOp
    | LoadByIdOp(id: string)
    | SaveWardOp(r: Record)
    | SavePendingOp(r: Record)
    | CommitPendingOp(r: Record)

  ghost function Apply(s: State, op: Op): State {
    match op
    case NewProcess => s.(cursor := None)
    case LoadWardOp => LoadWard(s).0
    case LoadByIdOp(id) => LoadById(s, id).0
    case SaveWardOp(r) => SaveWard(s, r).0
    case SavePendingOp(r) => SavePending(s, r)
    case CommitPendingOp(r) => CommitPending(s, r).0
  }

  /** Identifiers are simple names other than the reserved one. */
  predicate SimpleNames(op: Op) {
    match op
    case LoadByIdOp(id) => id != PENDING
    case SaveWardOp(r) => r.wardId != PENDING && r.wardDraftId != PENDING
    case CommitPendingOp(r) => r.wardId != PENDING && r.wardDraftId != PENDING
    case _ => true
  }

  predicate AllSimple(ops: seq<Op>) {
    forall i :: 0 <= i < |ops| ==> SimpleNames(ops[i])
  }

  ghost function ApplyAll(s: State, ops: seq<Op>): State
    decreases |ops|
  {
    if ops == [] then s else ApplyAll(Apply(s, ops[0]), ops[1..])
  }

  function Id(r: Record): string {
    if r.wardId != "" then r.wardId else r.wardDraftId
  }

  /** Every directory is complete, and one that is not pending is named after its record's id. */
  ghost predicate Named(disk: Disk) {
    forall d :: d in disk ==>
      && disk[d].file.Whole? && disk[d].tmp.Absent?
      && (d != PENDING && Id(disk[d].file.record) != "" ==> d == Id(disk[d].file.record))
  }

  lemma NamedStep(s: State, op: Op)
    requires Named(s.disk) && SimpleNames(op)
    ensures Named(Apply(s, op).disk)
  {
  }

  lemma {:induction false} NamedRun(s: State, ops: seq<Op>)
    requires Named(s.disk) && AllSimple(ops)
    ensures Named(ApplyAll(s, ops).disk)
    decreases |ops|
  {
    if ops != [] {
      NamedStep(s, ops[0]);
      NamedRun(Apply(s, ops[0]), ops[1..]);
    }
  }

  /** After any completed operations from an empty store, directories carry their records' ids. */
  lemma NamingInvariant(ops: seq<Op>)
    requires AllSimple(ops)
    ensures Named(ApplyAll(State(map[], None), ops).disk)
  {
    NamedRun(State(map[], None), ops);
  }

  /** Two scanned directories never list the same id. */
  lemma ListedIdsDistinct(ops: seq<Op>, d: string, e: string)
    requires AllSimple(ops)
    ensures var disk := ApplyAll(State(map[], None), ops).disk;
            && d in Scanned(disk) && Load(disk, d).Ok? && e in Scanned(disk) && Load(disk, e).Ok?
            && Id(Load(disk, d).value.value) == Id(Load(disk, e).value.value) != ""
            ==> d == e
  {
    NamingInvariant(ops);
  }

  /** A listed id is found again, in its own directory, exactly when the pending record does not carry it. */
  lemma ListedIdFoundExactly(ops: seq<Op>, d: string)
    requires AllSimple(ops)
    ensures var s := ApplyAll(State(map[], None), ops);
            && d in Scanned(s.disk) && Load(s.disk, d).Ok? && Load(s.disk, PENDING).Ok?
            && Id(Load(s.disk, d).value.value) != ""
            ==> && var r := Load(s.disk, d).value.value;
                && var pending := Load(s.disk, PENDING).value;
                (LoadById(s, Id(r)) == (s.(cursor := Some(d)), Ok(r)) <==> !(pending.Some? && Carries(pending.value, Id(r))))
  {
    NamingInvariant(ops);
  }
}
