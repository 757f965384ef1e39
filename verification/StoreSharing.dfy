/**
 Several heartbeat loops saving through one store without a lock: every interleaving of
 the single steps of their saves, including the races on the `wardDir` cursor.
 */
module StoreSharing {
  import opened Wrappers
  import opened Records
  import opened Store
  import opened StoreSteps

  /** A loop saves the records of its queue in turn; `at` is the save under way, if any. */
  datatype Loop = Loop(queue: seq<Record>, saved: nat, at: Option<Saver>)

  datatype World = World(store: State, loops: map<string, Loop>)

  /** A loop whose save failed has ended. */
  predicate CanMove(w: World, id: string) {
    && id in w.loops
    && (if w.loops[id].at.Some? then !w.loops[id].at.value.Failed? else w.loops[id].saved < |w.loops[id].queue|)
  }

  /** The next step of the loop of ward `id`. */
  function Move(w: World, id: string): World
    requires CanMove(w, id)
  {
    var loop := w.loops[id];
    if loop.at.None? then w.(loops := w.loops[id := loop.(at := Some(TestPending(loop.queue[loop.saved])))])
    else
      var (s, sv) := Step(w.store, loop.at.value);
      var loop' := if sv.Done? then loop.(saved := loop.saved + 1, at := None) else loop.(at := Some(sv));
      World(s, w.loops[id := loop'])
  }

  predicate Schedule(w: World, ids: seq<string>)
    decreases |ids|
  {
    ids == [] || (CanMove(w, ids[0]) && Schedule(Move(w, ids[0]), ids[1..]))
  }

  function Run(w: World, ids: seq<string>): World
    requires Schedule(w, ids)
    decreases |ids|
  {
    if ids == [] then w else Run(Move(w, ids[0]), ids[1..])
  }

  predicate Holds(disk: Disk, id: string) {
    id in disk && disk[id].file.Whole? && OwnRecord(id, disk[id].file.record)
  }

  /** Every loop saves records of its own ward, and that ward's directory already holds it. */
  predicate Prepared(w: World) {
    forall id :: id in w.loops ==>
      && Holds(w.store.disk, id)
      && w.loops[id].saved == 0 && w.loops[id].at.None?
      && (forall i :: 0 <= i < |w.loops[id].queue| ==> OwnRecord(id, w.loops[id].queue[i]))
  }

  /** The file of a directory after a loop's first `saved` saves. */
  function LastSave(first: File, loop: Loop): File
    requires loop.saved <= |loop.queue|
  {
    if loop.saved == 0 then first else Whole(Normalise(loop.queue[loop.saved - 1]))
  }

  predicate OwnRecord(id: string, r: Record) {
    id != "" && r.wardId == id && r.listenAddr == ""
  }

  /** The points a save of `r` passes when the directory of its ward exists. */
  predicate OnCourse(id: string, r: Record, sv: Saver, tmp: File) {
    match sv
    case TestPending(q) => q == r
    case Aim(q) => q == r
    case TestCursor(q, t) => q == r && t == id
    case StatTarget(q, t) => q == r && t == id
    case TestSame(q, t) => q == r && t == id
    case SetCursor(q, t) => q == r && t == id
    case MakeDir(q, t) => q == r && t == id
    case OpenTmp(q, t) => q == r && t == id
    case FillTmp(q, t) => q == r && t == id
    case SwapTmp(q, t) => q == r && t == id && tmp == Whole(Normalise(r))
    case _ => false
  }

  predicate LoopInv(id: string, loop: Loop, first: Dir, dir: Dir) {
    && loop.saved <= |loop.queue|
    && (forall i :: 0 <= i < |loop.queue| ==> OwnRecord(id, loop.queue[i]))
    && dir.file == LastSave(first.file, loop)
    && dir.file.Whole? && OwnRecord(id, dir.file.record)
    && (loop.at.Some? ==> loop.saved < |loop.queue| && OnCourse(id, loop.queue[loop.saved], loop.at.value, dir.tmp))
  }

  predicate SharingInv(w0: World, w: World) {
    && w.loops.Keys == w0.loops.Keys
    && w.store.disk.Keys == w0.store.disk.Keys
    && (forall id :: id in w0.loops ==>
          && id in w0.store.disk && w.loops[id].queue == w0.loops[id].queue
          && LoopInv(id, w.loops[id], w0.store.disk[id], w.store.disk[id]))
    && (forall x :: x in w0.store.disk && x !in w0.loops ==> w.store.disk[x] == w0.store.disk[x])
  }

  lemma OwnStep(s: State, id: string, r: Record, sv: Saver)
    requires id in s.disk && s.disk[id].file.Whole? && OwnRecord(id, s.disk[id].file.record)
    requires OwnRecord(id, r) && OnCourse(id, r, sv, s.disk[id].tmp)
    ensures var (s', sv') := Step(s, sv);
            && s'.disk.Keys == s.disk.Keys
            && (forall x :: x in s.disk && x != id ==> s'.disk[x] == s.disk[x])
            && !sv'.Failed?
            && (if sv'.Done? then s'.disk[id].file == Whole(Normalise(r))
                else s'.disk[id].file == s.disk[id].file && OnCourse(id, r, sv', s'.disk[id].tmp))
  {
  }

  lemma MoveKeepsLoops(w: World, id: string)
    requires CanMove(w, id)
    ensures var v := Move(w, id);
            && v.loops.Keys == w.loops.Keys
            && (forall x :: x in w.loops && x != id ==> v.loops[x] == w.loops[x])
            && v.loops[id].queue == w.loops[id].queue
  {
  }

  lemma MoveKeepsDisk(w: World, id: string, first: Dir)
    requires CanMove(w, id) && id in w.store.disk && LoopInv(id, w.loops[id], first, w.store.disk[id])
    ensures var v := Move(w, id);
            && v.store.disk.Keys == w.store.disk.Keys
            && (forall x :: x in w.store.disk && x != id ==> v.store.disk[x] == w.store.disk[x])
  {
    var loop := w.loops[id];
    if loop.at.Some? {
      OwnStep(w.store, id, loop.queue[loop.saved], loop.at.value);
    }
  }

  lemma LoopStep(w: World, id: string, first: Dir)
    requires CanMove(w, id) && id in w.store.disk && LoopInv(id, w.loops[id], first, w.store.disk[id])
    ensures var v := Move(w, id);
            id in v.store.disk && id in v.loops && LoopInv(id, v.loops[id], first, v.store.disk[id])
  {
    var loop := w.loops[id];
    if loop.at.Some? {
      OwnStep(w.store, id, loop.queue[loop.saved], loop.at.value);
    }
  }

  lemma OthersKept(w0: World, w: World, v: World, id: string)
    requires SharingInv(w0, w) && id in w0.loops
    requires v.loops.Keys == w.loops.Keys && v.store.disk.Keys == w.store.disk.Keys
    requires forall x :: x in w.loops && x != id ==> v.loops[x] == w.loops[x]
    requires forall x :: x in w.store.disk && x != id ==> v.store.disk[x] == w.store.disk[x]
    requires v.loops[id].queue == w.loops[id].queue
    requires LoopInv(id, v.loops[id], w0.store.disk[id], v.store.disk[id])
    ensures SharingInv(w0, v)
  {
    forall x | x in w0.loops
      ensures LoopInv(x, v.loops[x], w0.store.disk[x], v.store.disk[x])
    {
      if x != id {
        assert LoopInv(x, w.loops[x], w0.store.disk[x], w.store.disk[x]);
      }
    }
  }

  lemma SharingStep(w0: World, w: World, id: string)
    requires SharingInv(w0, w) && CanMove(w, id)
    ensures SharingInv(w0, Move(w, id))
  {
    MoveKeepsLoops(w, id);
    MoveKeepsDisk(w, id, w0.store.disk[id]);
    LoopStep(w, id, w0.store.disk[id]);
    OthersKept(w0, w, Move(w, id), id);
  }

  lemma {:induction false} SharingRun(w0: World, w: World, ids: seq<string>)
    requires SharingInv(w0, w) && Schedule(w, ids)
    ensures SharingInv(w0, Run(w, ids))
    decreases |ids|
  {
    if ids != [] {
      SharingStep(w0, w, ids[0]);
      SharingRun(w0, Move(w, ids[0]), ids[1..]);
    }
  }

  lemma PreparedStart(w0: World)
    requires Prepared(w0)
    ensures SharingInv(w0, w0)
  {
  }

  /** Nothing foreign has changed, and each ward's directory holds its own loop's last save. */
  predicate NoInterference(w0: World, w: World) {
    && w.store.disk.Keys == w0.store.disk.Keys
    && w.loops.Keys == w0.loops.Keys
    && (forall x :: x in w0.store.disk && x !in w0.loops ==> w.store.disk[x] == w0.store.disk[x])
    && (forall id :: id in w0.loops ==>
          && w.loops[id].queue == w0.loops[id].queue
          && id in w.store.disk
          && Settled(w.loops[id], w0.store.disk[id].file, w.store.disk[id].file))
  }

  predicate Settled(loop: Loop, first: File, file: File) {
    && loop.saved <= |loop.queue|
    && file == LastSave(first, loop)
    && !(loop.at.Some? && loop.at.value.Failed?)
  }

  lemma LoopSettled(id: string, loop: Loop, first: Dir, dir: Dir)
    requires LoopInv(id, loop, first, dir)
    ensures Settled(loop, first.file, dir.file)
  {
  }

  lemma SharingResult(w0: World, w: World)
    requires SharingInv(w0, w)
    ensures NoInterference(w0, w)
  {
    forall id | id in w0.loops
      ensures Settled(w.loops[id], w0.store.disk[id].file, w.store.disk[id].file)
    {
      LoopSettled(id, w.loops[id], w0.store.disk[id], w.store.disk[id]);
    }
  }

  /**
   Under every schedule and from any cursor: no directory appears, disappears or changes
   for a foreign ward, no save fails, and each ward's directory holds the last record its
   own loop has completely saved.
   */
  lemma LoopsDoNotInterfere(w0: World, ids: seq<string>)
    requires Prepared(w0) && Schedule(w0, ids)
    ensures NoInterference(w0, Run(w0, ids))
  {
    PreparedStart(w0);
    SharingRun(w0, w0, ids);
    SharingResult(w0, Run(w0, ids));
  }

  /**
   The condition on a loop's directory is needed: a save for ward `id` leaves every other
   directory alone exactly when its own directory exists or the cursor does not name
   another existing one.
   */
  lemma SaveSparesOthersExactly(s: State, r: Record)
    requires r.wardId != ""
    ensures (forall x :: x in s.disk && x != r.wardId ==>
               x in SaveWard(s, r).0.disk && SaveWard(s, r).0.disk[x] == s.disk[x])
            <==> r.wardId in s.disk || s.cursor.None? || s.cursor.value !in s.disk
  {
  }
}
