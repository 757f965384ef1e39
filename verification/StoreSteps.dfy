/**
 A save as the single file-system and cursor steps it is made of, so that a crash or
 another save can come between any two of them.
 */
module StoreSteps {
  import opened Wrappers
  import opened Records
  import opened Store

  /** Where a save stands; the write of the temporary file is torn until it has finished. */
  datatype Saver =
    | TestPending(r: Record)
    | Aim(r: Record)
    | TestCursor(r: Record, target: string)
    | StatTarget(r: Record, target: string)
    | TestSame(r: Record, target: string)
    | RenameSource(r: Record, target: string)
    | SetCursor(r: Record, target: string)
    | MakeDir(r: Record, target: string)
    | OpenTmp(r: Record, target: string)
    | FillTmp(r: Record, target: string)
    | SwapTmp(r: Record, target: string)
    | Done
    | Failed(error: Error)

  /** One step; it reads or writes the cursor or the disk as they are at that moment. */
  function Step(s: State, sv: Saver): (State, Saver) {
    match sv
    case TestPending(r) =>
      (s, if s.cursor == Some(PENDING) && r.wardId == "" then MakeDir(r, PENDING) else Aim(r))
    case Aim(r) => (s, TestCursor(r, Target(s.cursor, r)))
    case TestCursor(r, t) =>
      (s, if s.cursor.Some? && s.cursor.value != t then StatTarget(r, t) else SetCursor(r, t))
    case StatTarget(r, t) => (s, if t in s.disk then TestSame(r, t) else RenameSource(r, t))
    case TestSame(r, t) =>
      (s, match SameRuntime(s.disk, t, r)
          case Err(e) => Failed(e)
          case Ok(false) => Failed(TargetExists)
          case Ok(true) => SetCursor(r, t))
    case RenameSource(r, t) =>
      if s.cursor.None? || s.cursor.value !in s.disk then (s, Failed(NoSource))
      else if t in s.disk then (s, Failed(TargetExists))
      else (s.(disk := Moved(s.disk, s.cursor.value, t)), SetCursor(r, t))
    case SetCursor(r, t) => (s.(cursor := Some(t)), MakeDir(r, t))
    case MakeDir(r, t) => (s.(disk := WithDir(s.disk, t)), OpenTmp(r, t))
    case OpenTmp(r, t) => PutTmp(s, t, Torn, FillTmp(r, t))
    case FillTmp(r, t) => PutTmp(s, t, Whole(Normalise(r)), SwapTmp(r, t))
    case SwapTmp(r, t) =>
      if t !in s.disk || s.disk[t].tmp.Absent? then (s, Failed(NoSource))
      else (s.(disk := s.disk[t := Dir(s.disk[t].tmp, Absent)]), Done)
    case Done => (s, Done)
    case Failed(_) => (s, sv)
  }

  function WithDir(disk: Disk, t: string): Disk {
    if t in disk then disk else disk[t := Dir(Absent, Absent)]
  }

  function PutTmp(s: State, t: string, f: File, next: Saver): (State, Saver) {
    if t !in s.disk then (s, Failed(NoSource))
    else (s.(disk := s.disk[t := s.disk[t].(tmp := f)]), next)
  }

  function Steps(s: State, sv: Saver, n: nat): (State, Saver)
    decreases n
  {
    if n == 0 then (s, sv)
    else var (s', sv') := Step(s, sv); Steps(s', sv', n - 1)
  }

  /** How many steps are left at most. */
  function Rank(sv: Saver): nat {
    match sv
    case TestPending(_) => 11
    case Aim(_) => 10
    case TestCursor(_, _) => 9
    case StatTarget(_, _) => 8
    case TestSame(_, _) => 7
    case RenameSource(_, _) => 7
    case SetCursor(_, _) => 6
    case MakeDir(_, _) => 5
    case OpenTmp(_, _) => 4
    case FillTmp(_, _) => 3
    case SwapTmp(_, _) => 2
    case Done => 0
    case Failed(_) => 0
  }

  function Destination(s: State, r: Record): string {
    if s.cursor == Some(PENDING) && r.wardId == "" then PENDING else Target(s.cursor, r)
  }

  /** The save moves its source directory: the promotion of a draft to its ward's name. */
  predicate Promotes(s: State, r: Record) {
    && s.cursor.Some? && s.cursor.value in s.disk
    && Destination(s, r) != s.cursor.value && Destination(s, r) !in s.disk
  }

  function Base(s: State, r: Record): Disk {
    if Promotes(s, r) then Moved(s.disk, s.cursor.value, Destination(s, r)) else s.disk
  }

  function WithTmp(disk: Disk, t: string, f: File): Disk
    requires t in disk
  {
    disk[t := disk[t].(tmp := f)]
  }

  /** What disk and cursor are at each point of a save of `r` that began in `s0` and ran alone. */
  predicate Standing(s0: State, r: Record, s: State, sv: Saver) {
    var t := Destination(s0, r);
    var base := Base(s0, r);
    match sv
    case TestPending(q) => q == r && s == s0
    case Aim(q) => q == r && s == s0 && !(s0.cursor == Some(PENDING) && r.wardId == "")
    case TestCursor(q, u) => q == r && u == t && s == s0 && !(s0.cursor == Some(PENDING) && r.wardId == "")
    case StatTarget(q, u) => q == r && u == t && s == s0 && s0.cursor.Some? && s0.cursor.value != t
    case TestSame(q, u) => q == r && u == t && s == s0 && s0.cursor.Some? && s0.cursor.value != t && t in s0.disk
    case RenameSource(q, u) => q == r && u == t && s == s0 && s0.cursor.Some? && s0.cursor.value != t && t !in s0.disk
    case SetCursor(q, u) => q == r && u == t && s == s0.(disk := base) && SaveWard(s0, r).1.None? && SaveWard(s0, r).0.cursor == Some(t)
    case MakeDir(q, u) => q == r && u == t && s == SaveWard(s0, r).0.(disk := base) && SaveWard(s0, r).1.None?
    case OpenTmp(q, u) => q == r && u == t && s == SaveWard(s0, r).0.(disk := WithDir(base, t)) && SaveWard(s0, r).1.None?
    case FillTmp(q, u) => q == r && u == t && s == SaveWard(s0, r).0.(disk := WithTmp(WithDir(base, t), t, Torn)) && SaveWard(s0, r).1.None?
    case SwapTmp(q, u) => q == r && u == t && s == SaveWard(s0, r).0.(disk := WithTmp(WithDir(base, t), t, Whole(Normalise(r)))) && SaveWard(s0, r).1.None?
    case Done => (s, None) == SaveWard(s0, r) && s.disk == Written(base, t, r)
    case Failed(e) => (s, Some(e)) == SaveWard(s0, r) && s == s0
  }

  lemma StandingStep(s0: State, r: Record, s: State, sv: Saver)
    requires Standing(s0, r, s, sv)
    ensures Standing(s0, r, Step(s, sv).0, Step(s, sv).1)
    ensures Rank(sv) > 0 ==> Rank(Step(s, sv).1) < Rank(sv)
    ensures Rank(sv) == 0 ==> Rank(Step(s, sv).1) == 0
  {
    var t := Destination(s0, r);
    if sv.SwapTmp? {
      assert Step(s, sv).0.disk == Written(Base(s0, r), t, r);
    }
  }

  lemma {:induction false} StandingSteps(s0: State, r: Record, s: State, sv: Saver, n: nat)
    requires Standing(s0, r, s, sv)
    ensures Standing(s0, r, Steps(s, sv, n).0, Steps(s, sv, n).1)
    ensures n >= Rank(sv) ==> Rank(Steps(s, sv, n).1) == 0
    decreases n
  {
    if n > 0 {
      StandingStep(s0, r, s, sv);
      var (s', sv') := Step(s, sv);
      StandingSteps(s0, r, s', sv', n - 1);
    }
  }

  /** Run alone to its end, the sequence of steps is the whole save. */
  lemma StepsRefineSave(s: State, r: Record, n: nat)
    requires n >= 11
    ensures var (s', sv') := Steps(s, TestPending(r), n);
            var (saved, error) := SaveWard(s, r);
            s' == saved && sv' == (if error.None? then Done else Failed(error.value))
  {
    StandingSteps(s, r, s, TestPending(r), n);
  }

  /** Stopped after any number of steps, a save has touched only its source and its target. */
  lemma StopTouchesOnlyTwo(s: State, r: Record, n: nat, x: string)
    requires x != Destination(s, r) && !(Promotes(s, r) && x == s.cursor.value)
    ensures var disk := Steps(s, TestPending(r), n).0.disk;
            && (x in disk <==> x in s.disk)
            && (x in disk ==> disk[x] == s.disk[x])
  {
    StandingSteps(s, r, s, TestPending(r), n);
  }

  /** The target's record is, at every stop, the complete old one or the complete new one. */
  lemma StopLeavesCompleteRecord(s: State, r: Record, n: nat)
    requires !Promotes(s, r) && Destination(s, r) in s.disk
    ensures var disk := Steps(s, TestPending(r), n).0.disk;
            var t := Destination(s, r);
            t in disk && (disk[t].file == s.disk[t].file || disk[t].file == Whole(Normalise(r)))
  {
    StandingSteps(s, r, s, TestPending(r), n);
  }

  /** A promotion stopped anywhere leaves exactly one of source and target, holding the old or the new record. */
  lemma StopDuringPromotion(s: State, r: Record, n: nat)
    requires Promotes(s, r)
    ensures var disk := Steps(s, TestPending(r), n).0.disk;
            var source, target := s.cursor.value, Destination(s, r);
            if source in disk then disk == s.disk && target !in disk
            else target in disk && (disk[target].file == s.disk[source].file || disk[target].file == Whole(Normalise(r)))
  {
    StandingSteps(s, r, s, TestPending(r), n);
  }
}
