/**
 The directory-per-runtime JSON store: the disk, the `wardDir` cursor, and each operation
 both as a function of disk and cursor and as the method that performs it.
 */
module Store {
  import opened Wrappers
  import opened Records
  import opened Names

  const PENDING: string := ".pending"

  datatype File = Absent | Torn | Whole(record: Record)

  /** One runtime directory: `ward.json` and `ward.json.tmp`. */
  datatype Dir = Dir(file: File, tmp: File)

  type Disk = map<string, Dir>

  datatype Error = NotFound | Deprecated | Unreadable | MultipleRuntimes | TargetExists | NoSource

  /** Disk and cursor; a cursor of `None` is the empty `wardDir`. */
  datatype State = State(disk: Disk, cursor: Option<string>)

  /** `Ok(None)` is a directory without a record. */
  function Load(disk: Disk, dir: string): Result<Option<Record>, Error> {
    if dir !in disk || disk[dir].file.Absent? then Ok(None)
    else if disk[dir].file.Torn? then Err(Unreadable)
    else if disk[dir].file.record.listenAddr != "" then Err(Deprecated)
    else Ok(Some(Normalise(disk[dir].file.record)))
  }

  function Written(disk: Disk, dir: string, r: Record): Disk {
    disk[dir := Dir(Whole(Normalise(r)), Absent)]
  }

  function Moved(disk: Disk, source: string, target: string): Disk
    requires source in disk
  {
    (disk - {source})[target := disk[source]]
  }

  function Target(cursor: Option<string>, r: Record): string {
    if r.wardId != "" then r.wardId
    else if r.wardDraftId != "" then r.wardDraftId
    else if cursor.Some? then cursor.value
    else PENDING
  }

  function HoldsSame(existing: Record, r: Record): bool {
    if r.wardId != "" then existing.wardId == r.wardId
    else if r.wardDraftId != "" then existing.wardDraftId == r.wardDraftId
    else existing.wardId == "" && existing.wardDraftId == ""
  }

  function SameRuntime(disk: Disk, dir: string, r: Record): Result<bool, Error> {
    match Load(disk, dir)
    case Err(e) => Err(e)
    case Ok(None) => Ok(false)
    case Ok(Some(existing)) => Ok(HoldsSame(existing, r))
  }

  /** A save: which directory receives the record, and whether the cursor's directory is moved there first. */
  function SaveWard(s: State, r: Record): (State, Option<Error>) {
    if s.cursor == Some(PENDING) && r.wardId == "" then (s.(disk := Written(s.disk, PENDING, r)), None)
    else
      var target := Target(s.cursor, r);
      if s.cursor.None? || s.cursor.value == target then (State(Written(s.disk, target, r), Some(target)), None)
      else if target in s.disk then
        match SameRuntime(s.disk, target, r)
        case Err(e) => (s, Some(e))
        case Ok(false) => (s, Some(TargetExists))
        case Ok(true) => (State(Written(s.disk, target, r), Some(target)), None)
      else if s.cursor.value !in s.disk then (s, Some(NoSource))
      else (State(Written(Moved(s.disk, s.cursor.value, target), target, r), Some(target)), None)
  }

  function SavePending(s: State, r: Record): State {
    s.(disk := Written(s.disk, PENDING, r.(wardId := "", wardSecret := "")))
  }

  function CommitPending(s: State, r: Record): (State, Option<Error>) {
    var target := Target(s.cursor, r);
    if target == PENDING then (s.(disk := Written(s.disk, PENDING, r)), None)
    else if target in s.disk then (s, Some(TargetExists))
    else if PENDING in s.disk then (State(Written(Moved(s.disk, PENDING, target), target, r), Some(target)), None)
    else (State(Written(s.disk, target, r), Some(target)), None)
  }

  /** The directories a scan lists: all but `.pending` that hold a record file. */
  function Scanned(disk: Disk): set<string> {
    set d | d in disk && d != PENDING && !disk[d].file.Absent?
  }

  ghost function LoadWard(s: State): (State, Result<Option<Record>, Error>) {
    var held := if s.cursor.Some? then Load(s.disk, s.cursor.value) else Ok(None);
    if held != Ok(None) then (s, held)
    else if |Scanned(s.disk)| == 0 then (s.(cursor := None), Ok(None))
    else if |Scanned(s.disk)| > 1 then (s.(cursor := None), Err(MultipleRuntimes))
    else
      var d :| d in Scanned(s.disk);
      (s.(cursor := Some(d)), Load(s.disk, d))
  }

  predicate Carries(r: Record, id: string) {
    r.wardDraftId == id || r.wardId == id
  }

  function LoadById(s: State, id: string): (State, Result<Record, Error>) {
    match Load(s.disk, PENDING)
    case Err(e) => (s, Err(e))
    case Ok(p) =>
      if p.Some? && Carries(p.value, id) then (s.(cursor := Some(PENDING)), Ok(p.value))
      else match Load(s.disk, id)
        case Err(e) => (s, Err(e))
        case Ok(None) => (s, Err(NotFound))
        case Ok(Some(r)) => (s.(cursor := Some(id)), Ok(r))
  }

  /** The file system as the process sees it. */
  class FileSystem {
    var dirs: Disk

    constructor ()
      ensures dirs == map[]
    {
      dirs := map[];
    }

    method Stat(dir: string) returns (exists_: bool)
      ensures exists_ == (dir in dirs)
    {
      exists_ := dir in dirs;
    }

    method MkdirAll(dir: string)
      modifies this
      ensures dirs == if dir in old(dirs) then old(dirs) else old(dirs)[dir := Dir(Absent, Absent)]
    {
      if dir !in dirs {
        dirs := dirs[dir := Dir(Absent, Absent)];
      }
    }

    /** Fails, changing nothing, when there is nothing to move. */
    method RenameDir(source: string, target: string) returns (ok: bool)
      requires target !in dirs
      modifies this
      ensures ok == (source in old(dirs))
      ensures dirs == if ok then Moved(old(dirs), source, target) else old(dirs)
    {
      ok := source in dirs;
      if ok {
        dirs := (dirs - {source})[target := dirs[source]];
      }
    }

    method WriteTmp(dir: string, r: Record)
      requires dir in dirs
      modifies this
      ensures dirs == old(dirs)[dir := old(dirs)[dir].(tmp := Whole(r))]
    {
      dirs := dirs[dir := dirs[dir].(tmp := Whole(r))];
    }

    method RenameTmp(dir: string)
      requires dir in dirs && !dirs[dir].tmp.Absent?
      modifies this
      ensures dirs == old(dirs)[dir := Dir(old(dirs)[dir].tmp, Absent)]
    {
      dirs := dirs[dir := Dir(dirs[dir].tmp, Absent)];
    }
  }

  class JSONStore {
    const fs: FileSystem
    var wardDir: Option<string>

    ghost function View(): State
      reads this, fs
    {
      State(fs.dirs, wardDir)
    }

    constructor (fs: FileSystem)
      ensures this.fs == fs && View() == State(fs.dirs, None)
    {
      this.fs := fs;
      wardDir := None;
    }

    /** The defaulting that both reading and writing perform, one field after another. */
    method FillDefaults(r: Record) returns (record: Record)
      ensures record == Normalise(r)
    {
      record := r;
      if record.upstream.mode == "" {
        record := record.(upstream := record.upstream.(mode := DAEMON));
      }
      if record.ingress.mode == "" {
        record := record.(ingress := record.ingress.(mode := STANDALONE));
      }
      if record.ingress.publicPort == 0 {
        if record.ingress.mode == STANDALONE && record.ingress.listenPort > 0 {
          record := record.(ingress := record.ingress.(publicPort := record.ingress.listenPort));
        } else {
          record := record.(ingress := record.ingress.(publicPort := 443));
        }
      }
      record := record.(ingress := record.ingress.(serveTLS := record.ingress.mode != BEHIND_PROXY));
    }

    method LoadFromDir(dir: string) returns (r: Result<Option<Record>, Error>)
      ensures r == Load(fs.dirs, dir)
    {
      if dir !in fs.dirs {
        return Ok(None);
      }
      match fs.dirs[dir].file
      case Absent => return Ok(None);
      case Torn => return Err(Unreadable);
      case Whole(stored) =>
        if stored.listenAddr != "" {
          return Err(Deprecated);
        }
        var record := FillDefaults(stored);
        return Ok(Some(record));
    }

    method SaveToDir(dir: string, r: Record)
      modifies fs
      ensures fs.dirs == Written(old(fs.dirs), dir, r)
    {
      fs.MkdirAll(dir);
      var runtime := FillDefaults(r);
      fs.WriteTmp(dir, runtime);
      fs.RenameTmp(dir);
    }

    method LoadWardRuntime() returns (r: Result<Option<Record>, Error>)
      modifies this
      ensures (View(), r) == LoadWard(old(View()))
    {
      if wardDir.Some? {
        var held := LoadFromDir(wardDir.value);
        if held != Ok(None) {
          return held;
        }
        wardDir := None;
      }
      var dirs := ScanWardDirs();
      if |dirs| == 0 {
        return Ok(None);
      }
      if |dirs| > 1 {
        return Err(MultipleRuntimes);
      }
      wardDir := Some(dirs[0]);
      assert dirs[0] in Members(dirs);
      OnlyMember(Scanned(fs.dirs), dirs[0]);
      r := LoadFromDir(dirs[0]);
    }

    method ScanWardDirs() returns (dirs: seq<string>)
      ensures dirs == Ordered(Scanned(fs.dirs)) && Sorted(dirs)
      ensures forall d :: d in dirs <==> d in fs.dirs && d != ".pending" && !fs.dirs[d].file.Absent?
    {
      dirs := [];
      var entries := fs.dirs.Keys;
      while entries != {}
        invariant entries <= fs.dirs.Keys
        invariant Members(dirs) == set d | d in fs.dirs && d !in entries && d != PENDING && !fs.dirs[d].file.Absent?
        invariant forall i, j :: 0 <= i < j < |dirs| ==> dirs[i] != dirs[j]
        decreases |entries|
      {
        var name :| name in entries;
        assert name !in Members(dirs);
        entries := entries - {name};
        if name != PENDING && !fs.dirs[name].file.Absent? {
          MembersAppend(dirs, name);
          dirs := dirs + [name];
        }
      }
      assert Members(dirs) == Scanned(fs.dirs);
      dirs := SortNames(dirs);
      assert Members(dirs) == Scanned(fs.dirs);
      assert forall d :: d in dirs <==> d in Members(dirs);
    }

    method SaveWardRuntime(r: Record) returns (e: Option<Error>)
      modifies this, fs
      ensures (View(), e) == SaveWard(old(View()), r)
    {
      if wardDir == Some(PENDING) && r.wardId == "" {
        SaveToDir(PENDING, r);
        return None;
      }
      var targetDir := ComputeTargetDir(r);
      if wardDir.Some? && wardDir.value != targetDir {
        var present := fs.Stat(targetDir);
        if present {
          var same := TargetDirContainsSameRuntime(targetDir, r);
          if same.Err? {
            return Some(same.error);
          } else if !same.value {
            return Some(TargetExists);
          }
        } else {
          var moved := fs.RenameDir(wardDir.value, targetDir);
          if !moved {
            return Some(NoSource);
          }
        }
      }
      wardDir := Some(targetDir);
      SaveToDir(targetDir, r);
      return None;
    }

    method ComputeTargetDir(r: Record) returns (dir: string)
      ensures dir == Target(wardDir, r)
    {
      if r.wardId != "" {
        return r.wardId;
      } else if r.wardDraftId != "" {
        return r.wardDraftId;
      } else if wardDir.Some? {
        return wardDir.value;
      } else {
        return PENDING;
      }
    }

    method TargetDirContainsSameRuntime(dir: string, r: Record) returns (same: Result<bool, Error>)
      ensures same == SameRuntime(fs.dirs, dir, r)
    {
      var existing := LoadFromDir(dir);
      match existing
      case Err(e) => return Err(e);
      case Ok(None) => return Ok(false);
      case Ok(Some(found)) =>
        if r.wardId != "" {
          return Ok(found.wardId == r.wardId);
        }
        if r.wardDraftId != "" {
          return Ok(found.wardDraftId == r.wardDraftId);
        }
        return Ok(found.wardId == "" && found.wardDraftId == "");
    }

    method LoadPendingRuntime() returns (r: Result<Option<Record>, Error>)
      ensures r == Load(fs.dirs, PENDING)
    {
      r := LoadFromDir(PENDING);
    }

    method SavePendingRuntime(r: Record)
      modifies this, fs
      ensures View() == SavePending(old(View()), r)
    {
      var runtime := r;
      runtime := runtime.(wardId := "");
      runtime := runtime.(wardSecret := "");
      SaveToDir(PENDING, runtime);
    }

    method CommitPendingRuntime(r: Record) returns (e: Option<Error>)
      modifies this, fs
      ensures (View(), e) == CommitPending(old(View()), r)
    {
      var targetDir := ComputeTargetDir(r);
      if targetDir == PENDING {
        SaveToDir(PENDING, r);
        return None;
      }
      var taken := fs.Stat(targetDir);
      if taken {
        return Some(TargetExists);
      }
      var pending := fs.Stat(PENDING);
      if pending {
        var moved := fs.RenameDir(PENDING, targetDir);
        wardDir := Some(targetDir);
        SaveToDir(targetDir, r);
        return None;
      }
      wardDir := Some(targetDir);
      SaveToDir(targetDir, r);
      return None;
    }

    method LoadRuntimeByID(id: string) returns (r: Result<Record, Error>)
      modifies this
      ensures (View(), r) == LoadById(old(View()), id)
    {
      var pending := LoadFromDir(PENDING);
      if pending.Err? {
        return Err(pending.error);
      }
      if pending.value.Some? && (pending.value.value.wardDraftId == id || pending.value.value.wardId == id) {
        wardDir := Some(PENDING);
        return Ok(pending.value.value);
      }
      var found := LoadFromDir(id);
      if found.Err? {
        return Err(found.error);
      }
      if found.value.None? {
        return Err(NotFound);
      }
      wardDir := Some(id);
      return Ok(found.value.value);
    }

    method ListWardRuntimes() returns (r: Result<seq<Record>, Error>)
      ensures r == Listing(fs.dirs)
    {
      var runtimes: seq<Record> := [];
      var pending := LoadFromDir(PENDING);
      if pending.Err? {
        return Err(pending.error);
      }
      if pending.value.Some? {
        runtimes := [pending.value.value];
      }
      var dirs := ScanWardDirs();
      r := LoadDirs(runtimes, dirs);
    }

    /** The loop over the scanned directories. */
    method LoadDirs(first: seq<Record>, dirs: seq<string>) returns (r: Result<seq<Record>, Error>)
      ensures r == Prefixed(first, LoadAll(fs.dirs, dirs))
    {
      var runtimes := first;
      for i := 0 to |dirs|
        invariant Prefixed(runtimes, LoadAll(fs.dirs, dirs[i..])) == Prefixed(first, LoadAll(fs.dirs, dirs))
      {
        assert dirs[i..][0] == dirs[i] && dirs[i..][1..] == dirs[i + 1..];
        var rt := LoadFromDir(dirs[i]);
        if rt.Err? {
          return Err(rt.error);
        }
        if rt.value.Some? {
          PrefixedMore(runtimes, rt.value.value, LoadAll(fs.dirs, dirs[i + 1..]));
          runtimes := runtimes + [rt.value.value];
        }
      }
      assert dirs[|dirs|..] == [] && runtimes + [] == runtimes;
      return Ok(runtimes);
    }
  }

  /** The records of the directories named, in order, or the first error among them. */
  function LoadAll(disk: Disk, names: seq<string>): Result<seq<Record>, Error> {
    if names == [] then Ok([])
    else match Load(disk, names[0])
      case Err(e) => Err(e)
      case Ok(None) => LoadAll(disk, names[1..])
      case Ok(Some(r)) => Prefixed([r], LoadAll(disk, names[1..]))
  }

  /** The scanned directories load one record each, or the listing fails. */
  lemma {:induction false} LoadAllExactly(disk: Disk, names: seq<string>)
    requires forall i :: 0 <= i < |names| ==> names[i] in Scanned(disk)
    ensures LoadAll(disk, names).Ok? <==> forall i :: 0 <= i < |names| ==> Load(disk, names[i]).Ok?
    ensures LoadAll(disk, names).Ok? ==>
              && |LoadAll(disk, names).value| == |names|
              && forall i :: 0 <= i < |names| ==> Load(disk, names[i]) == Ok(Some(LoadAll(disk, names).value[i]))
  {
    if names != [] {
      assert names[0] in Scanned(disk);
      assert forall i :: 0 <= i < |names[1..]| ==> names[1..][i] == names[i + 1];
      LoadAllExactly(disk, names[1..]);
      assert forall i :: 0 < i < |names| ==> names[i] == names[1..][i - 1];
    }
  }

  function Prefixed(first: seq<Record>, rest: Result<seq<Record>, Error>): Result<seq<Record>, Error> {
    if rest.Err? then rest else Ok(first + rest.value)
  }

  lemma PrefixedMore(first: seq<Record>, r: Record, rest: Result<seq<Record>, Error>)
    ensures Prefixed(first, Prefixed([r], rest)) == Prefixed(first + [r], rest)
  {
    if rest.Ok? {
      assert first + ([r] + rest.value) == first + [r] + rest.value;
    }
  }

  /** The pending record, if any, then the record of each scanned directory in the order of their names. */
  ghost function Listing(disk: Disk): Result<seq<Record>, Error> {
    match Load(disk, PENDING)
    case Err(e) => Err(e)
    case Ok(p) => Prefixed(if p.Some? then [p.value] else [], LoadAll(disk, Ordered(Scanned(disk))))
  }

  lemma MembersAppend(s: seq<string>, x: string)
    ensures Members(s + [x]) == Members(s) + {x}
  {
    assert forall y :: y in s + [x] <==> y in s || y == x;
  }

  lemma OnlyMember<T>(s: set<T>, x: T)
    requires |s| == 1 && x in s
    ensures s == {x}
  {
    assert |s - {x}| == 0;
  }
}
