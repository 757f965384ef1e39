/** What each store operation does and refuses, in terms of directories, files and ids. */
module StoreRules {
  import opened Wrappers
  import opened Records
  import opened Names
  import opened Store
  import opened StoreNaming

  /** The file is a readable record of the same ward, of the same draft, or of neither like `r`. */
  predicate SameOwner(f: File, r: Record) {
    f.Whole? && f.record.listenAddr == ""
    && if r.wardId != "" then f.record.wardId == r.wardId
       else if r.wardDraftId != "" then f.record.wardDraftId == r.wardDraftId
       else f.record.wardId == "" && f.record.wardDraftId == ""
  }

  /** What is said of the directory a save would move to. */
  lemma SameRuntimeExactly(disk: Disk, d: string, r: Record)
    ensures SameRuntime(disk, d, r) == Ok(true) <==> d in disk && SameOwner(disk[d].file, r)
    ensures SameRuntime(disk, d, r).Err? <==> Load(disk, d).Err?
  {
  }

  /** Where a record belongs: under its ward's id, its draft's, or where the process works. */
  function Home(s: State, r: Record): string {
    if s.cursor == Some(".pending") && r.wardId == "" then ".pending"
    else if r.wardId != "" then r.wardId
    else if r.wardDraftId != "" then r.wardDraftId
    else if s.cursor.Some? then s.cursor.value
    else ".pending"
  }

  predicate MovesFrom(s: State, r: Record, d: string) {
    s.cursor == Some(d) && d != Home(s, r) && Home(s, r) !in s.disk
  }

  /** A save is refused exactly when it comes from elsewhere and its home is another's, or there is nothing to move. */
  lemma SaveRefusesExactly(s: State, r: Record)
    ensures SaveWard(s, r).1.Some? <==>
              && s.cursor.Some? && s.cursor.value != Home(s, r)
              && if Home(s, r) in s.disk then !SameOwner(s.disk[Home(s, r)].file, r) else s.cursor.value !in s.disk
    ensures SaveWard(s, r).1.Some? ==> SaveWard(s, r).0 == s
  {
  }

  /** A save that succeeds puts the record in its home, empties the place it moved from, and touches nothing else. */
  lemma SavePutsExactly(s: State, r: Record, d: string)
    requires SaveWard(s, r).1.None?
    ensures var s' := SaveWard(s, r).0;
            && s'.cursor == Some(Home(s, r)) && Home(s, r) in s'.disk
            && s'.disk[Home(s, r)] == Dir(Whole(Normalise(r)), Absent)
            && (d != Home(s, r) ==>
                  if MovesFrom(s, r, d) then d !in s'.disk
                  else (d in s'.disk <==> d in s.disk) && (d in s.disk ==> s'.disk[d] == s.disk[d]))
  {
  }

  /** Where directories carry their records' names, a save overwrites nobody else's record. */
  lemma SaveOverwritesOwnOnly(ops: seq<Op>, r: Record)
    requires AllSimple(ops) && Home(ApplyAll(State(map[], None), ops), r) != ".pending"
    ensures var s := ApplyAll(State(map[], None), ops);
            var home := Home(s, r);
            SaveWard(s, r).1.None? && home in s.disk && s.disk[home].file.Whole?
            && Id(s.disk[home].file.record) != "" && Id(r) != "" ==>
              Id(s.disk[home].file.record) == Id(r)
  {
    NamingInvariant(ops);
  }

  /** The pending slot takes anything, without a ward's credentials. */
  lemma SavePendingExactly(s: State, r: Record, d: string)
    ensures var s' := SavePending(s, r);
            && s'.cursor == s.cursor && ".pending" in s'.disk
            && s'.disk[".pending"] == Dir(Whole(Normalise(r.(wardId := "", wardSecret := ""))), Absent)
            && (d != ".pending" ==> (d in s'.disk <==> d in s.disk) && (d in s.disk ==> s'.disk[d] == s.disk[d]))
  {
  }

  /** A commit moves the pending slot to a name that must be free. */
  lemma CommitMovesExactly(s: State, r: Record, d: string)
    requires r.wardId != ".pending" && r.wardDraftId != ".pending" && (r.wardId != "" || r.wardDraftId != "")
    ensures var name := if r.wardId != "" then r.wardId else r.wardDraftId;
            var (s', e) := CommitPending(s, r);
            && (e.Some? <==> name in s.disk) && (e.Some? ==> s' == s)
            && (e.None? ==>
                  && s'.cursor == Some(name) && ".pending" !in s'.disk && name in s'.disk
                  && s'.disk[name] == Dir(Whole(Normalise(r)), Absent)
                  && (d != name && d != ".pending" ==> (d in s'.disk <==> d in s.disk) && (d in s.disk ==> s'.disk[d] == s.disk[d])))
  {
  }

  /** What a directory loads as. */
  lemma LoadExactly(disk: Disk, d: string)
    ensures Load(disk, d) == Ok(None) <==> d !in disk || disk[d].file == Absent
    ensures Load(disk, d).Err? <==> d in disk && (disk[d].file == Torn || (disk[d].file.Whole? && disk[d].file.record.listenAddr != ""))
    ensures Load(disk, d).Ok? && Load(disk, d).value.Some? <==>
              d in disk && disk[d].file.Whole? && disk[d].file.record.listenAddr == ""
    ensures Load(disk, d).Ok? && Load(disk, d).value.Some? ==> Load(disk, d).value.value == Normalise(disk[d].file.record)
  {
  }

  predicate Listed(disk: Disk, d: string) {
    d in disk && d != ".pending" && disk[d].file != Absent
  }

  /** A process that works nowhere yet, or where nothing is left, finds the only ward there is. */
  lemma LoadWardExactly(s: State)
    requires s.cursor.Some? ==> s.cursor.value !in s.disk || s.disk[s.cursor.value].file == Absent
    ensures (forall d :: !Listed(s.disk, d)) ==> LoadWard(s) == (s.(cursor := None), Ok(None))
    ensures forall d :: OnlyListed(s.disk, d) ==> LoadWard(s) == (s.(cursor := Some(d)), Load(s.disk, d))
    ensures forall d, e :: Listed(s.disk, d) && Listed(s.disk, e) && d != e ==> LoadWard(s) == (s.(cursor := None), Err(MultipleRuntimes))
  {
    var held := Scanned(s.disk);
    assert forall d :: d in held <==> Listed(s.disk, d);
    if forall d :: !Listed(s.disk, d) {
      assert held == {};
    }
    forall d | OnlyListed(s.disk, d) ensures LoadWard(s) == (s.(cursor := Some(d)), Load(s.disk, d)) {
      assert Listed(s.disk, d);
      assert held == {d};
    }
    forall d, e | Listed(s.disk, d) && Listed(s.disk, e) && d != e
      ensures LoadWard(s) == (s.(cursor := None), Err(MultipleRuntimes))
    {
      TwoMembers(held, d, e);
    }
  }

  ghost predicate OnlyListed(disk: Disk, d: string) {
    forall e :: Listed(disk, e) <==> e == d
  }

  lemma TwoMembers(names: set<string>, d: string, e: string)
    requires d in names && e in names && d != e
    ensures |names| > 1
  {
    assert |names - {d}| > 0 by { assert e in names - {d}; }
  }

  /** A process that works somewhere finds its record again. */
  lemma LoadWardKeeps(s: State)
    requires s.cursor.Some? && s.cursor.value in s.disk && s.disk[s.cursor.value].file != Absent
    ensures LoadWard(s) == (s, Load(s.disk, s.cursor.value))
  {
  }

  /** An id is looked for in the pending slot first, then under its name. */
  lemma LoadByIdExactly(s: State, id: string)
    requires Load(s.disk, ".pending").Ok?
    ensures var pending := Load(s.disk, ".pending").value;
            var (s', found) := LoadById(s, id);
            if pending.Some? && (pending.value.wardId == id || pending.value.wardDraftId == id)
            then found == Ok(pending.value) && s' == s.(cursor := Some(".pending"))
            else match Load(s.disk, id)
              case Ok(Some(r)) => found == Ok(r) && s' == s.(cursor := Some(id))
              case Ok(None) => found == Err(NotFound) && s' == s
              case Err(e) => found == Err(e) && s' == s
  {
  }
}
