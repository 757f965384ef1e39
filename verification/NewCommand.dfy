/** The `new` command: merging flags into the pending slot, and submitting it with `--commit`. */
module NewCommand {
  import opened Wrappers
  import opened Records
  import opened RuntimeObject
  import opened Store
  import opened StoreNaming
  import opened Lifecycle
  import opened NewService
  import PendingConfig
  import StoreRules

  /** The secrets and the clock reading of the merge. */
  datatype MergeOutside = MergeOutside(jwt: string, secret: string, now: int)

  /**
   What else decides how far the command gets: `--show`, the check of a full domain name,
   whether all is well before the first save (prechecks, a writable data directory), and
   between that save and the submission (listener, probe server, platform addresses).
   */
  datatype Preflight = Preflight(show: bool, fullDomain: (string, string, string) -> bool, before: bool, after: bool)

  datatype Invocation = Invocation(
    flags: PendingConfig.Input, ps: PendingConfig.Parsers, m: MergeOutside, pre: Preflight,
    commit: bool, base: string, o: Outside, link: Link)

  predicate HasFlags(f: PendingConfig.Input) {
    || f.site.changed || f.spec.changed || f.billing.changed || f.domainKind.changed || f.requestedDomain.changed
    || f.upstream.changed || f.upstreamMode.changed || f.upstreamCommand.changed || f.ingressMode.changed
    || f.publicPort.changed || f.cidrs.changed || f.listen.changed || f.listenV6.changed || f.port.changed
  }

  /** The command only displays what is pending. */
  predicate Shows(inv: Invocation) {
    inv.pre.show || (!inv.commit && !HasFlags(inv.flags))
  }

  function Existing(pending: Option<Record>): Option<Runtime> {
    if pending.Some? then Some(FromRecord(pending.value)) else None
  }

  function SiteOf(pending: Option<Record>, flags: PendingConfig.Input): string {
    if flags.site.value != "" then flags.site.value
    else if pending.Some? then pending.value.site
    else ""
  }

  function Merged(pending: Option<Record>, inv: Invocation): Result<Runtime, PendingConfig.Error> {
    var site := inv.flags.site.(value := SiteOf(pending, inv.flags));
    PendingConfig.Merge(Existing(pending), inv.flags.(site := site), inv.ps, inv.m.jwt, inv.m.secret, inv.m.now)
  }

  predicate DomainFits(r: Runtime, pre: Preflight) {
    r.spec == PRO && r.domain.requestedDomain != "" ==> pre.fullDomain(r.site, r.domain.kind, r.domain.requestedDomain)
  }

  function SubmissionOf(r: Runtime, base: string): Submission {
    Submission(r.site, r.spec, r.billingMode, r.domain.kind, r.domain.requestedDomain, r.upstream, r.ingress, base)
  }

  /** The secret a merge generates is journalled with the JWT secret it goes with. */
  function Minted(pending: Option<Record>, merged: Runtime, m: MergeOutside): seq<Entry> {
    if pending.Some? && pending.value.wardDraftSecret != "" then [] else [Mint(m.secret, merged.jwtSecret)]
  }

  /** The record a pending save of `r` leaves to be read back. */
  function ReadBack(r: Runtime): Record {
    Normalise(ToRecord(r).(wardId := "", wardSecret := ""))
  }

  function Submits(c: Runtime, inv: Invocation): Result<DraftInput, InputError> {
    Validated(SubmissionOf(c, inv.base), inv.ps.portOf)
  }

  predicate Proceeds(c: Runtime, inv: Invocation) {
    inv.pre.after && c.upstream.addr != "" && Submits(c, inv).Ok?
  }

  function SubmissionRun(c: Runtime, inv: Invocation, sha: Hash): (seq<Entry>, Option<Runtime>)
    requires Proceeds(c, inv)
  {
    Executed(Some(ReadBack(c)), Submits(c, inv).value, inv.o, sha, inv.link)
  }

  /** What `--commit` does once the cleared setup `c` is saved. */
  function CommitTail(twoStep: bool, c: Runtime, inv: Invocation, sha: Hash): seq<Entry> {
    if !Proceeds(c, inv) then []
    else
      var (submitted, out) := SubmissionRun(c, inv, sha);
      submitted + CommitEntry(twoStep, out)
  }

  /** Only a setup that was pending before is moved to a directory of its own. */
  function CommitEntry(twoStep: bool, out: Option<Runtime>): seq<Entry> {
    if out.Some? && twoStep then [Complete(CommitPendingOp(ReadBack(out.value)))] else []
  }

  /** What is saved first, if the command gets so far. */
  function FirstSaved(merged: Runtime, inv: Invocation): Runtime {
    if inv.commit then PlatformDraftCleared(merged) else merged
  }

  function AfterMerge(twoStep: bool, merged: Runtime, inv: Invocation, sha: Hash): seq<Entry> {
    if !DomainFits(merged, inv.pre) || !inv.pre.before then []
    else
      var c := FirstSaved(merged, inv);
      [Save(c)] + if inv.commit then CommitTail(twoStep, c, inv, sha) else []
  }

  /** The journal of one run of the command. */
  function Journal(pending: Option<Record>, inv: Invocation, sha: Hash): seq<Entry> {
    if Shows(inv) || SiteOf(pending, inv.flags) == "" || Merged(pending, inv).Err? then []
    else
      var merged := Merged(pending, inv).value;
      Minted(pending, merged, inv.m) + AfterMerge(pending.Some?, merged, inv, sha)
  }

  /** Whether a submission succeeds, given the store at its start. */
  ghost predicate TailSucceeds(s: State, twoStep: bool, c: Runtime, inv: Invocation, sha: Hash) {
    && Proceeds(c, inv)
    && var (es, out) := SubmissionRun(c, inv, sha);
       out.Some? && (twoStep ==> CommitPending(Stored(s, es), ReadBack(out.value)).1.None?)
  }

  /** Whether the command succeeds. */
  ghost predicate Succeeds(s: State, pending: Option<Record>, inv: Invocation, sha: Hash) {
    if Shows(inv) then !(inv.pre.show && HasFlags(inv.flags))
    else
      && SiteOf(pending, inv.flags) != "" && Merged(pending, inv).Ok?
      && var merged := Merged(pending, inv).value;
         && DomainFits(merged, inv.pre) && inv.pre.before
         && var c := FirstSaved(merged, inv);
            inv.commit ==> TailSucceeds(SavePending(s, ToRecord(c)), pending.Some?, c, inv, sha)
  }

  // ---------------------------------------------------------------- the journal is sound

  lemma MergeFits(w: World, pending: Option<Record>, inv: Invocation, sha: Hash)
    requires Inv(w, sha) && Load(w.store.disk, PENDING) == Ok(pending) && inv.m.jwt != ""
    requires Merged(pending, inv).Ok? && AllHonest(w, Minted(pending, Merged(pending, inv).value, inv.m))
    ensures var merged := Merged(pending, inv).value;
            && AllSound(w, Minted(pending, merged, inv.m), sha)
            && var v := PlayAll(w, Minted(pending, merged, inv.m));
            && v.store == w.store
            && Fit(merged, v.reg, sha) && Fit(PlatformDraftCleared(merged), v.reg, sha)
  {
    var merged := Merged(pending, inv).value;
    if pending.Some? {
      assert pending.value == Normalise(w.store.disk[PENDING].file.record);
    }
    var mint := Mint(inv.m.secret, merged.jwtSecret);
    Cons(w, mint, [], sha);
    assert [mint] + [] == [mint];
  }

  lemma SaveThenLoad(w: World, r: Runtime, sha: Hash)
    requires Fit(r, w.reg, sha) && Inv(w, sha)
    ensures AllSound(w, [Save(r)], sha) && AllHonest(w, [Save(r)])
    ensures var v := PlayAll(w, [Save(r)]);
            Inv(v, sha) && v.reg == w.reg && Load(v.store.disk, PENDING) == Ok(Some(ReadBack(r)))
  {
  }

  /** A submission that succeeds ends with the save of what it returns. */
  lemma EndsWithSave(pending: Option<Record>, input: DraftInput, o: Outside, sha: Hash, link: Link)
    requires Executed(pending, input, o, sha, link).1.Some?
    ensures var (es, out) := Executed(pending, input, o, sha, link);
            |es| > 0 && es[|es| - 1] == Save(out.value)
  {
  }

  lemma SnocLoads(s: State, es: seq<Entry>, r: Runtime)
    ensures Load(Stored(s, es + [Save(r)]).disk, PENDING) == Ok(Some(ReadBack(r)))
  {
    StoredSnoc(s, es, Save(r));
    NormaliseIdempotent(ToRecord(r).(wardId := "", wardSecret := ""));
  }

  lemma SavedLast(s: State, pending: Option<Record>, input: DraftInput, o: Outside, sha: Hash, link: Link)
    requires Executed(pending, input, o, sha, link).1.Some?
    ensures var (es, out) := Executed(pending, input, o, sha, link);
            Load(Stored(s, es).disk, PENDING) == Ok(Some(ReadBack(out.value)))
  {
    var (es, out) := Executed(pending, input, o, sha, link);
    EndsWithSave(pending, input, o, sha, link);
    assert es == es[..|es| - 1] + [Save(out.value)];
    SnocLoads(s, es[..|es| - 1], out.value);
  }

  lemma ReadBackGood(disk: Disk, r: Runtime, reg: Registry, sha: Hash)
    requires DiskGood(disk, reg, sha) && Load(disk, PENDING) == Ok(Some(ReadBack(r)))
    ensures Good(ReadBack(r), reg, sha)
  {
  }

  lemma CommitEntrySound(w: World, es: seq<Entry>, twoStep: bool, out: Option<Runtime>, sha: Hash)
    requires Inv(w, sha) && Injective(sha) && AllHonest(w, es) && AllSound(w, es, sha)
    requires out.Some? ==> Load(PlayAll(w, es).store.disk, PENDING) == Ok(Some(ReadBack(out.value)))
    ensures AllSound(w, es + CommitEntry(twoStep, out), sha)
  {
    var last := CommitEntry(twoStep, out);
    PlayAppend(w, es, last, sha);
    InvRun(w, es, sha);
    if last != [] {
      var v := PlayAll(w, es);
      ReadBackGood(v.store.disk, out.value, v.reg, sha);
      Cons(v, last[0], [], sha);
      assert [last[0]] + [] == last;
    }
  }

  lemma NeverStops(pending: Option<Record>, input: DraftInput, o: Outside, sha: Hash, link: Link)
    ensures forall i :: 0 <= i < |Executed(pending, input, o, sha, link).0| ==> !Executed(pending, input, o, sha, link).0[i].Stopped?
  {
  }

  lemma SubmissionSound(w: World, pending: Option<Record>, twoStep: bool, input: DraftInput, o: Outside, sha: Hash, link: Link)
    requires Inv(w, sha) && Injective(sha) && Load(w.store.disk, PENDING) == Ok(pending) && o.jwt != ""
    requires var (es, out) := Executed(pending, input, o, sha, link);
             AllHonest(w, es + CommitEntry(twoStep, out))
    ensures var (es, out) := Executed(pending, input, o, sha, link);
            AllSound(w, es + CommitEntry(twoStep, out), sha)
  {
    var (es, out) := Executed(pending, input, o, sha, link);
    PlayAppend(w, es, CommitEntry(twoStep, out), sha);
    ExecuteSound(w, pending, input, o, sha, link);
    if out.Some? {
      NeverStops(pending, input, o, sha, link);
      PlayStores(w, es);
      SavedLast(w.store, pending, input, o, sha, link);
    }
    CommitEntrySound(w, es, twoStep, out, sha);
  }

  lemma AfterMergeSound(w: World, twoStep: bool, merged: Runtime, inv: Invocation, sha: Hash)
    requires Inv(w, sha) && Injective(sha) && inv.o.jwt != "" && Fit(FirstSaved(merged, inv), w.reg, sha)
    requires AllHonest(w, AfterMerge(twoStep, merged, inv, sha))
    ensures AllSound(w, AfterMerge(twoStep, merged, inv, sha), sha)
  {
    if AfterMerge(twoStep, merged, inv, sha) != [] {
      var c := FirstSaved(merged, inv);
      var tail := if inv.commit then CommitTail(twoStep, c, inv, sha) else [];
      PlayAppend(w, [Save(c)], tail, sha);
      SaveThenLoad(w, c, sha);
      if tail != [] {
        SubmissionSound(PlayAll(w, [Save(c)]), Some(ReadBack(c)), twoStep, Submits(c, inv).value, inv.o, sha, inv.link);
      }
    }
  }

  /** Setup and submission journal only entries the client is entitled to. */
  lemma NewCommandSound(w: World, pending: Option<Record>, inv: Invocation, sha: Hash)
    requires Inv(w, sha) && Injective(sha) && Load(w.store.disk, PENDING) == Ok(pending)
    requires inv.m.jwt != "" && inv.o.jwt != ""
    requires AllHonest(w, Journal(pending, inv, sha))
    ensures AllSound(w, Journal(pending, inv, sha), sha)
  {
    if Journal(pending, inv, sha) != [] {
      var merged := Merged(pending, inv).value;
      var minted := Minted(pending, merged, inv.m);
      PlayAppend(w, minted, AfterMerge(pending.Some?, merged, inv, sha), sha);
      MergeFits(w, pending, inv, sha);
      InvRun(w, minted, sha);
      AfterMergeSound(PlayAll(w, minted), pending.Some?, merged, inv, sha);
    }
  }

  // ---------------------------------------------------------------- every secret is saved before its challenge is sent

  /** The entry before `j` saves the record whose challenge entry `j` sends. */
  ghost predicate SavedBefore(es: seq<Entry>, j: nat, sha: Hash) {
    && 0 < j < |es| && es[j].AskCreate?
    && exists q :: es[j - 1] == Save(q) && es[j].challenge == sha(q.wardDraftSecret)
  }

  lemma SavedBeforeShifts(a: seq<Entry>, b: seq<Entry>, j: nat, sha: Hash)
    requires j >= |a| && SavedBefore(b, j - |a|, sha)
    ensures SavedBefore(a + b, j, sha)
  {
    assert (a + b)[j] == b[j - |a|] && (a + b)[j - 1] == b[j - |a| - 1];
  }

  lemma SavedBeforeIsOnDisk(w: World, es: seq<Entry>, j: nat, sha: Hash)
    requires SavedBefore(es, j, sha)
    ensures var disk := PlayAll(w, es[..j]).store.disk;
            && PENDING in disk && disk[PENDING].file.Whole?
            && sha(disk[PENDING].file.record.wardDraftSecret) == es[j].challenge
  {
    var q :| es[j - 1] == Save(q) && es[j].challenge == sha(q.wardDraftSecret);
    assert es[..j] == es[..j - 1] + [Save(q)];
    SavedByLast(w, es[..j - 1], q, sha);
  }

  lemma SubmittedAsks(r: Runtime, input: DraftInput, o: Outside, sha: Hash, link: Link, j: nat)
    requires var es := Submitted(r, input, o, sha, link).0; j < |es| && es[j].AskCreate?
    ensures var es := Submitted(r, input, o, sha, link).0;
            if j == 0 then es[j].challenge == sha(r.wardDraftSecret) else SavedBefore(es, j, sha)
  {
    if j > 0 {
      SecondCreate(r, input, o, sha, link, 0, j);
      assert Retried(r, o).wardDraftSecret == o.retry;
    }
  }

  /** A setup that is read back for submission has its secret and no draft, so nothing comes before the create. */
  lemma SubmissionIsCreate(c: Runtime, input: DraftInput, o: Outside, sha: Hash, link: Link)
    requires c.wardDraftSecret != "" && c.wardDraftId == ""
    ensures var r := WithSecrets(Opened(Some(ReadBack(c)), input), o).0;
            && r.wardDraftSecret == c.wardDraftSecret
            && Executed(Some(ReadBack(c)), input, o, sha, link).0 == Submitted(r, input, o, sha, link).0
  {
    var r := WithSecrets(Opened(Some(ReadBack(c)), input), o).0;
    assert Executed(Some(ReadBack(c)), input, o, sha, link).0 == [] + [] + Submitted(r, input, o, sha, link).0;
  }

  lemma TailAsks(twoStep: bool, c: Runtime, inv: Invocation, sha: Hash, j: nat)
    requires c.wardDraftSecret != "" && c.wardDraftId == ""
    requires var es := CommitTail(twoStep, c, inv, sha); j < |es| && es[j].AskCreate?
    ensures var es := CommitTail(twoStep, c, inv, sha);
            if j == 0 then es[j].challenge == sha(c.wardDraftSecret) else SavedBefore(es, j, sha)
  {
    var (submitted, out) := SubmissionRun(c, inv, sha);
    var last := CommitEntry(twoStep, out);
    assert (submitted + last)[j] == submitted[j];
    var input := Submits(c, inv).value;
    SubmissionIsCreate(c, input, inv.o, sha, inv.link);
    SubmittedAsks(WithSecrets(Opened(Some(ReadBack(c)), input), inv.o).0, input, inv.o, sha, inv.link, j);
    if j > 0 {
      SavedBeforeGrows(submitted, last, j, sha);
    }
  }

  lemma CommitAsks(c: Runtime, tail: seq<Entry>, sha: Hash, j: nat)
    requires 0 < j <= |tail| && tail[j - 1].AskCreate?
    requires if j == 1 then tail[0].challenge == sha(c.wardDraftSecret) else SavedBefore(tail, j - 1, sha)
    ensures SavedBefore([Save(c)] + tail, j, sha)
  {
    if j == 1 {
      assert ([Save(c)] + tail)[0] == Save(c) && ([Save(c)] + tail)[1] == tail[0];
    } else {
      SavedBeforeShifts([Save(c)], tail, j, sha);
    }
  }

  lemma SavedBeforeGrows(a: seq<Entry>, b: seq<Entry>, j: nat, sha: Hash)
    requires SavedBefore(a, j, sha)
    ensures SavedBefore(a + b, j, sha)
  {
    assert (a + b)[j] == a[j] && (a + b)[j - 1] == a[j - 1];
  }

  /** A merge leaves a draft secret, and clearing for a commit keeps it but no draft. */
  lemma MergedHasSecret(pending: Option<Record>, inv: Invocation)
    requires inv.m.secret != "" && Merged(pending, inv).Ok?
    ensures var c := PlatformDraftCleared(Merged(pending, inv).value); c.wardDraftSecret != "" && c.wardDraftId == ""
  {
  }

  lemma MergeAsks(twoStep: bool, merged: Runtime, inv: Invocation, sha: Hash, j: nat)
    requires var c := PlatformDraftCleared(merged); c.wardDraftSecret != "" && c.wardDraftId == ""
    requires j < |AfterMerge(twoStep, merged, inv, sha)| && AfterMerge(twoStep, merged, inv, sha)[j].AskCreate?
    ensures SavedBefore(AfterMerge(twoStep, merged, inv, sha), j, sha)
  {
    if inv.commit {
      var c := PlatformDraftCleared(merged);
      TailAsks(twoStep, c, inv, sha, j - 1);
      CommitAsks(c, CommitTail(twoStep, c, inv, sha), sha, j);
    }
  }

  /** A journal with entries is a minted secret, if one was needed, and what follows the merge. */
  lemma JournalParts(pending: Option<Record>, inv: Invocation, sha: Hash) returns (merged: Runtime)
    requires inv.m.secret != "" && Journal(pending, inv, sha) != []
    ensures Journal(pending, inv, sha) == Minted(pending, merged, inv.m) + AfterMerge(pending.Some?, merged, inv, sha)
    ensures var c := PlatformDraftCleared(merged); c.wardDraftSecret != "" && c.wardDraftId == ""
  {
    merged := Merged(pending, inv).value;
    MergedHasSecret(pending, inv);
  }

  lemma JournalSavesFirst(pending: Option<Record>, inv: Invocation, sha: Hash, j: nat)
    requires inv.m.secret != ""
    requires j < |Journal(pending, inv, sha)| && Journal(pending, inv, sha)[j].AskCreate?
    ensures SavedBefore(Journal(pending, inv, sha), j, sha)
  {
    var merged := JournalParts(pending, inv, sha);
    var minted, rest := Minted(pending, merged, inv.m), AfterMerge(pending.Some?, merged, inv, sha);
    forall i | 0 <= i < |rest| && rest[i].AskCreate? ensures SavedBefore(rest, i, sha) {
      MergeAsks(pending.Some?, merged, inv, sha, i);
    }
    PartsSaveFirst(Journal(pending, inv, sha), minted, rest, j, sha);
  }

  lemma PartsSaveFirst(es: seq<Entry>, minted: seq<Entry>, rest: seq<Entry>, j: nat, sha: Hash)
    requires es == minted + rest && j < |es| && es[j].AskCreate?
    requires |minted| == 0 || (|minted| == 1 && minted[0].Mint?)
    requires forall i :: 0 <= i < |rest| && rest[i].AskCreate? ==> SavedBefore(rest, i, sha)
    ensures SavedBefore(es, j, sha)
  {
    AskIsLater(minted, rest, j);
    SavedBeforeShifts(minted, rest, j, sha);
  }

  /** In the whole command, whenever a challenge is sent, the pending record on disk holds its secret. */
  lemma EveryChallengeOnDisk(w: World, pending: Option<Record>, inv: Invocation, sha: Hash, j: nat)
    requires inv.m.secret != ""
    requires j < |Journal(pending, inv, sha)| && Journal(pending, inv, sha)[j].AskCreate?
    ensures var es := Journal(pending, inv, sha);
            var disk := PlayAll(w, es[..j]).store.disk;
            && PENDING in disk && disk[PENDING].file.Whole?
            && sha(disk[PENDING].file.record.wardDraftSecret) == es[j].challenge
  {
    JournalSavesFirst(pending, inv, sha, j);
    SavedBeforeIsOnDisk(w, Journal(pending, inv, sha), j, sha);
  }

  lemma AskIsLater(minted: seq<Entry>, rest: seq<Entry>, j: nat)
    requires |minted| == 0 || (|minted| == 1 && minted[0].Mint?)
    requires j < |minted + rest| && (minted + rest)[j].AskCreate?
    ensures j >= |minted| && rest[j - |minted|].AskCreate?
  {
  }

  // ---------------------------------------------------------------- what a run does

  /** Without `--show`, a run does more than display exactly when it commits or some flag is given. */
  lemma ShowsExactly(inv: Invocation)
    ensures var f := inv.flags;
            Shows(inv) <==>
              inv.pre.show
              || !(inv.commit || f.site.changed || f.spec.changed || f.billing.changed || f.domainKind.changed || f.requestedDomain.changed
                   || f.upstream.changed || f.upstreamMode.changed || f.upstreamCommand.changed || f.ingressMode.changed
                   || f.publicPort.changed || f.cidrs.changed || f.listen.changed || f.listenV6.changed || f.port.changed)
    ensures Shows(inv) ==> forall pending, sha :: Journal(pending, inv, sha) == []
  {
  }

  /** A site is given or stored, the merge succeeds, a pro domain is a full one, and nothing stands in the way. */
  predicate SetsUp(pending: Option<Record>, inv: Invocation) {
    && (inv.flags.site.value != "" || (pending.Some? && pending.value.site != ""))
    && Merged(pending, inv).Ok? && inv.pre.before
    && var r := Merged(pending, inv).value;
       r.spec != "pro" || r.domain.requestedDomain == "" || inv.pre.fullDomain(r.site, r.domain.kind, r.domain.requestedDomain)
  }

  lemma SitesMerge(pending: Option<Record>, inv: Invocation)
    requires Merged(pending, inv).Ok?
    ensures var r := Merged(pending, inv).value;
            && (inv.flags.site.changed && inv.flags.site.value != "" ==> r.site == inv.flags.site.value)
            && (!inv.flags.site.changed && pending.Some? && pending.value.site != "" ==> r.site == pending.value.site)
            && (pending.None? ==> r.site == inv.flags.site.value)
  {
  }

  /** Without `--commit` the merged setup is saved, exactly when it can be set up, and nothing is sent. */
  lemma SetupSavesExactly(s: State, pending: Option<Record>, inv: Invocation, sha: Hash)
    requires !Shows(inv) && !inv.commit
    ensures Succeeds(s, pending, inv, sha) <==> SetsUp(pending, inv)
    ensures Succeeds(s, pending, inv, sha) ==>
              && Stored(s, Journal(pending, inv, sha)) == SavePending(s, ToRecord(Merged(pending, inv).value))
              && Creates(Journal(pending, inv, sha)) == 0
    ensures !Succeeds(s, pending, inv, sha) ==> Stored(s, Journal(pending, inv, sha)) == s
  {
    if SiteOf(pending, inv.flags) != "" && Merged(pending, inv).Ok? {
      SetupStores(s, pending, Merged(pending, inv).value, inv, sha);
    }
  }

  lemma SetupStores(s: State, pending: Option<Record>, merged: Runtime, inv: Invocation, sha: Hash)
    requires !inv.commit
    ensures var rest := AfterMerge(pending.Some?, merged, inv, sha);
            var es := Minted(pending, merged, inv.m) + rest;
            && Stored(s, es) == (if rest == [] then s else SavePending(s, ToRecord(merged))) && Creates(es) == 0
  {
    var minted, rest := Minted(pending, merged, inv.m), AfterMerge(pending.Some?, merged, inv, sha);
    MintedStores(s, pending, merged, inv.m);
    StoredAppend(s, minted, rest);
    if rest != [] {
      assert rest == [Save(merged)] && rest[1..] == [];
    }
    NoCreates(minted + rest);
  }

  /** What a commit needs beyond a setup. */
  lemma ProceedsExactly(c: Runtime, inv: Invocation)
    ensures Proceeds(c, inv) <==>
              && inv.pre.after && c.upstream.addr != "" && (c.billingMode == "monthly" || c.billingMode == "yearly")
              && (c.ingress.mode == "behind_proxy" ==> c.domain.kind == "custom_domain")
              && ((c.spec == "starter" && c.domain.kind == "platform_subdomain")
                  || (c.spec == "pro" && (c.domain.kind == "platform_subdomain" || c.domain.kind == "custom_domain")
                      && c.domain.requestedDomain != "" && '/' !in c.domain.requestedDomain && '.' in c.domain.requestedDomain))
  {
    ValidatedExactly(SubmissionOf(c, inv.base), inv.ps.portOf);
  }

  /** A setup is submitted as it was saved. */
  lemma SubmitsItsOwn(c: Runtime, inv: Invocation)
    requires Submits(c, inv).Ok?
    ensures var v := Submits(c, inv).value;
            && v.site == c.site && v.spec == c.spec && v.billingMode == c.billingMode && v.domainKind == c.domain.kind
            && (c.upstream.addr != "" ==> v.upstream.addr == c.upstream.addr) && v.upstream.port == inv.ps.portOf(v.upstream.addr)
            && v.upstream.mode == c.upstream.mode && v.upstream.command == c.upstream.command
            && (c.ingress.mode != "" ==> v.ingress.mode == c.ingress.mode)
            && (c.ingress.listenPort > 0 ==> v.ingress.listenPort == c.ingress.listenPort)
            && (c.ingress.publicPort > 0 ==> v.ingress.publicPort == c.ingress.publicPort)
            && (c.ingress.listenHost != "" ==> v.ingress.listenHost == c.ingress.listenHost)
            && (c.ingress.family != "" ==> v.ingress.family == c.ingress.family)
            && v.ingress.trustedProxyCIDRs == c.ingress.trustedProxyCIDRs && v.publicBaseURL == inv.base
  {
    ValidatedContents(SubmissionOf(c, inv.base), inv.ps.portOf);
  }

  /** The reply a submission succeeds with. */
  function ReplyOf(o: Outside): DraftReply
    requires o.first.Accepted? || o.second.Accepted?
  {
    if o.first.Accepted? then o.first.reply else o.second.reply
  }

  lemma SubmissionHolds(s: State, c: Runtime, inv: Invocation, sha: Hash)
    requires Proceeds(c, inv) && SubmissionRun(c, inv, sha).1.Some? && inv.o.secret != "" && inv.o.retry != "" && c.wardDraftId == ""
    ensures inv.o.first.Accepted? || inv.o.second.Accepted?
    ensures var (es, out) := SubmissionRun(c, inv, sha);
            var disk := Stored(s, es).disk;
            && PENDING in disk && disk[PENDING].file == Whole(ReadBack(out.value))
            && HoldsReply(ReadBack(out.value), Submits(c, inv).value, ReplyOf(inv.o), inv.link, inv.o.now)
            && ReadBack(out.value).wardDraftId == ReplyOf(inv.o).draftId
  {
    SubmissionStores(s, Some(ReadBack(c)), Submits(c, inv).value, inv.o, sha, inv.link);
    LastSave(Some(ReadBack(c)), Submits(c, inv).value, inv.o, sha, inv.link);
  }

  /** A commit in one step leaves the accepted draft in the pending slot. */
  lemma CommitStaysPending(s: State, c: Runtime, inv: Invocation, sha: Hash)
    requires TailSucceeds(s, false, c, inv, sha) && inv.o.secret != "" && inv.o.retry != "" && c.wardDraftId == ""
    ensures inv.o.first.Accepted? || inv.o.second.Accepted?
    ensures var disk := Stored(s, CommitTail(false, c, inv, sha)).disk;
            && PENDING in disk && disk[PENDING].file.Whole?
            && HoldsReply(disk[PENDING].file.record, Submits(c, inv).value, ReplyOf(inv.o), inv.link, inv.o.now)
            && disk[PENDING].file.record.wardDraftId == ReplyOf(inv.o).draftId
  {
    SubmissionHolds(s, c, inv, sha);
    var es := SubmissionRun(c, inv, sha).0;
    assert CommitTail(false, c, inv, sha) == es + [] == es;
  }

  /** A commit of a setup that had been pending moves it to a directory named after its draft. */
  lemma CommitMovesPending(s: State, c: Runtime, inv: Invocation, sha: Hash)
    requires TailSucceeds(s, true, c, inv, sha) && inv.o.secret != "" && inv.o.retry != "" && c.wardDraftId == ""
    requires inv.o.first.Accepted? || inv.o.second.Accepted?
    requires ReplyOf(inv.o).draftId != "" && ReplyOf(inv.o).draftId != PENDING
    ensures var final := Stored(s, CommitTail(true, c, inv, sha));
            var name := ReplyOf(inv.o).draftId;
            && PENDING !in final.disk && name in final.disk && final.disk[name].file.Whole? && final.cursor == Some(name)
            && HoldsReply(final.disk[name].file.record, Submits(c, inv).value, ReplyOf(inv.o), inv.link, inv.o.now)
            && final.disk[name].file.record.wardDraftId == name
  {
    SubmissionHolds(s, c, inv, sha);
    var (es, out) := SubmissionRun(c, inv, sha);
    NormaliseIdempotent(ToRecord(out.value).(wardId := "", wardSecret := ""));
    MoveStores(s, es, ReadBack(out.value));
  }

  /** The move at the end of a commit that succeeds. */
  lemma MoveStores(s: State, es: seq<Entry>, record: Record)
    requires record.wardId == "" && record.wardDraftId != "" && record.wardDraftId != PENDING && Normalise(record) == record
    requires CommitPending(Stored(s, es), record).1.None?
    ensures var final := Stored(s, es + [Complete(CommitPendingOp(record))]);
            && PENDING !in final.disk && record.wardDraftId in final.disk && final.cursor == Some(record.wardDraftId)
            && final.disk[record.wardDraftId].file == Whole(record)
  {
    StoredSnoc(s, es, Complete(CommitPendingOp(record)));
    StoreRules.CommitMovesExactly(Stored(s, es), record, PENDING);
  }

  // ---------------------------------------------------------------- the methods

  method RunNew(store: JSONStore, inv: Invocation, sha: Hash) returns (ok: bool, ghost journal: seq<Entry>)
    modifies store, store.fs
    ensures var loaded := old(Load(store.fs.dirs, PENDING));
            && journal == (if loaded.Err? then [] else Journal(loaded.value, inv, sha))
            && ok == (loaded.Ok? && Succeeds(old(store.View()), loaded.value, inv, sha))
    ensures store.View() == Stored(old(store.View()), journal)
  {
    journal := [];
    var loaded := store.LoadPendingRuntime();
    if loaded.Err? {
      return false, journal;
    }
    var hasFlags := HasFlags(inv.flags);
    if inv.pre.show && hasFlags {
      return false, journal;
    }
    if inv.pre.show || (!inv.commit && !hasFlags) {
      return true, journal;
    }
    ok, journal := SetUp(store, loaded.value, inv, sha);
  }

  /** Resolves the site, merges, and saves or submits. */
  method SetUp(store: JSONStore, pending: Option<Record>, inv: Invocation, sha: Hash) returns (ok: bool, ghost journal: seq<Entry>)
    requires !Shows(inv)
    modifies store, store.fs
    ensures journal == Journal(pending, inv, sha)
    ensures ok == Succeeds(old(store.View()), pending, inv, sha)
    ensures store.View() == Stored(old(store.View()), journal)
  {
    journal := [];
    ghost var s0 := store.View();
    var existing := Existing(pending);
    var site := inv.flags.site.value;
    if site == "" {
      if pending.Some? && pending.value.site != "" {
        site := pending.value.site;
      } else {
        return false, journal;
      }
    }
    var flags := inv.flags.(site := inv.flags.site.(value := site));
    var merged := PendingConfig.MergePendingRuntime(existing, flags, inv.ps, inv.m.jwt, inv.m.secret, inv.m.now);
    if merged.Err? {
      return false, journal;
    }
    ghost var minted := Minted(pending, merged.value, inv.m);
    MintedStores(s0, pending, merged.value, inv.m);
    ghost var rest;
    ok, rest := SaveMerged(store, merged.value, pending.Some?, inv, sha);
    StoredAppend(s0, minted, rest);
    journal := minted + rest;
  }

  lemma MintedStores(s: State, pending: Option<Record>, merged: Runtime, m: MergeOutside)
    ensures Stored(s, Minted(pending, merged, m)) == s
  {
  }

  method SaveMerged(store: JSONStore, merged: Runtime, twoStep: bool, inv: Invocation, sha: Hash)
    returns (ok: bool, ghost journal: seq<Entry>)
    modifies store, store.fs
    ensures journal == AfterMerge(twoStep, merged, inv, sha)
    ensures var c := FirstSaved(merged, inv);
            ok == (DomainFits(merged, inv.pre) && inv.pre.before
                   && (inv.commit ==> TailSucceeds(SavePending(old(store.View()), ToRecord(c)), twoStep, c, inv, sha)))
    ensures store.View() == Stored(old(store.View()), journal)
  {
    journal := [];
    if merged.spec == PRO && merged.domain.requestedDomain != "" {
      if !inv.pre.fullDomain(merged.site, merged.domain.kind, merged.domain.requestedDomain) {
        return false, journal;
      }
    }
    if !inv.pre.before {
      return false, journal;
    }
    if inv.commit {
      ok, journal := CommitSetup(store, merged, twoStep, inv, sha);
    } else {
      journal := SaveSetup(store, merged);
      ok := true;
    }
  }

  method SaveSetup(store: JSONStore, r: Runtime) returns (ghost journal: seq<Entry>)
    modifies store, store.fs
    ensures journal == [Save(r)] + []
    ensures store.View() == SavePending(old(store.View()), ToRecord(r)) == Stored(old(store.View()), journal)
    ensures Load(store.fs.dirs, PENDING) == Ok(Some(ReadBack(r)))
  {
    StoredSnoc(store.View(), [], Save(r));
    journal := [] + [Save(r)];
    store.SavePendingRuntime(ToRecord(r));
    NormaliseIdempotent(ToRecord(r).(wardId := "", wardSecret := ""));
  }

  /** Clears what an earlier draft left, saves, and submits if the way is free. */
  method CommitSetup(store: JSONStore, merged: Runtime, twoStep: bool, inv: Invocation, sha: Hash)
    returns (ok: bool, ghost journal: seq<Entry>)
    modifies store, store.fs
    ensures var c := PlatformDraftCleared(merged);
            && journal == [Save(c)] + CommitTail(twoStep, c, inv, sha)
            && ok == TailSucceeds(SavePending(old(store.View()), ToRecord(c)), twoStep, c, inv, sha)
    ensures store.View() == Stored(old(store.View()), journal)
  {
    ghost var s0 := store.View();
    var runtime := new LocalWardRuntime(merged);
    runtime.ClearPlatformDraftState();
    var c := runtime.it;
    ghost var saved := SaveSetup(store, c);
    assert saved == [Save(c)];
    if !inv.pre.after || c.upstream.addr == "" {
      assert [Save(c)] + CommitTail(twoStep, c, inv, sha) == saved;
      return false, saved;
    }
    ghost var tail;
    ok, tail := SubmitSaved(store, c, twoStep, inv, sha);
    StoredAppend(s0, saved, tail);
    journal := saved + tail;
  }

  /** Submits what has just been saved, and moves it if it had been pending before. */
  method SubmitSaved(store: JSONStore, c: Runtime, twoStep: bool, inv: Invocation, sha: Hash)
    returns (ok: bool, ghost journal: seq<Entry>)
    requires Load(store.fs.dirs, PENDING) == Ok(Some(ReadBack(c))) && inv.pre.after && c.upstream.addr != ""
    modifies store, store.fs
    ensures journal == CommitTail(twoStep, c, inv, sha)
    ensures ok == TailSucceeds(old(store.View()), twoStep, c, inv, sha)
    ensures store.View() == Stored(old(store.View()), journal)
  {
    ghost var s1 := store.View();
    var out;
    out, journal := Execute(store, SubmissionOf(c, inv.base), inv.ps.portOf, inv.o, sha, inv.link);
    assert journal == if Submits(c, inv).Ok? then SubmissionRun(c, inv, sha).0 else [];
    if out.None? || !twoStep {
      assert journal == journal + CommitEntry(twoStep, out);
      return out.Some?, journal;
    }
    SavedLast(s1, Some(ReadBack(c)), Submits(c, inv).value, inv.o, sha, inv.link);
    ok, journal := MovePending(store, out.value, s1, journal);
  }

  method MovePending(store: JSONStore, ghost out: Runtime, ghost s1: State, ghost before: seq<Entry>)
    returns (ok: bool, ghost journal: seq<Entry>)
    requires Load(store.fs.dirs, PENDING) == Ok(Some(ReadBack(out))) && store.View() == Stored(s1, before)
    modifies store, store.fs
    ensures journal == before + CommitEntry(true, Some(out))
    ensures ok == CommitPending(old(store.View()), ReadBack(out)).1.None?
    ensures store.View() == Stored(s1, journal)
  {
    var updated := store.LoadPendingRuntime();
    StoredSnoc(s1, before, Complete(CommitPendingOp(ReadBack(out))));
    journal := before + [Complete(CommitPendingOp(ReadBack(out)))];
    var failed := store.CommitPendingRuntime(updated.value.value);
    ok := failed.None?;
  }
}
