// src/upload.rs:27-96: rename the local files, upload them, and on failure undo
// the remote changes and then the renames.
module UploadWorkflow {
  import opened Wrappers
  import opened Errors
  import opened ObjectStore
  import opened StorageClient
  import opened NormalizationPlan
  import opened AtomicRename
  import opened LocalRenames
  import opened Uploads

  function RenamesOf(entries: seq<Entry>, path: string -> LocalPath): seq<Rename> {
    seq(|entries|, i requires 0 <= i < |entries| => Rename(path(entries[i].source), path(entries[i].target)))
  }

  function LocalPlan(names: seq<string>, nfc: string -> string, path: string -> LocalPath): seq<Rename> {
    RenamesOf(EntriesFor(names, nfc), path)
  }

  predicate Resolves(disk: Disk, at: Entries, path: LocalPath) {
    disk.Locate(at, path).Some?
  }

  // The strings that the workflow turns into paths.
  ghost predicate Spelled(names: seq<string>, nfc: string -> string, text: string) {
    exists i :: 0 <= i < |names| && (text == names[i] || text == nfc(names[i]))
  }

  // What discovery establishes: the names are the regular files found, and names
  // that differ by more than normalization are not told apart by normalization
  // alone. A name and its normal form may well be one entry, as they are on a disk
  // that folds spellings. Nothing is said of other strings, nor of what else is on
  // the disk.
  ghost predicate Surveyed(disk: Disk, at: Entries, names: seq<string>, nfc: string -> string, path: string -> LocalPath) {
    && (forall i {:trigger names[i]} :: 0 <= i < |names| ==> Found(disk, at, path(names[i])))
    && (forall a, b {:trigger path(a), path(b)} :: Spelled(names, nfc, a) && Spelled(names, nfc, b) && nfc(a) != nfc(b) ==>
          Elsewhere(disk, at, path(a), path(b)))
  }

  predicate Found(disk: Disk, at: Entries, path: LocalPath) {
    Resolves(disk, at, path) && disk.Locate(at, path).value in at && disk.kind(at[disk.Locate(at, path).value]) == RegularFile
  }

  // In different directories, or under names with different normal forms.
  predicate Elsewhere(disk: Disk, at: Entries, a: LocalPath, b: LocalPath) {
    Resolves(disk, at, a) && Resolves(disk, at, b) ==>
      !Spells(disk, disk.Locate(at, a).value, disk.Locate(at, b).value.directory, disk.nfc(FileName(b)))
  }

  lemma ElsewhereIsApart(disk: Disk, at: Entries, a: LocalPath, b: LocalPath)
    requires disk.Valid() && Elsewhere(disk, at, a, b) && Resolves(disk, at, a) && Resolves(disk, at, b)
    ensures disk.Locate(at, a) != disk.Locate(at, b)
  {
    assert disk.nfc(disk.fold(FileName(b))) == disk.nfc(FileName(b));
  }

  // The renames can be carried out: the places of the normal forms exist and hold
  // at most listed files, or the file itself under its only spelling, and the
  // captured identities are still there.
  ghost predicate Cleared(disk: Disk, context: RenameContext, at: Entries, names: seq<string>, nfc: string -> string,
                          path: string -> LocalPath) {
    forall i {:trigger names[i]} :: 0 <= i < |names| && path(names[i]) != path(nfc(names[i])) ==>
      Open(disk, context, at, names, names[i], nfc, path)
  }

  ghost predicate Open(disk: Disk, context: RenameContext, at: Entries, names: seq<string>, name: string,
                       nfc: string -> string, path: string -> LocalPath) {
    var source, target := path(name), path(nfc(name));
    && Resolves(disk, at, source) && Resolves(disk, at, target)
    && var from, to := disk.Locate(at, source).value, disk.Locate(at, target).value;
       && disk.Verified(at, Identity(context, source, target, source), from, to)
       && (from != to && to in at ==> nfc(name) in names)
       && (from == to ==> |Spellings(at, disk.nfc, to.directory, disk.nfc(FileName(target)))| == 1)
  }

  // No two entries of an accepted plan meet, wherever they lead.
  lemma SlotsApart(disk: Disk, at: Entries, names: seq<string>, nfc: string -> string, path: string -> LocalPath, i: nat, j: nat)
    requires Idempotent(nfc) && CollisionFree(names, nfc) && Surveyed(disk, at, names, nfc, path)
    requires i < |names| && j < |names| && i != j
    ensures Elsewhere(disk, at, path(names[i]), path(names[j]))
    ensures Elsewhere(disk, at, path(names[i]), path(nfc(names[j])))
    ensures Elsewhere(disk, at, path(nfc(names[i])), path(names[j]))
    ensures Elsewhere(disk, at, path(nfc(names[i])), path(nfc(names[j])))
  {
    var a, b, c, d := names[i], names[j], nfc(names[i]), nfc(names[j]);
    assert Spelled(names, nfc, a) && Spelled(names, nfc, b) && Spelled(names, nfc, c) && Spelled(names, nfc, d);
    assert c != d && nfc(c) == c && nfc(d) == d;
  }

  // Planning makes the renames independent of each other.
  lemma AcceptedPlansAreDetached(disk: Disk, context: RenameContext, at: Entries, names: seq<string>,
                                 nfc: string -> string, path: string -> LocalPath)
    requires disk.Valid() && Idempotent(nfc) && CollisionFree(names, nfc)
    requires Surveyed(disk, at, names, nfc, path) && Cleared(disk, context, at, names, nfc, path)
    ensures Detached(disk, context, at, LocalPlan(names, nfc, path))
    ensures Runnable(disk, context, at, LocalPlan(names, nfc, path))
  {
    var plan := LocalPlan(names, nfc, path);
    forall i | 0 <= i < |plan| ensures Possible(disk, context, at, plan[i]) {
      assert Found(disk, at, path(names[i]));
      if !Idle(disk, at, plan[i]) {
        assert Open(disk, context, at, names, names[i], nfc, path);
        TargetIsEmpty(disk, context, at, names, nfc, path, i);
      }
    }
    forall i, j | 0 <= i < j < |plan| ensures Separate(disk, at, plan[i], plan[j]) {
      if !Idle(disk, at, plan[i]) && !Idle(disk, at, plan[j]) {
        assert Possible(disk, context, at, plan[i]) && Possible(disk, context, at, plan[j]);
        PlannedApart(disk, at, names, nfc, path, plan, i, j);
      }
    }
    AcceptedPlansAreSettled(disk, context, at, names, nfc, path, plan);
    DetachedIsRunnable(disk, context, at, plan);
  }

  lemma PlannedApart(disk: Disk, at: Entries, names: seq<string>, nfc: string -> string, path: string -> LocalPath,
                     plan: seq<Rename>, i: nat, j: nat)
    requires disk.Valid() && Idempotent(nfc) && CollisionFree(names, nfc) && Surveyed(disk, at, names, nfc, path)
    requires plan == LocalPlan(names, nfc, path) && i < |plan| && j < |plan| && i != j
    requires Resolves(disk, at, plan[i].source) && Resolves(disk, at, plan[i].target)
    requires Resolves(disk, at, plan[j].source) && Resolves(disk, at, plan[j].target)
    ensures disk.Locate(at, plan[i].source) != disk.Locate(at, plan[j].source)
    ensures disk.Locate(at, plan[i].source) != disk.Locate(at, plan[j].target)
    ensures disk.Locate(at, plan[i].target) != disk.Locate(at, plan[j].source)
    ensures disk.Locate(at, plan[i].target) != disk.Locate(at, plan[j].target)
  {
    SlotsApart(disk, at, names, nfc, path, i, j);
    ElsewhereIsApart(disk, at, plan[i].source, plan[j].source);
    ElsewhereIsApart(disk, at, plan[i].source, plan[j].target);
    ElsewhereIsApart(disk, at, plan[i].target, plan[j].source);
    ElsewhereIsApart(disk, at, plan[i].target, plan[j].target);
  }

  lemma AcceptedPlansAreSettled(disk: Disk, context: RenameContext, at: Entries, names: seq<string>,
                                nfc: string -> string, path: string -> LocalPath, plan: seq<Rename>)
    requires Idempotent(nfc) && CollisionFree(names, nfc) && plan == LocalPlan(names, nfc, path)
    requires Surveyed(disk, at, names, nfc, path) && Cleared(disk, context, at, names, nfc, path)
    ensures Settled(disk, context, at, plan)
  {
    forall rename | rename in plan && rename.source != rename.target && OneEntry(disk, at, rename)
      ensures Merges(disk, context, at, rename)
      ensures Undisturbed(disk, at, plan, disk.Locate(at, rename.target).value.directory, disk.nfc(FileName(rename.target)))
    {
      var i :| 0 <= i < |plan| && plan[i] == rename;
      assert Found(disk, at, path(names[i]));
      assert Open(disk, context, at, names, names[i], nfc, path);
      NeighboursKeepOff(disk, at, names, nfc, path, plan, i);
    }
  }

  lemma NeighboursKeepOff(disk: Disk, at: Entries, names: seq<string>, nfc: string -> string, path: string -> LocalPath,
                          plan: seq<Rename>, i: nat)
    requires Idempotent(nfc) && CollisionFree(names, nfc) && Surveyed(disk, at, names, nfc, path)
    requires plan == LocalPlan(names, nfc, path) && i < |plan| && OneEntry(disk, at, plan[i])
    ensures Undisturbed(disk, at, plan, disk.Locate(at, plan[i].target).value.directory, disk.nfc(FileName(plan[i].target)))
  {
    var directory, normalized := disk.Locate(at, plan[i].target).value.directory, disk.nfc(FileName(plan[i].target));
    forall r | r in plan && !Idle(disk, at, r) && disk.Locate(at, r.source).Some? && disk.Locate(at, r.target).Some?
      ensures !Spells(disk, PairOf(disk, at, r).from, directory, normalized)
      ensures !Spells(disk, PairOf(disk, at, r).to, directory, normalized)
    {
      var j :| 0 <= j < |plan| && plan[j] == r;
      assert j != i;
      SlotsApart(disk, at, names, nfc, path, j, i);
    }
  }

  lemma TargetIsEmpty(disk: Disk, context: RenameContext, at: Entries, names: seq<string>,
                      nfc: string -> string, path: string -> LocalPath, i: nat)
    requires Idempotent(nfc) && CollisionFree(names, nfc) && i < |names|
    requires Open(disk, context, at, names, names[i], nfc, path) && path(names[i]) != path(nfc(names[i]))
    requires disk.Locate(at, path(names[i])) != disk.Locate(at, path(nfc(names[i])))
    ensures disk.Locate(at, path(nfc(names[i]))).value !in at
  {
    forall j | 0 <= j < |names| ensures nfc(names[i]) != names[j] {
      ChangedTargetsAreNew(names, nfc, i, j);
    }
  }

  lemma SurveyedAreFiles(disk: Disk, at: Entries, names: seq<string>, nfc: string -> string, path: string -> LocalPath)
    requires Surveyed(disk, at, names, nfc, path)
    ensures FilesPlanned(disk, at, LocalPlan(names, nfc, path))
  {
    var plan := LocalPlan(names, nfc, path);
    forall k | 0 <= k < |plan| ensures disk.kind(at[disk.Locate(at, plan[k].source).value]) != Directory
      ensures Found(disk, at, plan[k].source)
    {
      assert Found(disk, at, path(names[k]));
    }
  }

  // Renames that have all gone through were independent from the start, whatever
  // else is on the disk: an occupied place would have stopped them.
  lemma CompletedPlansAreDetached(disk: Disk, context: RenameContext, at: Entries, names: seq<string>,
                                  nfc: string -> string, path: string -> LocalPath)
    requires disk.Valid() && Idempotent(nfc) && CollisionFree(names, nfc) && Surveyed(disk, at, names, nfc, path)
    requires Ran(disk, context, at, LocalPlan(names, nfc, path))
    ensures Detached(disk, context, at, LocalPlan(names, nfc, path))
  {
    var plan := LocalPlan(names, nfc, path);
    CompletedSoFar(disk, context, at, names, nfc, path, plan, |names|);
    assert plan[..|names|] == plan;
  }

  lemma {:induction false} CompletedSoFar(disk: Disk, context: RenameContext, at: Entries, names: seq<string>,
                                          nfc: string -> string, path: string -> LocalPath, plan: seq<Rename>, k: nat)
    requires disk.Valid() && Idempotent(nfc) && CollisionFree(names, nfc) && Surveyed(disk, at, names, nfc, path)
    requires plan == LocalPlan(names, nfc, path) && k <= |plan| && Ran(disk, context, at, plan)
    ensures Detached(disk, context, at, plan[..k])
  {
    if k > 0 {
      CompletedSoFar(disk, context, at, names, nfc, path, plan, k - 1);
      CompletedOneMore(disk, context, at, names, nfc, path, plan, k - 1);
    }
  }

  lemma CompletedOneMore(disk: Disk, context: RenameContext, at: Entries, names: seq<string>,
                         nfc: string -> string, path: string -> LocalPath, plan: seq<Rename>, k: nat)
    requires disk.Valid() && Idempotent(nfc) && CollisionFree(names, nfc) && Surveyed(disk, at, names, nfc, path)
    requires plan == LocalPlan(names, nfc, path) && k < |plan| && Ran(disk, context, at, plan)
    requires Detached(disk, context, at, plan[..k])
    ensures Detached(disk, context, at, plan[..k + 1])
  {
    if !Idle(disk, at, plan[k]) {
      CompletedIsPossible(disk, context, at, names, nfc, path, plan, k);
    }
    assert Possible(disk, context, at, plan[k]);
    forall i | 0 <= i < k ensures Separate(disk, at, plan[i], plan[k]) {
      if !Idle(disk, at, plan[i]) && !Idle(disk, at, plan[k]) {
        assert plan[..k][i] == plan[i];
        assert Possible(disk, context, at, plan[i]);
        PlannedApart(disk, at, names, nfc, path, plan, i, k);
      }
    }
    DetachedOneMore(disk, context, at, plan, k);
  }

  lemma CompletedIsPossible(disk: Disk, context: RenameContext, at: Entries, names: seq<string>,
                            nfc: string -> string, path: string -> LocalPath, plan: seq<Rename>, k: nat)
    requires disk.Valid() && Idempotent(nfc) && CollisionFree(names, nfc) && Surveyed(disk, at, names, nfc, path)
    requires plan == LocalPlan(names, nfc, path) && k < |plan| && Ran(disk, context, at, plan)
    requires Detached(disk, context, at, plan[..k]) && !Idle(disk, at, plan[k])
    ensures Possible(disk, context, at, plan[k])
  {
    assert Found(disk, at, path(names[k]));
    assert PassedAt(disk, context, at, plan, k);
    if Resolves(disk, at, plan[k].target) { EarlierKeepOff(disk, context, at, names, nfc, path, plan, k); }
    RootUntouched(disk, context, at, plan[..k]);
    LaterIsPossible(disk, context, at, plan, k);
  }

  lemma LaterIsPossible(disk: Disk, context: RenameContext, at: Entries, plan: seq<Rename>, k: nat)
    requires k < |plan| && Detached(disk, context, at, plan[..k]) && !Idle(disk, at, plan[k])
    requires PassedAt(disk, context, at, plan, k) && Found(disk, at, plan[k].source)
    requires var pairs := Pairs(disk, context, at, plan[..k]);
      && !Touched(pairs, disk.rootSlot)
      && (Resolves(disk, at, plan[k].target) ==>
            !Touched(pairs, disk.Locate(at, plan[k].source).value) && !Touched(pairs, disk.Locate(at, plan[k].target).value))
    ensures Possible(disk, context, at, plan[k])
  {
    var states := DetachedTrace(disk, context, at, plan[..k]);
    var now := states[k];
    assert disk.Locate(now, plan[k].source) == disk.Locate(at, plan[k].source);
    assert disk.Locate(now, plan[k].target) == disk.Locate(at, plan[k].target);
    assert now == Sequential(disk, at, plan[..k]);
    PossibleAllAlong(disk, context, at, now, Pairs(disk, context, at, plan[..k]), plan[k]);
  }

  // What can be renamed now, away from all that was renamed, could be from the start.
  lemma PossibleAllAlong(disk: Disk, context: RenameContext, at: Entries, now: Entries, pairs: set<Pair>, rename: Rename)
    requires Simultaneous(at, now, pairs) && !Touched(pairs, disk.rootSlot)
    requires Found(disk, at, rename.source) && Resolves(disk, at, rename.target) && !Idle(disk, at, rename)
    requires disk.Locate(now, rename.source) == disk.Locate(at, rename.source)
    requires disk.Locate(now, rename.target) == disk.Locate(at, rename.target)
    requires !Touched(pairs, disk.Locate(at, rename.source).value) && !Touched(pairs, disk.Locate(at, rename.target).value)
    requires Passed(disk, context, now, rename)
    ensures Possible(disk, context, at, rename)
  {
  }

  lemma EarlierKeepOff(disk: Disk, context: RenameContext, at: Entries, names: seq<string>,
                       nfc: string -> string, path: string -> LocalPath, plan: seq<Rename>, k: nat)
    requires disk.Valid() && Idempotent(nfc) && CollisionFree(names, nfc) && Surveyed(disk, at, names, nfc, path)
    requires plan == LocalPlan(names, nfc, path) && k < |plan| && Detached(disk, context, at, plan[..k])
    requires Resolves(disk, at, plan[k].source) && Resolves(disk, at, plan[k].target)
    ensures var pairs := Pairs(disk, context, at, plan[..k]);
      && !Touched(pairs, disk.Locate(at, plan[k].source).value)
      && !Touched(pairs, disk.Locate(at, plan[k].target).value)
  {
    var from, to := disk.Locate(at, plan[k].source).value, disk.Locate(at, plan[k].target).value;
    forall r | r in plan[..k] && !Idle(disk, at, r)
      ensures Possible(disk, context, at, r)
      ensures var pair := PairOf(disk, at, r); pair.from != from && pair.from != to && pair.to != from && pair.to != to
    {
      var j :| 0 <= j < k && plan[j] == r;
      assert Possible(disk, context, at, r);
      PlannedApart(disk, at, names, nfc, path, plan, j, k);
    }
  }

  // The workflow under its bucket locks. A plain error means that the disk is as
  // before and, unless the schedule made an exception, the buckets too; success
  // means that both phases are complete.
  method RunLocked(api: StorageApi, disk: Disk, context: RenameContext, names: seq<string>, nfc: string -> string,
                   path: string -> LocalPath, uploads: seq<PlannedUpload>, shuffled: seq<Rename>)
    returns (r: Result<(), AppError>)
    requires api.Valid() && disk.Valid() && FilesFit(uploads) && PrivateStaging(uploads, api.live)
    requires Shuffled(LocalPlan(names, nfc, path), shuffled)
    modifies api, disk
    ensures api.Progress() && disk.Progress()
    ensures r.Ok? ==> CollisionFree(names, nfc)
    ensures api.Exclusive() && r.Ok? ==> Published(old(api.live), api.live, uploads)
    ensures api.Exclusive() && r.Err? && !NeedsRecovery(r.error) ==>
      (api.live == old(api.live) <==> !api.StrandedHere() && !api.OrphanedHere())
    ensures disk.Quiet() && Prepared(disk, old(disk.entries), names, nfc, path) ==>
      && (r.Ok? ==> disk.entries == Sequential(disk, old(disk.entries), LocalPlan(names, nfc, path)))
      && (r.Err? && !NeedsRecovery(r.error) ==> disk.entries == old(disk.entries))
    ensures disk.Quiet() && Prepared(disk, old(disk.entries), names, nfc, path) && CollisionFree(names, nfc) ==>
      Cleared(disk, context, old(disk.entries), names, nfc, path) && api.Exclusive() && Publishable(uploads, old(api.live)) && old(api.Calm()) && old(disk.Calm()) ==> r.Ok?
    ensures disk.Quiet() && Prepared(disk, old(disk.entries), names, nfc, path) && old(disk.Working()) ==>
      NoneMerged(disk, old(disk.entries), LocalPlan(names, nfc, path)) && r.Err? ==> disk.entries == old(disk.entries)
    ensures api.Exclusive() && OneSignal(api.turns) && !old(api.interrupted) && Publishable(uploads, old(api.live)) ==>
      r.Ok? || api.live == old(api.live)
  {
    var renames := RenameLocally(disk, context, names, nfc, path);
    if renames.Err? {
      return Err(renames.error);
    }
    r := UploadOrUndo(api, disk, context, renames.value, uploads, shuffled, old(disk.entries));
  }

  // The local phase: plan and rename.
  method RenameLocally(disk: Disk, context: RenameContext, names: seq<string>, nfc: string -> string, path: string -> LocalPath)
    returns (r: Result<seq<Rename>, AppError>)
    requires disk.Valid()
    modifies disk
    ensures disk.Progress()
    ensures r.Ok? ==> CollisionFree(names, nfc) && r.value == LocalPlan(names, nfc, path)
    ensures disk.Quiet() && Prepared(disk, old(disk.entries), names, nfc, path) ==>
      && (r.Ok? ==> disk.entries == Sequential(disk, old(disk.entries), LocalPlan(names, nfc, path)))
      && (r.Ok? ==> Detached(disk, context, old(disk.entries), LocalPlan(names, nfc, path)))
      && (r.Err? && !NeedsRecovery(r.error) ==> disk.entries == old(disk.entries))
    ensures disk.Quiet() && Prepared(disk, old(disk.entries), names, nfc, path) && CollisionFree(names, nfc) ==>
      Cleared(disk, context, old(disk.entries), names, nfc, path) && old(disk.Calm()) ==> r.Ok?
    ensures disk.Quiet() && Prepared(disk, old(disk.entries), names, nfc, path) && old(disk.Working()) ==>
      r.Err? ==> disk.entries == old(disk.entries)
  {
    var plan := Build(names, nfc);
    if plan.Err? {
      return Err(plan.error);
    }
    var renames := RenamesOf(plan.value, path);
    ghost var prepared := Prepared(disk, disk.entries, names, nfc, path);
    if prepared {
      SurveyedAreFiles(disk, disk.entries, names, nfc, path);
      if Cleared(disk, context, disk.entries, names, nfc, path) {
        AcceptedPlansAreDetached(disk, context, disk.entries, names, nfc, path);
      }
    }
    var applied, _ := ApplyNormalization(disk, context, renames);
    if applied.Err? {
      return Err(applied.error);
    }
    if prepared && disk.Quiet() {
      CompletedPlansAreDetached(disk, context, old(disk.entries), names, nfc, path);
    }
    r := Ok(renames);
  }

  ghost predicate Prepared(disk: Disk, at: Entries, names: seq<string>, nfc: string -> string, path: string -> LocalPath) {
    Idempotent(nfc) && Surveyed(disk, at, names, nfc, path)
  }

  method UploadOrUndo(api: StorageApi, disk: Disk, context: RenameContext, ghost renames: seq<Rename>,
                      uploads: seq<PlannedUpload>, shuffled: seq<Rename>, ghost start: Entries)
    returns (r: Result<(), AppError>)
    requires api.Valid() && disk.Valid() && FilesFit(uploads) && PrivateStaging(uploads, api.live)
    requires Shuffled(renames, shuffled)
    modifies api, disk
    ensures api.Progress() && disk.Progress()
    ensures api.Exclusive() && r.Ok? ==> Published(old(api.live), api.live, uploads)
    ensures api.Exclusive() && r.Err? && !NeedsRecovery(r.error) ==>
      (api.live == old(api.live) <==> !api.StrandedHere() && !api.OrphanedHere())
    ensures r.Ok? ==> disk.entries == old(disk.entries)
    ensures disk.Quiet() && Detached(disk, context, start, renames) && old(disk.entries) == Sequential(disk, start, renames) ==>
      r.Err? && !NeedsRecovery(r.error) ==> disk.entries == start
    ensures old(api.Calm()) && api.Exclusive() && Publishable(uploads, old(api.live)) ==> r.Ok?
    ensures disk.Quiet() && Detached(disk, context, start, renames) && old(disk.entries) == Sequential(disk, start, renames) ==>
      NoneMerged(disk, start, renames) && old(disk.Working()) && r.Err? ==> disk.entries == start
    ensures api.Exclusive() && OneSignal(api.turns) && !old(api.interrupted) && Publishable(uploads, old(api.live)) ==>
      r.Ok? || api.live == old(api.live)
  {
    r := UploadPlannedFilesUnlocked(api, uploads);
    if r.Err? {
      var errors := RollbackInAnyOrder(disk, context, renames, shuffled, start);
      r := Err(WithRollback(r.error, errors));
    }
  }

  // ------------------------------------------------------------- an instance

  // A letter and its accent become one letter.
  function ComposedName(text: string): string {
    if text == "e'" then "e" else text
  }

  // A leading slash is skipped.
  function SlashedPath(text: string): LocalPath {
    LocalPath(true, [Normal(Unslashed(text))])
  }

  function Unslashed(text: string): string {
    if text == "/e'" then "e'" else text
  }

  function OnDisk(folds: bool): string {
    if folds then "e" else "e'"
  }

  function Example(folds: bool): Entries {
    map[Slot(0, "root") := 1, Slot(1, OnDisk(folds)) := 2, Slot(1, "docs") := 3, Slot(1, "notes") := 4]
  }

  // A disk that takes both spellings of a name for one, or that keeps them apart.
  ghost predicate IsExample(disk: Disk, folds: bool) {
    && disk.rootSlot == Slot(0, "root")
    && (forall inode :: disk.kind(inode) == if inode == 2 || inode == 4 then RegularFile else Directory)
    && (forall name :: disk.fold(name) == (if folds then ComposedName(name) else name) && disk.nfc(name) == ComposedName(name))
  }

  lemma ExampleHolds(folds: bool)
    ensures var at := Example(folds);
      && Slot(0, "root") in at && at[Slot(0, "root")] == 1
      && Slot(1, OnDisk(folds)) in at && at[Slot(1, OnDisk(folds))] == 2
      && Slot(1, "notes") in at && at[Slot(1, "notes")] == 4
      && (!folds ==> Slot(1, "e") !in at)
  {
    assert |"e"| == 1 && |"e'"| == 2 && |"docs"| == 4 && |"notes"| == 5;
  }

  lemma ExamplePlace(disk: Disk, folds: bool, text: string)
    requires IsExample(disk, folds)
    ensures disk.Locate(Example(folds), SlashedPath(text)) == Some(Slot(1, disk.fold(Unslashed(text))))
    ensures AtomicRename.WellFormed(SlashedPath(text)) && FileName(SlashedPath(text)) == Unslashed(text)
  {
    var one := SlashedPath(text).components;
    assert one[..0] == [];
    assert Names(one) == [Unslashed(text)];
    ExampleHolds(folds);
  }

  lemma OneSpellingOnly(disk: Disk)
    requires IsExample(disk, true)
    ensures |Spellings(Example(true), disk.nfc, 1, "e")| == 1
  {
    ExampleHolds(true);
    assert |"e"| == 1 && |"e'"| == 2 && |"docs"| == 4 && |"notes"| == 5;
    assert Spellings(Example(true), disk.nfc, 1, "e") == {Slot(1, "e")};
  }

  lemma ExampleIsOpen(disk: Disk, folds: bool)
    requires IsExample(disk, folds)
    ensures Open(disk, RenameContext(None, map[], map[]), Example(folds), ["e'", "notes"], "e'", ComposedName, SlashedPath)
  {
    var at, source, target := Example(folds), SlashedPath("e'"), SlashedPath("e");
    ExamplePlace(disk, folds, "e'");
    ExamplePlace(disk, folds, "e");
    ExampleHolds(folds);
    assert |"e"| == 1 && |"e'"| == 2;
    assert disk.Locate(at, source) == Some(Slot(1, OnDisk(folds))) && disk.Locate(at, target) == Some(Slot(1, "e"));
    if folds {
      OneSpellingOnly(disk);
      assert disk.nfc(FileName(target)) == "e";
    }
    OpenIfVerified(disk, at, source, target, "e'", "e", ["e'", "notes"]);
  }

  // Without captured identities nothing but the places matters.
  lemma OpenIfVerified(disk: Disk, at: Entries, source: LocalPath, target: LocalPath, name: string, normal: string, names: seq<string>)
    requires ComposedName(name) == normal && SlashedPath(name) == source && SlashedPath(normal) == target
    requires Resolves(disk, at, source) && Resolves(disk, at, target)
    requires var from, to := disk.Locate(at, source).value, disk.Locate(at, target).value;
      && (from != to ==> to !in at)
      && (from == to ==> |Spellings(at, disk.nfc, to.directory, disk.nfc(FileName(target)))| == 1)
    ensures Open(disk, RenameContext(None, map[], map[]), at, names, name, ComposedName, SlashedPath)
  {
  }

  lemma ExampleIsFound(disk: Disk, folds: bool)
    requires IsExample(disk, folds)
    ensures Found(disk, Example(folds), SlashedPath("e'")) && Found(disk, Example(folds), SlashedPath("notes"))
  {
    ExamplePlace(disk, folds, "e'");
    ExamplePlace(disk, folds, "notes");
    ExampleHolds(folds);
  }

  lemma ThreeSpellings(text: string)
    requires Spelled(["e'", "notes"], ComposedName, text)
    ensures text == "e'" || text == "e" || text == "notes"
  {
  }

  lemma ExampleIsApart(disk: Disk, folds: bool, a: string, b: string)
    requires IsExample(disk, folds) && ComposedName(a) != ComposedName(b)
    requires Spelled(["e'", "notes"], ComposedName, a) && Spelled(["e'", "notes"], ComposedName, b)
    ensures Elsewhere(disk, Example(folds), SlashedPath(a), SlashedPath(b))
  {
    ThreeSpellings(a);
    ThreeSpellings(b);
    ExamplePlace(disk, folds, a);
    ExamplePlace(disk, folds, b);
  }

  lemma ExampleIsSurveyed(disk: Disk, folds: bool)
    requires IsExample(disk, folds)
    ensures Surveyed(disk, Example(folds), ["e'", "notes"], ComposedName, SlashedPath)
  {
    ExampleIsFound(disk, folds);
    forall a, b | Spelled(["e'", "notes"], ComposedName, a) && Spelled(["e'", "notes"], ComposedName, b)
      && ComposedName(a) != ComposedName(b)
      ensures Elsewhere(disk, Example(folds), SlashedPath(a), SlashedPath(b))
    {
      ExampleIsApart(disk, folds, a, b);
    }
  }

  lemma ExampleIsCleared(disk: Disk, folds: bool)
    requires IsExample(disk, folds)
    ensures Cleared(disk, RenameContext(None, map[], map[]), Example(folds), ["e'", "notes"], ComposedName, SlashedPath)
  {
    ExampleIsOpen(disk, folds);
    assert ComposedName("notes") == "notes";
  }

  lemma ExampleIsAccepted()
    ensures Idempotent(ComposedName) && CollisionFree(["e'", "notes"], ComposedName) && ComposedName("e'") != "e'"
  {
    assert |"e"| == 1 && |"e'"| == 2 && |"notes"| == 5;
  }

  // What is asked of a survey can be had on disks of both kinds whose path syntax
  // has several spellings for one place, beside a directory that no listed name
  // leads to.
  lemma SurveyInstance(disk: Disk, folds: bool)
    requires IsExample(disk, folds)
    ensures Idempotent(ComposedName) && CollisionFree(["e'", "notes"], ComposedName) && ComposedName("e'") != "e'"
    ensures Surveyed(disk, Example(folds), ["e'", "notes"], ComposedName, SlashedPath)
    ensures Cleared(disk, RenameContext(None, map[], map[]), Example(folds), ["e'", "notes"], ComposedName, SlashedPath)
    ensures SlashedPath("/e'") == SlashedPath("e'")
    ensures OneEntry(disk, Example(folds), Rename(SlashedPath("e'"), SlashedPath("e"))) <==> folds
  {
    ExamplePlace(disk, folds, "e'");
    ExamplePlace(disk, folds, "e");
    ExampleIsSurveyed(disk, folds);
    ExampleIsCleared(disk, folds);
    ExampleIsAccepted();
  }
}
