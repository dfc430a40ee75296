// src/object_move.rs: one operation together with the confirmation that decides
// whether its failure is plain or needs an operator.
module ObjectMoves {
  import opened Wrappers
  import opened Errors
  import opened ObjectPaths
  import opened ObjectStore
  import opened StorageClient
  import opened ByteRanges
  import opened FileUploads

  // An error that promises that nothing happened, after a DELETE or the look-up
  // behind it was refused: the code takes it to mean that nothing was sent.
  predicate Unconfirmed<T>(r: Result<T, AppError>, stranded: bool) {
    r.Err? && !NeedsRecovery(r.error) && stranded
  }

  // A plain error promises that the objects are as before, possibly under a new
  // generation that the error carries, unless it is unconfirmed.
  predicate ExecuteEnds(before: Objects, after: Objects, a: ObjectPath, b: ObjectPath, expected: Option<nat>,
                        r: Result<nat, AppError>, unconfirmed: bool) {
    && Relocates(before, after, a, b)
    && match r
       case Ok(g) => Moved(before, after, a, b, g) && Matches(before, a, expected) && !unconfirmed
       case Err(e) =>
         if NeedsRecovery(e) then !unconfirmed
         else if unconfirmed then e.Http? && e.failure.connect && b !in before && b in after
         else if e.InterruptedAfterMoveRollback? then
           && a in before && b !in before && after == before[a := Version(e.restoredGeneration, before[a].content)]
         else after == before
  }

  // Two objects that a move can take and give, and no lock object among them.
  predicate Movable(objects: Objects, source: ObjectPath, target: ObjectPath) {
    source in objects && target !in objects && !StorageApi.Reserved(source) && !StorageApi.Reserved(target)
  }

  // A move that nothing but the schedule can keep from succeeding.
  predicate Undertaking(api: StorageApi, source: ObjectPath, target: ObjectPath, expected: Option<nat>)
    reads api
  {
    && !api.interrupted && CanMove(api.live, source, target, expected)
    && !StorageApi.Reserved(source) && !StorageApi.Reserved(target)
  }

  // Whether a plain error left the contents as they were is decided by the
  // schedule: it did, unless the DELETE or the look-up behind it was refused.
  method Execute(api: StorageApi, source: ObjectPath, target: ObjectPath, expected: Option<nat>)
    returns (r: Result<nat, AppError>)
    requires api.Valid()
    modifies api
    ensures api.Progress() && api.posts == old(api.posts)
    ensures r.Ok? ==> Matches(api.live, target, Some(r.value)) && !api.StrandedHere()
    ensures r.Ok? ==> (target, r.value) in api.earned && !StorageApi.Reserved(source) && !StorageApi.Reserved(target)
    ensures r.Err? && RestoredMoveGeneration(r.error).Some? ==>
      r.error.InterruptedAfterMoveRollback? && (source, r.error.restoredGeneration) in api.earned
    ensures api.Exclusive() ==> Trail(old(api.log), api.log, old(api.live), source, target)
    ensures api.Exclusive() ==>
      ExecuteEnds(old(api.live), api.live, source, target, expected, r, Unconfirmed(r, api.StrandedHere()))
    ensures api.Exclusive() && r.Err? && !NeedsRecovery(r.error) ==>
      (Contents(api.live) == Contents(old(api.live)) <==> !api.StrandedHere())
    ensures old(api.Calm()) && api.Exclusive() && Matches(old(api.live), source, expected) && target !in old(api.live)
      ==> !StorageApi.Reserved(source) && !StorageApi.Reserved(target) ==> r.Ok?
    ensures old(api.Clean()) && api.Exclusive() && expected.None? && Movable(old(api.live), source, target) ==>
      forall gone :: StrandsMove(api.turns, old(api.clock) + 1, gone) ==> LeftBehind(api.live, source, target, gone, r)
    ensures r.Ok? && !old(api.interrupted) ==> !api.interrupted
    ensures old(Undertaking(api, source, target, expected)) && api.Exclusive() && OneFlaw(api.turns) ==> r.Ok? || api.Past()
    ensures old(Undertaking(api, source, target, expected)) && api.Exclusive() && OneFlaw(api.turns) ==>
      UndoneSignal(api.turns, old(api.clock) + 1, expected) ==> r.Ok? || BackHome(old(api.live), api.live, source, r)
  {
    var check := api.InterruptCheck();
    if check.Err? {
      return Err(check.error);
    }
    r := ConfirmedMove(api, source, target, expected);
    if api.Exclusive() && r.Err? && !NeedsRecovery(r.error) {
      PlainErrorRestoresExactly(old(api.live), api.live, source, target, expected, r.error, api.StrandedHere());
    }
  }

  method ConfirmedMove(api: StorageApi, source: ObjectPath, target: ObjectPath, expected: Option<nat>)
    returns (r: Result<nat, AppError>)
    requires api.Valid()
    modifies api
    ensures api.Progress() && api.posts == old(api.posts)
    ensures r.Ok? ==> Matches(api.live, target, Some(r.value)) && !api.StrandedHere()
    ensures r.Ok? ==> (target, r.value) in api.earned && !StorageApi.Reserved(source) && !StorageApi.Reserved(target)
    ensures r.Err? && RestoredMoveGeneration(r.error).Some? ==>
      r.error.InterruptedAfterMoveRollback? && (source, r.error.restoredGeneration) in api.earned
    ensures api.Exclusive() ==> Trail(old(api.log), api.log, old(api.live), source, target)
    ensures api.Exclusive() ==>
      ExecuteEnds(old(api.live), api.live, source, target, expected, r, Unconfirmed(r, api.StrandedHere()))
    ensures old(api.Calm()) && api.Exclusive() && Matches(old(api.live), source, expected) && target !in old(api.live)
      ==> !StorageApi.Reserved(source) && !StorageApi.Reserved(target) ==> r.Ok?
    ensures !old(api.interrupted) && api.Exclusive() && expected.None? && Movable(old(api.live), source, target) ==>
      forall gone :: StrandsMove(api.turns, old(api.clock), gone) ==> LeftBehind(api.live, source, target, gone, r)
    ensures r.Ok? && !old(api.interrupted) ==> !api.interrupted
    ensures old(Undertaking(api, source, target, expected)) && api.Exclusive() && OneFlaw(api.turns) ==> r.Ok? || api.Past()
    ensures old(Undertaking(api, source, target, expected)) && api.Exclusive() && OneFlaw(api.turns) ==>
      UndoneSignal(api.turns, old(api.clock), expected) ==> r.Ok? || BackHome(old(api.live), api.live, source, r)
  {
    r := api.MoveObject(source, target, expected);
    if r.Err? {
      var failure := ConfirmFailure(api, source, target, r.error);
      r := Err(failure);
    }
  }

  // A failure that has said all there is to say is passed on; any other one must
  // be confirmed.
  method ConfirmFailure(api: StorageApi, source: ObjectPath, target: ObjectPath, operation: AppError) returns (failure: AppError)
    requires api.Valid()
    modifies api
    ensures api.Progress() && api.Looking()
    ensures api.Exclusive() ==> api.Unchanged()
    ensures failure == operation || failure == Recovery
    ensures RestoredMoveGeneration(operation).Some? || !MayHaveReachedStorage(operation) ==> failure == operation
    ensures MayHaveSentStorageRequest(operation) && RestoredMoveGeneration(operation).None? && !IsBucketLockConflict(operation)
      ==> failure == Recovery
    ensures api.Exclusive() && failure == operation && MayHaveReachedStorage(operation)
      ==> failure == Recovery || RestoredMoveGeneration(operation).Some? || IsBucketLockConflict(operation) || (source in api.live && target !in api.live)
  {
    if RestoredMoveGeneration(operation).Some? || IsBucketLockConflict(operation) {
      return operation;
    }
    if IsInterrupted(operation) {
      api.ClearInterruptForRollback();
    }
    var confirmed := api.ConfirmMoveAfterFailure(source, target, operation);
    failure := if confirmed.Err? then confirmed.error else operation;
  }

  predicate ExecuteUploadEnds(before: Objects, after: Objects, target: ObjectPath, file: Content,
                              r: Result<nat, AppError>, unconfirmed: bool) {
    && (after == before || StorageApi.Created(before, after, target, file))
    && match r
       case Ok(g) => StorageApi.Created(before, after, target, file) && after[target].generation == g && !unconfirmed
       case Err(e) =>
         && !e.InterruptedAfterMoveRollback?
         && if NeedsRecovery(e) then !unconfirmed
            else if unconfirmed then !MayHaveReachedStorage(e) && after != before
            else after == before
  }

  // The same for an upload: a plain error left no object behind, unless a request
  // that completed the upload was answered by silence to the end.
  method ExecuteUpload(api: StorageApi, target: ObjectPath, file: Content)
    returns (r: Result<nat, AppError>)
    requires api.Valid() && |file| <= U64_MAX
    modifies api
    ensures api.Progress() && api.deletions == old(api.deletions)
    ensures r.Ok? ==> (target, r.value) in api.earned && !api.OrphanedHere()
    ensures api.Exclusive() ==> api.OneStep()
    ensures api.Exclusive() ==>
      ExecuteUploadEnds(old(api.live), api.live, target, file, r, Unconfirmed(r, target !in old(api.live) && api.OrphanedHere()))
    ensures old(api.Calm()) && api.Exclusive() && target !in old(api.live) && !StorageApi.Reserved(target) ==> r.Ok?
    ensures old(api.Clean()) && OrphansUpload(api.turns, old(api.clock)) && !StorageApi.Reserved(target) ==>
      |file| < RESUMABLE_UPLOAD_THRESHOLD ==> r == Err(UploadSource) && api.OrphanedHere()
    ensures SignalOnce(api.turns) && !old(api.interrupted) && api.Exclusive() && target !in old(api.live) && !StorageApi.Reserved(target) ==>
      Told(api, r)
  {
    if SignalOnce(api.turns) { assert SmoothOrStruck(api.turns, api.clock); }
    var check := api.InterruptCheck();
    if check.Err? {
      return Err(check.error);
    }
    r := ConfirmedUpload(api, target, file);
  }

  method ConfirmedUpload(api: StorageApi, target: ObjectPath, file: Content)
    returns (r: Result<nat, AppError>)
    requires api.Valid() && |file| <= U64_MAX
    modifies api
    ensures api.Progress() && api.deletions == old(api.deletions)
    ensures r.Ok? ==> (target, r.value) in api.earned && !api.OrphanedHere()
    ensures api.Exclusive() ==> api.OneStep()
    ensures api.Exclusive() ==>
      ExecuteUploadEnds(old(api.live), api.live, target, file, r, Unconfirmed(r, target !in old(api.live) && api.OrphanedHere()))
    ensures old(api.Calm()) && api.Exclusive() && target !in old(api.live) && !StorageApi.Reserved(target) ==> r.Ok?
    ensures !old(api.interrupted) && api.turns(old(api.clock)).localRead.Readable? && Orphans(api.turns, old(api.clock) + 1) ==>
      |file| < RESUMABLE_UPLOAD_THRESHOLD && !StorageApi.Reserved(target) ==> r == Err(UploadSource) && api.OrphanedHere()
    ensures SignalOnce(api.turns) && !old(api.interrupted) && api.Exclusive() && target !in old(api.live) && !StorageApi.Reserved(target) ==>
      Told(api, r)
  {
    r := UploadFileWithRetries(api, target, file);
    if r.Err? {
      var failure := ConfirmUploadFailure(api, target, r.error);
      r := Err(failure);
    }
  }

  method ConfirmUploadFailure(api: StorageApi, target: ObjectPath, operation: AppError) returns (failure: AppError)
    requires api.Valid()
    modifies api
    ensures api.Progress() && api.Looking()
    ensures api.Exclusive() ==> api.Unchanged()
    ensures failure == operation || failure == Recovery
    ensures IsBucketLockConflict(operation) || !MayHaveReachedStorage(operation) ==> failure == operation
    ensures MayHaveSentStorageRequest(operation) && !IsBucketLockConflict(operation) ==> failure == Recovery
    ensures failure == operation && MayHaveReachedStorage(operation) && !IsBucketLockConflict(operation)
      ==> failure == Recovery || target !in api.live
  {
    if IsBucketLockConflict(operation) {
      return operation;
    }
    if IsInterrupted(operation) {
      api.ClearInterruptForRollback();
    }
    var confirmed := api.ConfirmWriteAfterFailure(target, operation);
    failure := if confirmed.Err? then confirmed.error else operation;
  }

  predicate OrphansUpload(turns: nat -> Turn, c: nat) {
    turns(c + 1).localRead.Readable? && Orphans(turns, c + 2)
  }

  lemma PlainErrorRestoresExactly(before: Objects, after: Objects, a: ObjectPath, b: ObjectPath, expected: Option<nat>,
                                  e: AppError, unconfirmed: bool)
    requires ExecuteEnds(before, after, a, b, expected, Err(e), unconfirmed) && !NeedsRecovery(e)
    ensures Contents(after) == Contents(before) <==> !unconfirmed
  {
    if unconfirmed {
      assert b in Contents(after) && b !in Contents(before);
    }
  }

  // ---------------------------------------------------------------- exceptions

  // Both exceptions of a move occur: refuse the DELETE, and both copies stay;
  // refuse the look-up behind it, and the source has gone. Either way the error
  // claims that nothing was sent.
  method StrandedCopy(gone: bool) returns (api: StorageApi, source: ObjectPath, target: ObjectPath, r: Result<nat, AppError>)
    ensures fresh(api) && api.Valid() && api.Exclusive() && StrandsMove(api.turns, 1, gone)
    ensures Movable(api.initial, source, target) && Stranded(api.turns, api.deletions, 0)
    ensures r.Err? && !NeedsRecovery(r.error) && !MayHaveReachedStorage(r.error)
    ensures target in api.live && (source in api.live <==> !gone)
    ensures Contents(api.live) != Contents(api.initial)
  {
    source, target := ObjectPath("b", "n"), ObjectPath("b", "t");
    var refused := SMOOTH.(delivery := NotConnected(true, false, false));
    var at := if gone then 5 else 4;
    var turns: nat -> Turn := i => if i == at then refused else SMOOTH;
    api := new StorageApi(turns, map[source := Version(1, [])], 2);
    var c := api.clock;
    assert StrandsMove(api.turns, c + 1, gone);
    assert api.Clean() && api.Exclusive() && Movable(api.live, source, target);
    r := Execute(api, source, target, None);
    assert LeftBehind(api.live, source, target, gone, r);
    assert target in Contents(api.live) && target !in Contents(api.initial);
  }

  // The exception of an upload occurs: its only request takes effect without an
  // answer, and the source is unreadable when the second attempt begins.
  method OrphanedUpload() returns (api: StorageApi, target: ObjectPath, r: Result<nat, AppError>)
    ensures fresh(api) && api.Valid() && api.Exclusive() && OrphansUpload(api.turns, 0)
    ensures target !in api.initial && Orphaned(api.turns, api.posts, 0)
    ensures r.Err? && !NeedsRecovery(r.error) && !MayHaveReachedStorage(r.error)
    ensures target in api.live
  {
    target := ObjectPath("b", "t");
    var lost := SMOOTH.(delivery := Lost(true, BrokenExchange(true, false, false)));
    var unreadable := SMOOTH.(localRead := Unreadable);
    var turns: nat -> Turn := i => if i == 4 then lost else if i == 5 then unreadable else SMOOTH;
    api := new StorageApi(turns, map[], 1);
    r := ExecuteUpload(api, target, []);
  }
}
