// src/upload.rs:321-410 and 485-500: upload everything to private staging names,
// publish, and remove whatever was uploaded when a step fails.
module Uploads {
  import opened Wrappers
  import opened Errors
  import opened ObjectPaths
  import opened ObjectStore
  import opened StorageClient
  import opened ByteRanges
  import opened ObjectMoves
  import opened Transactions

  datatype PlannedUpload = PlannedUpload(file: Content, staging: ObjectPath, target: ObjectPath)

  // Staging names carry a prefix of this run only.
  predicate PrivateStaging(plan: seq<PlannedUpload>, initial: Objects) {
    && (forall i :: 0 <= i < |plan| ==> plan[i].staging !in initial)
    && forall i, j {:trigger StagingApart(plan, i, j)} :: 0 <= i < |plan| && 0 <= j < |plan| ==> StagingApart(plan, i, j)
  }

  predicate StagingApart(plan: seq<PlannedUpload>, i: nat, j: nat)
    requires i < |plan| && j < |plan|
  {
    plan[i].staging != plan[j].target && (i != j ==> plan[i].staging != plan[j].staging)
  }

  // Targets are free and claimed once.
  predicate Publishable(plan: seq<PlannedUpload>, initial: Objects) {
    && (forall i :: 0 <= i < |plan| ==>
          plan[i].target !in initial && !StorageApi.Reserved(plan[i].target) && !StorageApi.Reserved(plan[i].staging))
    && (forall i, j :: 0 <= i < j < |plan| ==> plan[i].target != plan[j].target)
  }

  predicate FilesFit(plan: seq<PlannedUpload>) {
    forall i :: 0 <= i < |plan| ==> |plan[i].file| <= U64_MAX
  }

  // The objects this run owns: published targets and still staged uploads.
  function Occupied(staged: seq<RemoteChange>, finalized: seq<RemoteChange>): set<ObjectPath>
    requires |finalized| <= |staged|
  {
    (set c | c in finalized :: c.target) + (set c | c in staged[|finalized|..] :: c.source)
  }

  ghost predicate FollowsPlan(plan: seq<PlannedUpload>, staged: seq<RemoteChange>, finalized: seq<RemoteChange>) {
    && |finalized| <= |staged| <= |plan|
    && (forall i :: 0 <= i < |staged| ==> staged[i].source == plan[i].staging && staged[i].target == plan[i].target)
    && (forall i :: 0 <= i < |finalized| ==> finalized[i].source == plan[i].staging && finalized[i].target == plan[i].target)
  }

  // Every owned object is live under its recorded generation with the bytes of
  // its file, and without them the objects are exactly the initial ones.
  ghost predicate Owned(initial: Objects, live: Objects, plan: seq<PlannedUpload>,
                        staged: seq<RemoteChange>, finalized: seq<RemoteChange>) {
    && FollowsPlan(plan, staged, finalized)
    && live - Occupied(staged, finalized) == initial
    && Occupied(staged, finalized) !! initial.Keys
    && (forall i :: 0 <= i < |finalized| ==>
          finalized[i].target in live && live[finalized[i].target] == Version(finalized[i].generation, plan[i].file))
    && (forall i :: |finalized| <= i < |staged| ==>
          staged[i].source in live && live[staged[i].source] == Version(staged[i].generation, plan[i].file))
  }

  // At every moment the initial objects are all there, and nothing outside the
  // plan's names has appeared.
  ghost predicate Untouched(initial: Objects, live: Objects, plan: seq<PlannedUpload>) {
    && (forall p :: p in initial ==> p in live && live[p] == initial[p])
    && (forall p :: p in live && p !in initial ==> exists i :: 0 <= i < |plan| && (p == plan[i].staging || p == plan[i].target))
  }

  ghost predicate UntouchedSince(log0: seq<Event>, log: seq<Event>, initial: Objects, plan: seq<PlannedUpload>) {
    log0 <= log && forall k :: |log0| <= k < |log| ==> Untouched(initial, log[k].after, plan)
  }

  // A change of staging i and target i only, neither of them an initial object.
  lemma UntouchedStep(initial: Objects, before: Objects, after: Objects, plan: seq<PlannedUpload>, i: nat)
    requires Untouched(initial, before, plan) && i < |plan|
    requires after - {plan[i].staging, plan[i].target} == before - {plan[i].staging, plan[i].target}
    requires plan[i].staging in initial ==> plan[i].staging in after && after[plan[i].staging] == initial[plan[i].staging]
    requires plan[i].target in initial ==> plan[i].target in after && after[plan[i].target] == initial[plan[i].target]
    ensures Untouched(initial, after, plan)
  {
    var names := {plan[i].staging, plan[i].target};
    forall p | p !in names ensures (p in after <==> p in before) && (p in after ==> after[p] == before[p]) {
      assert p in after - names <==> p in before - names;
      if p in after { assert (after - names)[p] == after[p]; assert (before - names)[p] == before[p]; }
    }
  }

  lemma RelocatesUntouched(initial: Objects, before: Objects, after: Objects, plan: seq<PlannedUpload>, i: nat,
                           a: ObjectPath, b: ObjectPath)
    requires Untouched(initial, before, plan) && i < |plan| && Relocates(before, after, a, b)
    requires {a, b} == {plan[i].staging, plan[i].target} && a !in initial
    ensures Untouched(initial, after, plan)
  {
    if a in before && b !in before {
      assert b !in initial;
      UntouchedStep(initial, before, after, plan, i);
    }
  }

  lemma TrailUntouched(log0: seq<Event>, log1: seq<Event>, log2: seq<Event>, initial: Objects, before: Objects,
                       plan: seq<PlannedUpload>, i: nat, a: ObjectPath, b: ObjectPath)
    requires UntouchedSince(log0, log1, initial, plan) && Untouched(initial, before, plan)
    requires i < |plan| && {a, b} == {plan[i].staging, plan[i].target} && a !in initial
    requires Trail(log1, log2, before, a, b)
    ensures UntouchedSince(log0, log2, initial, plan)
  {
    forall k | |log0| <= k < |log2| ensures Untouched(initial, log2[k].after, plan) {
      if k < |log1| { assert log2[k] == log1[k]; }
      else { RelocatesUntouched(initial, before, log2[k].after, plan, i, a, b); }
    }
  }

  lemma StepUntouched(log0: seq<Event>, log1: seq<Event>, log2: seq<Event>, initial: Objects, after: Objects, plan: seq<PlannedUpload>)
    requires UntouchedSince(log0, log1, initial, plan) && Untouched(initial, after, plan)
    requires log1 <= log2 && |log2| <= |log1| + 1 && WellFormed(log2, after)
    ensures UntouchedSince(log0, log2, initial, plan)
  {
    forall k | |log0| <= k < |log2| ensures Untouched(initial, log2[k].after, plan) {
      if k < |log1| { assert log2[k] == log1[k]; }
    }
  }

  lemma OwnedStage(initial: Objects, before: Objects, after: Objects, plan: seq<PlannedUpload>, staged: seq<RemoteChange>, g: nat)
    requires Owned(initial, before, plan, staged, []) && |staged| < |plan|
    requires var u := plan[|staged|];
      u.staging !in before && after == before[u.staging := Version(g, u.file)]
    ensures Owned(initial, after, plan, staged + [RemoteChange(plan[|staged|].staging, plan[|staged|].target, g)], [])
  {
    var c := RemoteChange(plan[|staged|].staging, plan[|staged|].target, g);
    var none: seq<RemoteChange> := [];
    assert (staged + [c])[|none|..] == staged[|none|..] + [c];
    assert Occupied(staged + [c], none) == Occupied(staged, none) + {c.source};
    assert c.source !in Occupied(staged, none) by {
      assert forall d :: d in staged[|none|..] ==> d.source in before;
    }
    assert c.source !in initial;
  }

  // Publishing turns staged entry k into finalized entry k.
  lemma OwnedPublish(initial: Objects, before: Objects, after: Objects, plan: seq<PlannedUpload>,
                     staged: seq<RemoteChange>, finalized: seq<RemoteChange>, g: nat)
    requires Owned(initial, before, plan, staged, finalized) && |finalized| < |staged|
    requires PrivateStaging(plan, initial)
    requires Moved(before, after, plan[|finalized|].staging, plan[|finalized|].target, g)
    ensures Owned(initial, after, plan, staged, finalized + [RemoteChange(plan[|finalized|].staging, plan[|finalized|].target, g)])
  {
    var k := |finalized|;
    var c := RemoteChange(plan[k].staging, plan[k].target, g);
    OccupiedPublish(plan, staged, finalized, initial, c);
    assert staged[k] in staged[k..];
    var was, now := Occupied(staged, finalized), Occupied(staged, finalized + [c]);
    MovedWithin(initial, before, after, was, now, plan[k].staging, plan[k].target, g);
    OthersOwned(initial, before, after, plan, staged, finalized, g);
  }

  // Publishing entry k leaves the other owned versions as they are.
  lemma OthersOwned(initial: Objects, before: Objects, after: Objects, plan: seq<PlannedUpload>,
                    staged: seq<RemoteChange>, finalized: seq<RemoteChange>, g: nat)
    requires Owned(initial, before, plan, staged, finalized) && |finalized| < |staged|
    requires PrivateStaging(plan, initial)
    requires Moved(before, after, plan[|finalized|].staging, plan[|finalized|].target, g)
    ensures forall i :: |finalized| < i < |staged| ==>
      staged[i].source in after && after[staged[i].source] == Version(staged[i].generation, plan[i].file)
    ensures forall i :: 0 <= i < |finalized| ==>
      finalized[i].target in after && after[finalized[i].target] == Version(finalized[i].generation, plan[i].file)
  {
    var k := |finalized|;
    forall i | k < i < |staged| ensures staged[i].source in after && after[staged[i].source] == before[staged[i].source] {
      assert StagingApart(plan, i, k);
    }
    forall i | 0 <= i < k ensures finalized[i].target in after && after[finalized[i].target] == before[finalized[i].target] {
      assert StagingApart(plan, k, i);
    }
  }

  lemma MovedWithin(initial: Objects, before: Objects, after: Objects, was: set<ObjectPath>, now: set<ObjectPath>,
                    a: ObjectPath, b: ObjectPath, g: nat)
    requires before - was == initial && Moved(before, after, a, b, g)
    requires a in was && now == was - {a} + {b} && was !! initial.Keys
    ensures after - now == initial && now !! initial.Keys
  {
    assert b in initial ==> b in before - was;
    assert forall p :: p in after - now <==> p in before - was;
    assert forall p :: p in after - now ==> (after - now)[p] == (before - was)[p];
  }

  lemma OccupiedPublish(plan: seq<PlannedUpload>, staged: seq<RemoteChange>, finalized: seq<RemoteChange>, initial: Objects, c: RemoteChange)
    requires FollowsPlan(plan, staged, finalized) && |finalized| < |staged| && PrivateStaging(plan, initial)
    requires c.source == plan[|finalized|].staging && c.target == plan[|finalized|].target
    ensures Occupied(staged, finalized + [c]) == Occupied(staged, finalized) - {c.source} + {c.target}
  {
    var k := |finalized|;
    assert staged[k..] == [staged[k]] + staged[k + 1..];
    forall i | k < i < |staged| ensures staged[i].source != c.source {
      assert StagingApart(plan, i, k);
    }
    forall d | d in staged[k + 1..] ensures d.source != c.source {
      var i :| 0 <= i < |staged[k + 1..]| && staged[k + 1..][i] == d;
      assert staged[k + 1 + i] == d;
    }
    forall d | d in finalized ensures d.target != c.source {
      var i :| 0 <= i < |finalized| && finalized[i] == d;
      assert StagingApart(plan, k, i);
    }
  }

  // An interrupted publication put the staged bytes back under a new generation.
  lemma OwnedRestored(initial: Objects, before: Objects, after: Objects, plan: seq<PlannedUpload>,
                      staged: seq<RemoteChange>, finalized: seq<RemoteChange>, g: nat)
    requires Owned(initial, before, plan, staged, finalized) && |finalized| < |staged| && PrivateStaging(plan, initial)
    requires plan[|finalized|].staging in before
    requires after == before[plan[|finalized|].staging := Version(g, before[plan[|finalized|].staging].content)]
    ensures Owned(initial, after, plan, staged[|finalized| := staged[|finalized|].(generation := g)], finalized)
  {
    var k := |finalized|;
    var changed := staged[k := staged[k].(generation := g)];
    OccupiedKeepsSources(staged, changed, finalized);
    assert staged[k] in staged[k..];
    forall i | k < i < |staged| ensures staged[i].source != plan[k].staging {
      assert StagingApart(plan, i, k);
    }
    forall i | 0 <= i < k ensures finalized[i].target != plan[k].staging {
      assert StagingApart(plan, k, i);
    }
  }

  lemma OccupiedKeepsSources(staged: seq<RemoteChange>, changed: seq<RemoteChange>, finalized: seq<RemoteChange>)
    requires |staged| == |changed| && |finalized| <= |staged|
    requires forall i :: 0 <= i < |staged| ==> changed[i].source == staged[i].source
    ensures Occupied(changed, finalized) == Occupied(staged, finalized)
  {
    var a, b := staged[|finalized|..], changed[|finalized|..];
    forall c | c in a ensures exists d :: d in b && d.source == c.source {
      var i :| 0 <= i < |a| && a[i] == c;
      assert b[i] in b;
    }
    forall c | c in b ensures exists d :: d in a && d.source == c.source {
      var i :| 0 <= i < |b| && b[i] == c;
      assert a[i] in a;
    }
  }

  // ------------------------------------------------------------------ phases

  // A single signal ends the run with an interruption that has been undone.
  ghost predicate Heard<T>(api: StorageApi, r: Result<T, AppError>)
    reads api
  {
    if r.Ok? then !api.interrupted else IsHome(r.error) && api.Over()
  }

  // An object this run left behind without a record.
  ghost predicate Stray(initial: Objects, live: Objects, staged: seq<RemoteChange>, finalized: seq<RemoteChange>) {
    |finalized| <= |staged| && exists b :: b in live && b !in initial && b !in Occupied(staged, finalized)
  }

  // The state when a phase gives up with error e: after a plain error the owned
  // objects are exactly recorded, unless an unconfirmed one is left beside them.
  ghost predicate Halted(initial: Objects, live: Objects, plan: seq<PlannedUpload>, staged: seq<RemoteChange>,
                         finalized: seq<RemoteChange>, e: AppError, unconfirmed: bool) {
    && FollowsPlan(plan, staged, finalized) && Untouched(initial, live, plan)
    && (forall i :: 0 <= i < |finalized| ==> finalized[i].target !in initial)
    && Stopped(initial, live, plan, staged, finalized, e, unconfirmed)
  }

  ghost predicate Stopped(initial: Objects, live: Objects, plan: seq<PlannedUpload>, staged: seq<RemoteChange>,
                          finalized: seq<RemoteChange>, e: AppError, unconfirmed: bool) {
    && (NeedsRecovery(e) ==> !unconfirmed)
    && (unconfirmed ==> Stray(initial, live, staged, finalized))
    && (!NeedsRecovery(e) && !unconfirmed ==> Owned(initial, live, plan, staged, finalized))
  }

  ghost predicate Progressing(initial: Objects, log0: seq<Event>, live: Objects, log: seq<Event>, plan: seq<PlannedUpload>,
                              staged: seq<RemoteChange>, finalized: seq<RemoteChange>) {
    && Owned(initial, live, plan, staged, finalized)
    && Untouched(initial, live, plan) && UntouchedSince(log0, log, initial, plan)
  }

  lemma PublishedAreNew(initial: Objects, live: Objects, plan: seq<PlannedUpload>, staged: seq<RemoteChange>, finalized: seq<RemoteChange>)
    requires Owned(initial, live, plan, staged, finalized)
    ensures forall i :: 0 <= i < |finalized| ==> finalized[i].target !in initial
  {
    forall i | 0 <= i < |finalized| ensures finalized[i].target !in initial {
      assert finalized[i] in finalized;
      assert finalized[i].target in Occupied(staged, finalized);
    }
  }

  lemma StageOutcome(initial: Objects, log0: seq<Event>, before: Objects, after: Objects, log1: seq<Event>, log2: seq<Event>,
                     plan: seq<PlannedUpload>, staged: seq<RemoteChange>, r: Result<nat, AppError>, unconfirmed: bool)
    requires Progressing(initial, log0, before, log1, plan, staged, []) && |staged| < |plan| && PrivateStaging(plan, initial)
    requires log1 <= log2 && |log2| <= |log1| + 1 && WellFormed(log2, after)
    requires ExecuteUploadEnds(before, after, plan[|staged|].staging, plan[|staged|].file, r, unconfirmed)
    ensures UntouchedSince(log0, log2, initial, plan)
    ensures r.Ok? ==> Progressing(initial, log0, after, log2, plan,
                                  staged + [RemoteChange(plan[|staged|].staging, plan[|staged|].target, r.value)], [])
    ensures r.Err? ==> Halted(initial, after, plan, staged, [], r.error, unconfirmed)
  {
    var u := plan[|staged|];
    var none: seq<RemoteChange> := [];
    assert Untouched(initial, after, plan) by {
      if after != before {
        assert after - {u.staging, u.target} == before - {u.staging, u.target};
        UntouchedStep(initial, before, after, plan, |staged|);
      }
    }
    StepUntouched(log0, log1, log2, initial, after, plan);
    if r.Ok? {
      OwnedStage(initial, before, after, plan, staged, r.value);
    } else if unconfirmed {
      OccupiedIsLive(initial, before, plan, staged, none);
      assert u.staging in after && u.staging !in initial && u.staging !in Occupied(staged, none);
    }
  }

  lemma OccupiedIsLive(initial: Objects, live: Objects, plan: seq<PlannedUpload>, staged: seq<RemoteChange>, finalized: seq<RemoteChange>)
    requires Owned(initial, live, plan, staged, finalized)
    ensures forall p :: p in Occupied(staged, finalized) ==> p in live
  {
    forall c | c in staged[|finalized|..] ensures c.source in live {
      var i :| 0 <= i < |staged[|finalized|..]| && staged[|finalized|..][i] == c;
      assert staged[|finalized| + i] == c;
    }
  }

  lemma PublishOutcome(initial: Objects, log0: seq<Event>, before: Objects, after: Objects, log1: seq<Event>, log2: seq<Event>,
                       plan: seq<PlannedUpload>, staged: seq<RemoteChange>, finalized: seq<RemoteChange>,
                       r: Result<nat, AppError>, unconfirmed: bool)
    requires Progressing(initial, log0, before, log1, plan, staged, finalized) && |finalized| < |staged|
    requires PrivateStaging(plan, initial)
    requires Trail(log1, log2, before, plan[|finalized|].staging, plan[|finalized|].target)
    requires ExecuteEnds(before, after, plan[|finalized|].staging, plan[|finalized|].target,
                         Some(staged[|finalized|].generation), r, unconfirmed)
    requires r.Err? && RestoredMoveGeneration(r.error).Some? ==> r.error.InterruptedAfterMoveRollback?
    ensures UntouchedSince(log0, log2, initial, plan)
    ensures r.Ok? ==> Progressing(initial, log0, after, log2, plan, staged,
                                  finalized + [RemoteChange(plan[|finalized|].staging, plan[|finalized|].target, r.value)])
    ensures r.Err? ==> Halted(initial, after, plan, Restored(staged, |finalized|, r.error), finalized, r.error, unconfirmed)
  {
    var k := |finalized|;
    var u := plan[k];
    RelocatesUntouched(initial, before, after, plan, k, u.staging, u.target);
    TrailUntouched(log0, log1, log2, initial, before, plan, k, u.staging, u.target);
    if r.Ok? {
      OwnedPublish(initial, before, after, plan, staged, finalized, r.value);
    } else {
      PublishedAreNew(initial, before, plan, staged, finalized);
      PlanRestored(plan, staged, finalized, r.error);
      PublishFailure(initial, before, after, plan, staged, finalized, r.error, unconfirmed);
    }
  }

  lemma PublishFailure(initial: Objects, before: Objects, after: Objects, plan: seq<PlannedUpload>,
                       staged: seq<RemoteChange>, finalized: seq<RemoteChange>, e: AppError, unconfirmed: bool)
    requires Owned(initial, before, plan, staged, finalized) && |finalized| < |staged| && PrivateStaging(plan, initial)
    requires ExecuteEnds(before, after, plan[|finalized|].staging, plan[|finalized|].target,
                         Some(staged[|finalized|].generation), Err(e), unconfirmed)
    requires RestoredMoveGeneration(e).Some? ==> e.InterruptedAfterMoveRollback?
    ensures Stopped(initial, after, plan, Restored(staged, |finalized|, e), finalized, e, unconfirmed)
  {
    if unconfirmed {
      StrayCopy(initial, before, after, plan, staged, finalized, Restored(staged, |finalized|, e), plan[|finalized|].target);
    } else if !NeedsRecovery(e) {
      if e.InterruptedAfterMoveRollback? {
        assert Restored(staged, |finalized|, e)
            == staged[|finalized| := staged[|finalized|].(generation := e.restoredGeneration)];
        OwnedRestored(initial, before, after, plan, staged, finalized, e.restoredGeneration);
      } else {
        assert Restored(staged, |finalized|, e) == staged;
      }
    }
  }

  lemma StrayCopy(initial: Objects, before: Objects, after: Objects, plan: seq<PlannedUpload>, staged: seq<RemoteChange>,
                  finalized: seq<RemoteChange>, now: seq<RemoteChange>, b: ObjectPath)
    requires Owned(initial, before, plan, staged, finalized) && |finalized| <= |staged| == |now|
    requires forall i :: 0 <= i < |staged| ==> now[i].source == staged[i].source
    requires b !in before && b in after
    ensures Stray(initial, after, now, finalized)
  {
    OccupiedKeepsSources(staged, now, finalized);
    OccupiedIsLive(initial, before, plan, staged, finalized);
    assert b !in initial by { assert b !in before - Occupied(staged, finalized); }
    assert b !in Occupied(now, finalized);
  }

  predicate SourcesEarned(changes: seq<RemoteChange>, earned: set<(ObjectPath, nat)>) {
    forall i :: 0 <= i < |changes| ==> (changes[i].source, changes[i].generation) in earned
  }

  lemma SourcesEarnedPush(changes: seq<RemoteChange>, earned: set<(ObjectPath, nat)>, change: RemoteChange)
    requires SourcesEarned(changes, earned) && (change.source, change.generation) in earned
    ensures SourcesEarned(changes + [change], earned)
  {
  }

  lemma PlanPush(plan: seq<PlannedUpload>, staged: seq<RemoteChange>, g: nat)
    requires FollowsPlan(plan, staged, []) && |staged| < |plan|
    ensures FollowsPlan(plan, staged + [RemoteChange(plan[|staged|].staging, plan[|staged|].target, g)], [])
  {
  }

  method StageUploads(api: StorageApi, tx: RemoteTransaction, plan: seq<PlannedUpload>)
    returns (r: Result<(), AppError>)
    requires api.Valid() && tx.staged == [] && tx.finalized == [] && FilesFit(plan)
    requires PrivateStaging(plan, api.live)
    modifies api, tx
    ensures api.Progress() && api.deletions == old(api.deletions) && SourcesEarned(tx.staged, api.earned) && tx.finalized == []
    ensures FollowsPlan(plan, tx.staged, [])
    ensures r.Ok? ==> |tx.staged| == |plan| && !api.OrphanedHere()
    ensures api.Exclusive() ==> UntouchedSince(old(api.log), api.log, old(api.live), plan)
    ensures api.Exclusive() && r.Ok? ==>
      Progressing(old(api.live), old(api.log), api.live, api.log, plan, tx.staged, [])
    ensures api.Exclusive() && r.Err? ==> Halted(old(api.live), api.live, plan, tx.staged, [], r.error, Unconfirmed(r, api.OrphanedHere()))
    ensures old(api.Calm()) && api.Exclusive() && Publishable(plan, old(api.live)) ==> r.Ok?
    ensures api.Exclusive() && OneSignal(api.turns) && !old(api.interrupted) && Publishable(plan, old(api.live)) ==> Heard(api, r)
  {
    ghost var none: seq<RemoteChange> := [];
    assert Occupied(none, none) == {};
    for k := 0 to |plan|
      invariant api.Progress() && api.deletions == old(api.deletions) && SourcesEarned(tx.staged, api.earned)
      invariant |tx.staged| == k && tx.finalized == [] && FollowsPlan(plan, tx.staged, []) && !api.OrphanedHere()
      invariant api.Exclusive() && OneSignal(api.turns) && !old(api.interrupted) && Publishable(plan, old(api.live)) ==> !api.interrupted
      invariant api.Exclusive() ==> Progressing(old(api.live), old(api.log), api.live, api.log, plan, tx.staged, [])
    {
      ghost var posts := api.posts;
      r := StageNext(api, tx, plan, old(api.live), old(api.log));
      OrphanedConcat(api.turns, posts, api.posts, |old(api.posts)|);
      if r.Err? {
        return;
      }
    }
    r := Ok(());
  }

  // One upload, its record, and the interrupt check behind it.
  method StageNext(api: StorageApi, tx: RemoteTransaction, plan: seq<PlannedUpload>, ghost initial: Objects, ghost log0: seq<Event>)
    returns (r: Result<(), AppError>)
    requires api.Valid() && |tx.staged| < |plan| && tx.finalized == [] && FilesFit(plan) && PrivateStaging(plan, initial)
    requires SourcesEarned(tx.staged, api.earned) && FollowsPlan(plan, tx.staged, [])
    requires api.Exclusive() ==> Progressing(initial, log0, api.live, api.log, plan, tx.staged, [])
    modifies api, tx
    ensures api.Progress() && api.deletions == old(api.deletions) && SourcesEarned(tx.staged, api.earned) && tx.finalized == []
    ensures FollowsPlan(plan, tx.staged, [])
    ensures r.Ok? ==> |tx.staged| == |old(tx.staged)| + 1 && !api.OrphanedHere()
    ensures api.Exclusive() ==> UntouchedSince(log0, api.log, initial, plan)
    ensures api.Exclusive() && r.Ok? ==> Progressing(initial, log0, api.live, api.log, plan, tx.staged, [])
    ensures api.Exclusive() && r.Err? ==> Halted(initial, api.live, plan, tx.staged, [], r.error, Unconfirmed(r, api.OrphanedHere()))
    ensures old(api.Calm()) && api.Exclusive() && Publishable(plan, initial) ==> r.Ok?
    ensures api.Exclusive() && OneSignal(api.turns) && !old(api.interrupted) && Publishable(plan, initial) ==> Heard(api, r)
  {
    var staged := tx.staged;
    var upload := plan[|staged|];
    var uploaded := StageOne(api, upload, plan, initial, log0, staged);
    if uploaded.Err? {
      return Err(uploaded.error);
    }
    PlanPush(plan, staged, uploaded.value);
    SourcesEarnedPush(staged, api.earned, RemoteChange(upload.staging, upload.target, uploaded.value));
    tx.Stage(RemoteChange(upload.staging, upload.target, uploaded.value));
    if OneSignal(api.turns) { OneSignalIsOnce(api.turns); assert SmoothOrStruck(api.turns, api.clock); }
    r := api.InterruptCheck();
  }

  method StageOne(api: StorageApi, upload: PlannedUpload, ghost plan: seq<PlannedUpload>, ghost initial: Objects,
                  ghost log0: seq<Event>, ghost staged: seq<RemoteChange>)
    returns (r: Result<nat, AppError>)
    requires api.Valid() && |staged| < |plan| && upload == plan[|staged|] && |upload.file| <= U64_MAX && PrivateStaging(plan, initial)
    requires api.Exclusive() ==> Progressing(initial, log0, api.live, api.log, plan, staged, [])
    modifies api
    ensures api.Progress() && api.deletions == old(api.deletions)
    ensures r.Ok? ==> (upload.staging, r.value) in api.earned && !api.OrphanedHere()
    ensures api.Exclusive() ==> UntouchedSince(log0, api.log, initial, plan)
    ensures api.Exclusive() && r.Ok? ==>
      Progressing(initial, log0, api.live, api.log, plan, staged + [RemoteChange(upload.staging, upload.target, r.value)], [])
    ensures api.Exclusive() && r.Err? ==> Halted(initial, api.live, plan, staged, [], r.error, Unconfirmed(r, api.OrphanedHere()))
    ensures old(api.Calm()) && api.Exclusive() && Publishable(plan, initial) ==> r.Ok?
    ensures api.Exclusive() && OneSignal(api.turns) && !old(api.interrupted) && Publishable(plan, initial) ==> Heard(api, r)
  {
    if api.Exclusive() { StagingIsFree(initial, api.live, plan, staged); }
    if OneSignal(api.turns) { OneSignalIsOnce(api.turns); }
    r := ExecuteUpload(api, upload.staging, upload.file);
    if api.Exclusive() {
      StageOutcome(initial, log0, old(api.live), api.live, old(api.log), api.log, plan, staged, r,
                   Unconfirmed(r, api.OrphanedHere()));
    }
  }

  lemma StagingIsFree(initial: Objects, live: Objects, plan: seq<PlannedUpload>, staged: seq<RemoteChange>)
    requires Owned(initial, live, plan, staged, []) && |staged| < |plan| && PrivateStaging(plan, initial)
    ensures plan[|staged|].staging !in live
  {
    var p := plan[|staged|].staging;
    forall c | c in staged[0..] ensures c.source != p {
      var i :| 0 <= i < |staged| && staged[i] == c;
      assert StagingApart(plan, i, |staged|);
    }
    var occupied := Occupied(staged, []);
    assert p !in occupied && live - occupied == initial;
    assert p in live ==> p in live - occupied;
  }

  lemma TargetIsFree(initial: Objects, live: Objects, plan: seq<PlannedUpload>, staged: seq<RemoteChange>, finalized: seq<RemoteChange>)
    requires Owned(initial, live, plan, staged, finalized) && |finalized| < |staged|
    requires PrivateStaging(plan, initial) && Publishable(plan, initial)
    ensures var c := staged[|finalized|]; Matches(live, c.source, Some(c.generation)) && c.target !in live
  {
    var k := |finalized|;
    var p := staged[k].target;
    forall c | c in finalized ensures c.target != p {
      var i :| 0 <= i < k && finalized[i] == c;
      assert plan[i].target != plan[k].target;
    }
    forall c | c in staged[k..] ensures c.source != p {
      var i :| 0 <= i < |staged[k..]| && staged[k..][i] == c;
      assert staged[k + i] == c;
      assert StagingApart(plan, k + i, k);
    }
    var occupied := Occupied(staged, finalized);
    assert p !in occupied && live - occupied == initial;
    assert p in live ==> p in live - occupied;
  }

  method PublishUploads(api: StorageApi, tx: RemoteTransaction, plan: seq<PlannedUpload>,
                        ghost initial: Objects, ghost log0: seq<Event>)
    returns (r: Result<(), AppError>)
    requires api.Valid() && PrivateStaging(plan, initial)
    requires |tx.staged| == |plan| && tx.finalized == [] && SourcesEarned(tx.staged, api.earned)
    requires FollowsPlan(plan, tx.staged, [])
    requires api.Exclusive() ==> Progressing(initial, log0, api.live, api.log, plan, tx.staged, [])
    modifies api, tx
    ensures api.Progress() && api.posts == old(api.posts) && SourcesEarned(tx.staged, api.earned) && AllEarned(tx.finalized, api.earned)
    ensures FollowsPlan(plan, tx.staged, tx.finalized)
    ensures r.Ok? ==> |tx.finalized| == |tx.staged| == |plan| && !api.StrandedHere()
    ensures api.Exclusive() ==> UntouchedSince(log0, api.log, initial, plan)
    ensures api.Exclusive() && r.Ok? ==> Progressing(initial, log0, api.live, api.log, plan, tx.staged, tx.finalized)
    ensures api.Exclusive() && r.Err? ==> Halted(initial, api.live, plan, tx.staged, tx.finalized, r.error, Unconfirmed(r, api.StrandedHere()))
    ensures old(api.Calm()) && api.Exclusive() && Publishable(plan, initial) ==> r.Ok?
    ensures api.Exclusive() && OneSignal(api.turns) && !old(api.interrupted) && Publishable(plan, initial) ==> Heard(api, r)
  {
    for index := 0 to |plan|
      invariant api.posts == old(api.posts) && !api.StrandedHere()
      invariant api.Progress() && SourcesEarned(tx.staged, api.earned) && AllEarned(tx.finalized, api.earned)
      invariant tx.staged == old(tx.staged) && |tx.finalized| == index && FollowsPlan(plan, tx.staged, tx.finalized)
      invariant api.Exclusive() && OneSignal(api.turns) && !old(api.interrupted) && Publishable(plan, initial) ==> !api.interrupted
      invariant api.Exclusive() ==> Progressing(initial, log0, api.live, api.log, plan, tx.staged, tx.finalized)
    {
      ghost var deletions := api.deletions;
      r := PublishNext(api, tx, plan, initial, log0);
      StrandedConcat(api.turns, deletions, api.deletions, |old(api.deletions)|);
      if r.Err? {
        return;
      }
    }
    r := Ok(());
  }

  // One publication, its record or the restored generation, and the interrupt
  // check behind it.
  method PublishNext(api: StorageApi, tx: RemoteTransaction, ghost plan: seq<PlannedUpload>,
                     ghost initial: Objects, ghost log0: seq<Event>)
    returns (r: Result<(), AppError>)
    requires api.Valid() && PrivateStaging(plan, initial) && |tx.finalized| < |tx.staged|
    requires SourcesEarned(tx.staged, api.earned) && AllEarned(tx.finalized, api.earned)
    requires FollowsPlan(plan, tx.staged, tx.finalized)
    requires api.Exclusive() ==> Progressing(initial, log0, api.live, api.log, plan, tx.staged, tx.finalized)
    modifies api, tx
    ensures api.Progress() && api.posts == old(api.posts) && SourcesEarned(tx.staged, api.earned) && AllEarned(tx.finalized, api.earned)
    ensures FollowsPlan(plan, tx.staged, tx.finalized)
    ensures r.Ok? ==> tx.staged == old(tx.staged) && |tx.finalized| == |old(tx.finalized)| + 1 && !api.StrandedHere()
    ensures api.Exclusive() ==> UntouchedSince(log0, api.log, initial, plan)
    ensures api.Exclusive() && r.Ok? ==> Progressing(initial, log0, api.live, api.log, plan, tx.staged, tx.finalized)
    ensures api.Exclusive() && r.Err? ==> Halted(initial, api.live, plan, tx.staged, tx.finalized, r.error, Unconfirmed(r, api.StrandedHere()))
    ensures old(api.Calm()) && api.Exclusive() && Publishable(plan, initial) ==> r.Ok?
    ensures api.Exclusive() && OneSignal(api.turns) && !old(api.interrupted) && Publishable(plan, initial) ==> Heard(api, r)
  {
    var staged, index := tx.staged, |tx.finalized|;
    var change := staged[index];
    ghost var finalized := tx.finalized;
    var moved := PublishOne(api, change, plan, initial, log0, staged, finalized);
    if moved.Err? {
      SourcesEarnedRestored(staged, api.earned, index, moved.error);
      PlanRestored(plan, staged, finalized, moved.error);
      tx.RecordRestored(index, moved.error);
      return Err(moved.error);
    }
    PlanPublish(plan, staged, finalized, moved.value);
    EarnedPush(finalized, api.earned, RemoteChange(change.source, change.target, moved.value));
    tx.RecordFinalized(RemoteChange(change.source, change.target, moved.value));
    if OneSignal(api.turns) { OneSignalIsOnce(api.turns); assert SmoothOrStruck(api.turns, api.clock); }
    r := api.InterruptCheck();
    if r.Err? && api.Exclusive() { PublishedAreNew(initial, api.live, plan, tx.staged, tx.finalized); }
  }

  method PublishOne(api: StorageApi, change: RemoteChange, ghost plan: seq<PlannedUpload>, ghost initial: Objects,
                    ghost log0: seq<Event>, ghost staged: seq<RemoteChange>, ghost finalized: seq<RemoteChange>)
    returns (r: Result<nat, AppError>)
    requires api.Valid() && FollowsPlan(plan, staged, finalized) && |finalized| < |staged| && change == staged[|finalized|]
    requires PrivateStaging(plan, initial)
    requires api.Exclusive() ==> Progressing(initial, log0, api.live, api.log, plan, staged, finalized)
    modifies api
    ensures api.Progress() && api.posts == old(api.posts)
    ensures r.Ok? ==> (change.target, r.value) in api.earned && !api.StrandedHere()
    ensures r.Err? && RestoredMoveGeneration(r.error).Some? ==> (change.source, RestoredMoveGeneration(r.error).value) in api.earned
    ensures api.Exclusive() ==> UntouchedSince(log0, api.log, initial, plan)
    ensures api.Exclusive() && r.Ok? ==> Progressing(initial, log0, api.live, api.log, plan, staged,
                                                     finalized + [RemoteChange(change.source, change.target, r.value)])
    ensures api.Exclusive() && r.Err? ==>
      Halted(initial, api.live, plan, Restored(staged, |finalized|, r.error), finalized, r.error, Unconfirmed(r, api.StrandedHere()))
    ensures old(api.Calm()) && api.Exclusive() && Publishable(plan, initial) ==> r.Ok?
    ensures api.Exclusive() && OneSignal(api.turns) && !old(api.interrupted) && Publishable(plan, initial) ==> Heard(api, r)
  {
    if api.Exclusive() && Publishable(plan, initial) { TargetIsFree(initial, api.live, plan, staged, finalized); }
    r := Execute(api, change.source, change.target, Some(change.generation));
    if api.Exclusive() {
      PublishOutcome(initial, log0, old(api.live), api.live, old(api.log), api.log, plan, staged, finalized, r,
                     Unconfirmed(r, api.StrandedHere()));
    }
  }

  lemma PlanRestored(plan: seq<PlannedUpload>, staged: seq<RemoteChange>, finalized: seq<RemoteChange>, e: AppError)
    requires FollowsPlan(plan, staged, finalized) && |finalized| < |staged|
    ensures FollowsPlan(plan, Restored(staged, |finalized|, e), finalized)
  {
  }

  lemma PlanPublish(plan: seq<PlannedUpload>, staged: seq<RemoteChange>, finalized: seq<RemoteChange>, g: nat)
    requires FollowsPlan(plan, staged, finalized) && |finalized| < |staged|
    ensures var c := staged[|finalized|];
      FollowsPlan(plan, staged, finalized + [RemoteChange(c.source, c.target, g)])
  {
  }

  lemma SourcesEarnedRestored(staged: seq<RemoteChange>, earned: set<(ObjectPath, nat)>, index: nat, error: AppError)
    requires index < |staged| && SourcesEarned(staged, earned)
    requires RestoredMoveGeneration(error).Some? ==> (staged[index].source, RestoredMoveGeneration(error).value) in earned
    ensures SourcesEarned(Restored(staged, index, error), earned)
  {
  }

  // ---------------------------------------------------------------- rollback

  // The recorded version is where it was published, and its staging name is free.
  predicate Takeable(live: Objects, change: RemoteChange) {
    && Matches(live, change.target, Some(change.generation)) && change.source !in live
    && !StorageApi.Reserved(change.source) && !StorageApi.Reserved(change.target)
  }

  predicate AllTakeable(live: Objects, finalized: seq<RemoteChange>, j: nat)
    requires j <= |finalized|
  {
    forall k :: 0 <= k < j ==> Takeable(live, finalized[k])
  }

  // Withdrawing one publication leaves the earlier ones takeable.
  lemma TakeableStep(before: Objects, after: Objects, plan: seq<PlannedUpload>, staged: seq<RemoteChange>,
                     finalized: seq<RemoteChange>, initial: Objects, j: nat)
    requires FollowsPlan(plan, staged, finalized) && Publishable(plan, initial) && j < |finalized|
    requires AllTakeable(before, finalized, j + 1) && after == before - {finalized[j].target}
    ensures AllTakeable(after, finalized, j)
  {
    forall k | 0 <= k < j ensures Takeable(after, finalized[k]) {
      assert Takeable(before, finalized[k]) && plan[k].target != plan[j].target;
    }
  }

  // The staged uploads from n up to i are where they were put.
  predicate Kept(live: Objects, staged: seq<RemoteChange>, n: nat, i: nat)
    requires i <= |staged|
  {
    forall k :: n <= k < i ==> Matches(live, staged[k].source, Some(staged[k].generation)) && !StorageApi.Reserved(staged[k].source)
  }

  lemma OwnedIsTakeable(initial: Objects, live: Objects, plan: seq<PlannedUpload>, staged: seq<RemoteChange>, finalized: seq<RemoteChange>)
    requires Owned(initial, live, plan, staged, finalized) && PrivateStaging(plan, initial) && Publishable(plan, initial)
    ensures AllTakeable(live, finalized, |finalized|)
    ensures Kept(live, staged, |finalized|, |staged|)
  {
    forall k | 0 <= k < |finalized| ensures Takeable(live, finalized[k]) {
      PublishedIsNotStaged(initial, live, plan, staged, finalized, k);
    }
  }

  lemma PublishedIsNotStaged(initial: Objects, live: Objects, plan: seq<PlannedUpload>, staged: seq<RemoteChange>,
                             finalized: seq<RemoteChange>, k: nat)
    requires Owned(initial, live, plan, staged, finalized) && PrivateStaging(plan, initial) && k < |finalized|
    ensures plan[k].staging !in live
  {
    var p, n := plan[k].staging, |finalized|;
    forall c | c in finalized ensures c.target != p {
      var i :| 0 <= i < n && finalized[i] == c;
      assert StagingApart(plan, k, i);
    }
    forall c | c in staged[n..] ensures c.source != p {
      var i :| 0 <= i < |staged[n..]| && staged[n..][i] == c;
      assert staged[n + i] == c && StagingApart(plan, n + i, k);
    }
    var occupied := Occupied(staged, finalized);
    assert p !in occupied && live - occupied == initial;
    assert p in live ==> p in live - occupied;
  }

  // A published object goes back to its staging name and is then deleted there.
  method Unpublish(api: StorageApi, change: RemoteChange, ghost initial: Objects, ghost log0: seq<Event>,
                   ghost plan: seq<PlannedUpload>, ghost i: nat)
    returns (failure: Option<AppError>)
    requires api.Valid() && (change.target, change.generation) in api.earned
    requires i < |plan| && change.source == plan[i].staging && change.target == plan[i].target
    requires plan[i].staging !in initial && (api.Exclusive() ==> plan[i].target !in initial)
    requires api.Exclusive() ==> Untouched(initial, api.live, plan) && UntouchedSince(log0, api.log, initial, plan)
    modifies api
    ensures api.Progress() && api.posts == old(api.posts)
    ensures api.Exclusive() ==> Untouched(initial, api.live, plan) && UntouchedSince(log0, api.log, initial, plan)
    ensures api.Exclusive() && failure.None? ==> api.live == old(api.live) - {change.target}
    ensures failure.None? ==> !api.StrandedHere()
    ensures old(api.Calm()) && api.Exclusive() && Takeable(old(api.live), change) ==> failure.None?
  {
    var restored := TakeBack(api, change, initial, log0, plan, i);
    if restored.Err? {
      return Some(restored.error);
    }
    ghost var deletions, taken := api.deletions, api.live;
    failure := Discard(api, change.source, restored.value, initial, log0, plan, i);
    if api.Exclusive() && failure.None? { MovedThenGone(old(api.live), taken, change.target, change.source, restored.value); }
    StrandedConcat(api.turns, deletions, api.deletions, |old(api.deletions)|);
  }

  lemma MovedThenGone(before: Objects, after: Objects, a: ObjectPath, b: ObjectPath, generation: nat)
    requires Moved(before, after, a, b, generation)
    ensures after - {b} == before - {a}
  {
  }

  method TakeBack(api: StorageApi, change: RemoteChange, ghost initial: Objects, ghost log0: seq<Event>,
                  ghost plan: seq<PlannedUpload>, ghost i: nat)
    returns (r: Result<nat, AppError>)
    requires api.Valid() && (change.target, change.generation) in api.earned
    requires i < |plan| && change.source == plan[i].staging && change.target == plan[i].target
    requires plan[i].staging !in initial && (api.Exclusive() ==> plan[i].target !in initial)
    requires api.Exclusive() ==> Untouched(initial, api.live, plan) && UntouchedSince(log0, api.log, initial, plan)
    modifies api
    ensures api.Progress() && api.posts == old(api.posts)
    ensures r.Ok? ==> (change.source, r.value) in api.earned
    ensures api.Exclusive() ==> Untouched(initial, api.live, plan) && UntouchedSince(log0, api.log, initial, plan)
    ensures api.Exclusive() && r.Ok? ==> Moved(old(api.live), api.live, change.target, change.source, r.value)
    ensures r.Ok? ==> !api.StrandedHere()
    ensures old(api.Calm()) && api.Exclusive() && Takeable(old(api.live), change) ==> r.Ok?
  {
    r := api.RollbackObject(change.source, change.target, change.generation);
    if api.Exclusive() {
      RelocatesUntouched(initial, old(api.live), api.live, plan, i, change.target, change.source);
      TrailUntouched(log0, old(api.log), api.log, initial, old(api.live), plan, i, change.target, change.source);
    }
  }

  method Discard(api: StorageApi, staging: ObjectPath, generation: nat, ghost initial: Objects, ghost log0: seq<Event>,
                 ghost plan: seq<PlannedUpload>, ghost i: nat)
    returns (failure: Option<AppError>)
    requires api.Valid() && (staging, generation) in api.earned
    requires i < |plan| && staging == plan[i].staging && staging !in initial
    requires api.Exclusive() ==> Untouched(initial, api.live, plan) && UntouchedSince(log0, api.log, initial, plan)
    modifies api
    ensures api.Progress() && api.posts == old(api.posts)
    ensures api.Exclusive() ==> Untouched(initial, api.live, plan) && UntouchedSince(log0, api.log, initial, plan)
    ensures api.Exclusive() && failure.None? ==> api.live == old(api.live) - {staging}
    ensures failure.None? ==> !api.StrandedHere()
    ensures old(api.Calm()) && api.Exclusive() && Matches(old(api.live), staging, Some(generation)) && !StorageApi.Reserved(staging) ==> failure.None?
  {
    var r := api.CleanupObject(staging, generation);
    if api.Exclusive() {
      StepUntouched(log0, old(api.log), api.log, initial, api.live, plan);
    }
    failure := if r.Ok? then None else Some(r.error);
  }

  function TargetsFrom(finalized: seq<RemoteChange>, j: nat): set<ObjectPath>
    requires j <= |finalized|
  {
    set c | c in finalized[j..] :: c.target
  }

  lemma WithdrawOne(start: Objects, before: Objects, after: Objects, gone: set<ObjectPath>, p: ObjectPath)
    requires before == start - gone && after == before - {p}
    ensures after == start - (gone + {p})
  {
  }

  lemma WithdrawBoth(start: Objects, middle: Objects, after: Objects, staged: seq<RemoteChange>, finalized: seq<RemoteChange>)
    requires |finalized| <= |staged|
    requires middle == start - TargetsFrom(finalized, 0) && after == middle - Later(staged, |finalized|, 0)
    ensures after == start - Occupied(staged, finalized)
  {
    assert finalized[0..] == finalized;
    assert Occupied(staged, finalized) == TargetsFrom(finalized, 0) + Later(staged, |finalized|, 0);
  }

  lemma TargetsFromStep(finalized: seq<RemoteChange>, j: nat)
    requires j < |finalized|
    ensures TargetsFrom(finalized, j) == TargetsFrom(finalized, j + 1) + {finalized[j].target}
  {
    assert finalized[j..] == [finalized[j]] + finalized[j + 1..];
  }

  method RollbackPublished(api: StorageApi, finalized: seq<RemoteChange>, ghost staged: seq<RemoteChange>,
                           ghost initial: Objects, ghost log0: seq<Event>, ghost plan: seq<PlannedUpload>)
    returns (errors: seq<AppError>)
    requires api.Valid() && AllEarned(finalized, api.earned)
    requires FollowsPlan(plan, staged, finalized) && PrivateStaging(plan, initial)
    requires api.Exclusive() ==> forall i :: 0 <= i < |finalized| ==> finalized[i].target !in initial
    requires api.Exclusive() ==> Untouched(initial, api.live, plan) && UntouchedSince(log0, api.log, initial, plan)
    modifies api
    ensures api.Progress() && api.posts == old(api.posts)
    ensures api.Exclusive() ==> Untouched(initial, api.live, plan) && UntouchedSince(log0, api.log, initial, plan)
    ensures api.Exclusive() && errors == [] ==> api.live == old(api.live) - TargetsFrom(finalized, 0)
    ensures errors == [] ==> !api.StrandedHere()
    ensures old(api.Calm()) && api.Exclusive() && Publishable(plan, initial) && AllTakeable(old(api.live), finalized, |finalized|) ==> errors == []
  {
    errors := [];
    var j := |finalized|;
    while j > 0
      invariant 0 <= j <= |finalized| && api.Progress() && api.posts == old(api.posts)
      invariant errors == [] ==> !api.StrandedHere()
      invariant api.Exclusive() ==> Untouched(initial, api.live, plan) && UntouchedSince(log0, api.log, initial, plan)
      invariant api.Exclusive() && errors == [] ==> api.live == old(api.live) - TargetsFrom(finalized, j)
      invariant old(api.Calm()) && api.Exclusive() && Publishable(plan, initial) && AllTakeable(old(api.live), finalized, |finalized|) ==> errors == [] && AllTakeable(api.live, finalized, j)
    {
      j := j - 1;
      ghost var before, deletions := api.live, api.deletions;
      var failure := Unpublish(api, finalized[j], initial, log0, plan, j);
      StrandedConcat(api.turns, deletions, api.deletions, |old(api.deletions)|);
      if api.Exclusive() && Publishable(plan, initial) && failure.None? && AllTakeable(before, finalized, j + 1) {
        TakeableStep(before, api.live, plan, staged, finalized, initial, j);
      }
      if failure.Some? {
        errors := errors + [failure.value];
      } else if api.Exclusive() && errors == [] {
        TargetsFromStep(finalized, j);
        WithdrawOne(old(api.live), before, api.live, TargetsFrom(finalized, j + 1), finalized[j].target);
      }
    }
  }

  lemma KeptThroughout(before: Objects, after: Objects, plan: seq<PlannedUpload>, staged: seq<RemoteChange>,
                       finalized: seq<RemoteChange>, initial: Objects)
    requires FollowsPlan(plan, staged, finalized) && PrivateStaging(plan, initial)
    requires Kept(before, staged, |finalized|, |staged|) && after == before - TargetsFrom(finalized, 0)
    ensures Kept(after, staged, |finalized|, |staged|)
  {
    forall k | |finalized| <= k < |staged| ensures staged[k].source !in TargetsFrom(finalized, 0) {
      forall c | c in finalized[0..] ensures c.target != staged[k].source {
        var i :| 0 <= i < |finalized| && finalized[i] == c;
        assert StagingApart(plan, k, i);
      }
    }
  }

  method RollbackRemote(api: StorageApi, staged: seq<RemoteChange>, finalized: seq<RemoteChange>,
                        ghost initial: Objects, ghost log0: seq<Event>, ghost plan: seq<PlannedUpload>)
    returns (errors: seq<AppError>)
    requires api.Valid() && SourcesEarned(staged, api.earned) && AllEarned(finalized, api.earned)
    requires FollowsPlan(plan, staged, finalized) && PrivateStaging(plan, initial)
    requires api.Exclusive() ==> forall i :: 0 <= i < |finalized| ==> finalized[i].target !in initial
    requires api.Exclusive() ==> Untouched(initial, api.live, plan) && UntouchedSince(log0, api.log, initial, plan)
    modifies api
    ensures api.Progress() && api.posts == old(api.posts)
    ensures api.Exclusive() ==> Untouched(initial, api.live, plan) && UntouchedSince(log0, api.log, initial, plan)
    ensures api.Exclusive() && errors == [] ==> api.live == old(api.live) - Occupied(staged, finalized)
    ensures errors == [] ==> !api.StrandedHere()
    ensures old(api.Calm()) && api.Exclusive() && Publishable(plan, initial) && Owned(initial, old(api.live), plan, staged, finalized) ==> errors == []
  {
    ghost var owned := api.Exclusive() && Publishable(plan, initial) && Owned(initial, api.live, plan, staged, finalized);
    if owned { OwnedIsTakeable(initial, api.live, plan, staged, finalized); }
    errors := RollbackPublished(api, finalized, staged, initial, log0, plan);
    ghost var withdrawn, deletions := api.live, api.deletions;
    if owned && errors == [] { KeptThroughout(old(api.live), api.live, plan, staged, finalized, initial); }
    errors := RollbackUnpublished(api, staged, finalized, errors, initial, log0, plan);
    StrandedConcat(api.turns, deletions, api.deletions, |old(api.deletions)|);
    if api.Exclusive() && errors == [] {
      WithdrawBoth(old(api.live), withdrawn, api.live, staged, finalized);
    }
  }

  method RollbackUnpublished(api: StorageApi, staged: seq<RemoteChange>, finalized: seq<RemoteChange>, errors0: seq<AppError>,
                             ghost initial: Objects, ghost log0: seq<Event>, ghost plan: seq<PlannedUpload>)
    returns (errors: seq<AppError>)
    requires api.Valid() && SourcesEarned(staged, api.earned)
    requires FollowsPlan(plan, staged, finalized) && PrivateStaging(plan, initial)
    requires api.Exclusive() ==> Untouched(initial, api.live, plan) && UntouchedSince(log0, api.log, initial, plan)
    modifies api
    ensures api.Progress() && api.posts == old(api.posts)
    ensures api.Exclusive() ==> Untouched(initial, api.live, plan) && UntouchedSince(log0, api.log, initial, plan)
    ensures api.Exclusive() && errors == [] ==> errors0 == [] && api.live == old(api.live) - Later(staged, |finalized|, 0)
    ensures errors == [] ==> errors0 == [] && !api.StrandedHere()
    ensures old(api.Calm()) && api.Exclusive() && Kept(old(api.live), staged, |finalized|, |staged|) ==> errors == errors0
  {
    errors := errors0;
    var finalizedSources := Sources(finalized);
    var i := |staged|;
    while i > 0
      invariant 0 <= i <= |staged| && api.Progress() && api.posts == old(api.posts)
      invariant errors == [] ==> errors0 == [] && !api.StrandedHere()
      invariant api.Exclusive() ==> Untouched(initial, api.live, plan) && UntouchedSince(log0, api.log, initial, plan)
      invariant old(api.Calm()) && api.Exclusive() && Kept(old(api.live), staged, |finalized|, |staged|) ==> errors == errors0 && Kept(api.live, staged, |finalized|, i)
      invariant api.Exclusive() && errors == [] ==> api.live == old(api.live) - Later(staged, |finalized|, i)
    {
      i := i - 1;
      ghost var deletions := api.deletions;
      errors := DiscardNext(api, staged, finalized, finalizedSources, i, errors, old(api.live), initial, log0, plan);
      StrandedConcat(api.turns, deletions, api.deletions, |old(api.deletions)|);
    }
  }

  function Sources(changes: seq<RemoteChange>): set<ObjectPath> {
    set c | c in changes :: c.source
  }

  method DiscardNext(api: StorageApi, staged: seq<RemoteChange>, ghost finalized: seq<RemoteChange>, finalizedSources: set<ObjectPath>,
                     i: nat, errors0: seq<AppError>, ghost start: Objects,
                     ghost initial: Objects, ghost log0: seq<Event>, ghost plan: seq<PlannedUpload>)
    returns (errors: seq<AppError>)
    requires api.Valid() && SourcesEarned(staged, api.earned) && i < |staged| && finalizedSources == Sources(finalized)
    requires FollowsPlan(plan, staged, finalized) && PrivateStaging(plan, initial)
    requires api.Exclusive() ==> Untouched(initial, api.live, plan) && UntouchedSince(log0, api.log, initial, plan)
    requires api.Exclusive() && errors0 == [] ==> api.live == start - Later(staged, |finalized|, i + 1)
    modifies api
    ensures api.Progress() && api.posts == old(api.posts) && (errors == [] ==> errors0 == [])
    ensures api.Exclusive() ==> Untouched(initial, api.live, plan) && UntouchedSince(log0, api.log, initial, plan)
    ensures api.Exclusive() && errors == [] ==> api.live == start - Later(staged, |finalized|, i)
    ensures errors == [] ==> errors0 == [] && !api.StrandedHere()
    ensures old(api.Calm()) && api.Exclusive() && Kept(old(api.live), staged, |finalized|, i + 1) ==>
      errors == errors0 && Kept(api.live, staged, |finalized|, i)
  {
    errors := errors0;
    LaterStep(plan, staged, finalized, initial, i);
    if staged[i].source !in finalizedSources {
      ghost var before := api.live;
      var failure := Discard(api, staged[i].source, staged[i].generation, initial, log0, plan, i);
      if failure.Some? {
        errors := errors + [failure.value];
      } else if api.Exclusive() {
        KeptStep(before, api.live, plan, staged, finalized, initial, i);
        if errors == [] { WithdrawOne(start, before, api.live, Later(staged, |finalized|, i + 1), staged[i].source); }
      }
    }
  }

  lemma KeptStep(before: Objects, after: Objects, plan: seq<PlannedUpload>, staged: seq<RemoteChange>,
                 finalized: seq<RemoteChange>, initial: Objects, i: nat)
    requires FollowsPlan(plan, staged, finalized) && PrivateStaging(plan, initial) && i < |staged|
    requires after == before - {staged[i].source}
    ensures Kept(before, staged, |finalized|, i + 1) ==> Kept(after, staged, |finalized|, i)
  {
    forall k | 0 <= k < i ensures staged[k].source != staged[i].source {
      assert StagingApart(plan, k, i);
    }
  }

  // The staging names at positions i and up that were never published.
  function Later(staged: seq<RemoteChange>, n: nat, i: nat): set<ObjectPath>
    requires n <= |staged| && i <= |staged|
  {
    set c | c in staged[if n < i then i else n..] :: c.source
  }

  // A staged upload is skipped exactly when it was published.
  lemma LaterStep(plan: seq<PlannedUpload>, staged: seq<RemoteChange>, finalized: seq<RemoteChange>, initial: Objects, i: nat)
    requires FollowsPlan(plan, staged, finalized) && PrivateStaging(plan, initial) && i < |staged|
    ensures staged[i].source in Sources(finalized) <==> i < |finalized|
    ensures Later(staged, |finalized|, i)
         == if i < |finalized| then Later(staged, |finalized|, i + 1) else Later(staged, |finalized|, i + 1) + {staged[i].source}
  {
    if i < |finalized| {
      assert finalized[i] in finalized;
    } else {
      assert staged[i..] == [staged[i]] + staged[i + 1..];
      forall c | c in finalized ensures c.source != staged[i].source {
        var k :| 0 <= k < |finalized| && finalized[k] == c;
        assert StagingApart(plan, k, i);
      }
    }
  }

  // ------------------------------------------------------------ the whole run

  ghost predicate Published(initial: Objects, live: Objects, plan: seq<PlannedUpload>) {
    && (forall i :: 0 <= i < |plan| ==>
          plan[i].target !in initial && plan[i].target in live && live[plan[i].target].content == plan[i].file)
    && live - (set u | u in plan :: u.target) == initial
  }

  // src/upload.rs:321-410. Success publishes every file and leaves no staging
  // object; a plain error restores the bucket version by version, unless the
  // schedule silenced a completed upload or refused the DELETE of a publication or
  // the look-up behind it; the initial objects are intact at every moment.
  method UploadPlannedFilesUnlocked(api: StorageApi, plan: seq<PlannedUpload>) returns (r: Result<(), AppError>)
    requires api.Valid() && FilesFit(plan) && PrivateStaging(plan, api.live)
    modifies api
    ensures api.Progress()
    ensures api.Exclusive() ==> UntouchedSince(old(api.log), api.log, old(api.live), plan)
    ensures api.Exclusive() && r.Ok? ==> Published(old(api.live), api.live, plan)
    ensures api.Exclusive() && r.Err? && !NeedsRecovery(r.error) ==>
      (api.live == old(api.live) <==> !api.StrandedHere() && !api.OrphanedHere())
    ensures old(api.Calm()) && api.Exclusive() && Publishable(plan, old(api.live)) ==> r.Ok?
    ensures api.Exclusive() && OneSignal(api.turns) && !old(api.interrupted) && Publishable(plan, old(api.live)) ==>
      r.Ok? || (IsHome(r.error) && api.live == old(api.live))
  {
    ghost var initial, log0 := api.live, api.log;
    var tx := new RemoteTransaction();
    r := UploadForward(api, tx, plan);
    if r.Ok? {
      if api.Exclusive() { AllPublished(initial, api.live, plan, tx.staged, tx.finalized); }
      return;
    }
    ghost var deletions, unconfirmed := api.deletions, Unconfirmed(r, api.StrandedHere() || api.OrphanedHere());
    if OneSignal(api.turns) { SignalLosesAllNothing(api, |old(api.deletions)|, |old(api.posts)|); }
    r := Withdraw(api, tx.staged, tx.finalized, r.error, initial, log0, plan, unconfirmed);
    StrandedConcat(api.turns, deletions, api.deletions, |old(api.deletions)|);
  }

  lemma SignalLosesAllNothing(api: StorageApi, deletions: nat, posts: nat)
    requires OneSignal(api.turns)
    ensures !Stranded(api.turns, api.deletions, deletions) && !Orphaned(api.turns, api.posts, posts)
  {
    OneSignalIsOnce(api.turns);
    SignalLosesNothing(api.turns, api.deletions, api.posts, deletions);
    SignalLosesNothing(api.turns, api.deletions, api.posts, posts);
  }

  // Everything this run owns is taken back after error e.
  method Withdraw(api: StorageApi, staged: seq<RemoteChange>, finalized: seq<RemoteChange>, e: AppError,
                  ghost initial: Objects, ghost log0: seq<Event>, ghost plan: seq<PlannedUpload>, ghost unconfirmed: bool)
    returns (r: Result<(), AppError>)
    requires api.Valid() && SourcesEarned(staged, api.earned) && AllEarned(finalized, api.earned)
    requires FollowsPlan(plan, staged, finalized) && PrivateStaging(plan, initial)
    requires api.Exclusive() ==> Halted(initial, api.live, plan, staged, finalized, e, unconfirmed)
    requires api.Exclusive() ==> UntouchedSince(log0, api.log, initial, plan)
    modifies api
    ensures api.Progress() && api.posts == old(api.posts)
    ensures r.Err? && (r.error == e || NeedsRecovery(r.error)) && (NeedsRecovery(e) ==> NeedsRecovery(r.error))
    ensures !r.error.Rollback? ==> !api.StrandedHere()
    ensures api.Exclusive() ==> UntouchedSince(log0, api.log, initial, plan)
    ensures api.Exclusive() && !NeedsRecovery(r.error) ==> (api.live == initial <==> !unconfirmed)
    ensures api.Exclusive() && OneFlaw(api.turns) && old(api.Over()) && Publishable(plan, initial) && !NeedsRecovery(e) && !unconfirmed ==>
      r.error == e
  {
    api.ClearInterruptForRollback();
    var errors := RollbackRemote(api, staged, finalized, initial, log0, plan);
    if api.Exclusive() && errors == [] && unconfirmed {
      var b :| b in old(api.live) && b !in initial && b !in Occupied(staged, finalized);
      assert b in api.live;
    }
    r := Err(WithRollback(e, errors));
  }

  // Both phases, up to the first failure.
  method UploadForward(api: StorageApi, tx: RemoteTransaction, plan: seq<PlannedUpload>) returns (r: Result<(), AppError>)
    requires api.Valid() && tx.staged == [] && tx.finalized == [] && FilesFit(plan) && PrivateStaging(plan, api.live)
    modifies api, tx
    ensures api.Progress() && SourcesEarned(tx.staged, api.earned) && AllEarned(tx.finalized, api.earned)
    ensures FollowsPlan(plan, tx.staged, tx.finalized)
    ensures r.Ok? ==> |tx.finalized| == |tx.staged| == |plan|
    ensures api.Exclusive() ==> UntouchedSince(old(api.log), api.log, old(api.live), plan)
    ensures api.Exclusive() && r.Ok? ==>
      Progressing(old(api.live), old(api.log), api.live, api.log, plan, tx.staged, tx.finalized)
    ensures api.Exclusive() && r.Err? ==>
      Halted(old(api.live), api.live, plan, tx.staged, tx.finalized, r.error,
             Unconfirmed(r, api.StrandedHere() || api.OrphanedHere()))
    ensures old(api.Calm()) && api.Exclusive() && Publishable(plan, old(api.live)) ==> r.Ok?
    ensures api.Exclusive() && OneSignal(api.turns) && !old(api.interrupted) && Publishable(plan, old(api.live)) ==> Heard(api, r)
  {
    r := StageUploads(api, tx, plan);
    if r.Ok? {
      r := PublishUploads(api, tx, plan, old(api.live), old(api.log));
    }
  }

  lemma AllPublished(initial: Objects, live: Objects, plan: seq<PlannedUpload>, staged: seq<RemoteChange>, finalized: seq<RemoteChange>)
    requires Owned(initial, live, plan, staged, finalized) && |finalized| == |staged| == |plan|
    ensures Published(initial, live, plan)
  {
    PublishedAreNew(initial, live, plan, staged, finalized);
    forall p ensures p in Occupied(staged, finalized) <==> p in set u | u in plan :: u.target {
      if p in Occupied(staged, finalized) {
        var c :| c in finalized && c.target == p;
        var i :| 0 <= i < |finalized| && finalized[i] == c;
        assert plan[i] in plan;
      }
      if p in set u | u in plan :: u.target {
        var u :| u in plan && u.target == p;
        var i :| 0 <= i < |plan| && plan[i] == u;
        assert finalized[i] in finalized;
      }
    }
  }
}
