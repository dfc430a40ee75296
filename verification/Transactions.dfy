// src/transaction.rs and the two phases of src/normalize.rs:119-163: stage every
// move under a private name, finalize, and roll everything back on failure.
module Transactions {
  import opened Wrappers
  import opened Errors
  import opened ObjectPaths
  import opened ObjectStore
  import opened StorageClient
  import opened ObjectMoves
  import opened Undoing
  import opened Accounting

  // One remote change and the generation this run owns at its target.
  datatype RemoteChange = RemoteChange(source: ObjectPath, target: ObjectPath, generation: nat)

  // An interrupted move may have restored its source under a new generation;
  // rollback must use that owned version.
  function Restored(staged: seq<RemoteChange>, index: nat, error: AppError): seq<RemoteChange>
    requires index < |staged|
  {
    match RestoredMoveGeneration(error)
    case Some(g) => staged[index := staged[index].(generation := g)]
    case None => staged
  }

  class RemoteTransaction {
    var staged: seq<RemoteChange>
    var finalized: seq<RemoteChange>

    constructor ()
      ensures staged == [] && finalized == []
    {
      staged, finalized := [], [];
    }

    method Stage(change: RemoteChange)
      modifies this`staged
      ensures staged == old(staged) + [change]
    {
      staged := staged + [change];
    }

    method RecordFinalized(change: RemoteChange)
      modifies this`finalized
      ensures finalized == old(finalized) + [change]
    {
      finalized := finalized + [change];
    }

    method RecordRestored(index: nat, error: AppError)
      requires index < |staged|
      modifies this`staged
      ensures staged == Restored(old(staged), index, error)
      ensures |staged| == |old(staged)| && forall i :: 0 <= i < |staged| && i != index ==> staged[i] == old(staged)[i]
      ensures staged[index].source == old(staged)[index].source && staged[index].target == old(staged)[index].target
      ensures RestoredMoveGeneration(error).Some? ==> staged[index].generation == RestoredMoveGeneration(error).value
      ensures RestoredMoveGeneration(error).None? ==> staged == old(staged)
    {
      var restored := RestoredMoveGeneration(error);
      if restored.Some? {
        staged := staged[index := staged[index].(generation := restored.value)];
      }
    }
  }

  // ------------------------------------------------------------------ records

  // The change that stands for staged entry i: the finalized one once it exists.
  function Current(staged: seq<RemoteChange>, finalized: seq<RemoteChange>, i: nat): RemoteChange
    requires i < |staged| && |finalized| <= |staged|
  {
    if i < |finalized| then finalized[i] else staged[i]
  }

  // The two lists describe exactly the pending moves: finalized entries answer
  // to a prefix of the staged ones, source by source.
  ghost predicate Tracks(pending: Pending, staged: seq<RemoteChange>, finalized: seq<RemoteChange>) {
    && |finalized| <= |staged|
    && (forall i :: 0 <= i < |finalized| ==> finalized[i].source == staged[i].source)
    && (forall i :: 0 <= i < |staged| ==>
          staged[i].source in pending && pending[staged[i].source] == Place(Current(staged, finalized, i)))
    && (forall i, j :: 0 <= i < j < |staged| ==> staged[i].source != staged[j].source)
    && (forall s :: s in pending ==> exists i :: 0 <= i < |staged| && staged[i].source == s)
  }

  function Place(change: RemoteChange): Located {
    Located(change.target, change.generation)
  }

  predicate AllEarned(changes: seq<RemoteChange>, earned: set<(ObjectPath, nat)>) {
    forall i :: 0 <= i < |changes| ==> (changes[i].target, changes[i].generation) in earned
  }

  // Everything a run in progress knows: the initial objects and log, the plan,
  // the records and a copy of each source.
  datatype Ledger = Ledger(
    initial: Objects,
    log0: seq<Event>,
    plan: seq<PlannedMove>,
    pending: Pending,
    location: map<ObjectPath, ObjectPath>)

  // All states so far were safe and this one is too.
  ghost predicate Watched(l: Ledger, live: Objects, log: seq<Event>) {
    && SafeSince(l.log0, log, l.initial, l.plan)
    && Held(l.initial, live, l.location, l.plan)
  }

  // The forward invariant: the records are exact and every source is where the
  // records say, or still at home.
  ghost predicate Forward(l: Ledger, live: Objects, log: seq<Event>) {
    && Watched(l, live, log)
    && Accounted(l.initial, live, l.pending)
    && Follows(l.location, l.pending)
  }

  predicate Follows(location: map<ObjectPath, ObjectPath>, pending: Pending) {
    && (forall s :: s in location ==> location[s] == At(pending, s))
    && (forall s :: s in pending ==> s in location)
  }

  lemma FollowsOn(location: map<ObjectPath, ObjectPath>, pending: Pending, s: ObjectPath, b: ObjectPath, generation: nat)
    requires Follows(location, pending)
    ensures Follows(location[s := b], pending[s := Located(b, generation)])
  {
  }

  // Before a rollback the failing operation may have left its own bytes between
  // two names; all other records are as they were.
  ghost predicate Rewindable(l: Ledger, live: Objects, log: seq<Event>) {
    && Watched(l, live, log)
    && (forall s :: s in l.pending ==> Home(l.plan, s, l.pending[s].at))
    && (forall s :: s in l.pending && l.pending[s].at in live ==> s in l.location && l.location[s] == l.pending[s].at)
    && (forall s :: s in l.pending && l.pending[s].at !in live ==> l.pending[s].at !in l.pending)
    && (forall s, t :: s in l.pending && t in l.pending && s != t ==> l.pending[s].at != l.pending[t].at)
  }

  // An object this run left behind without a record: an unconfirmed copy.
  ghost predicate Stray(initial: Objects, live: Objects, pending: Pending) {
    exists b :: b in live && b !in Places(pending) && (b !in initial || b in pending)
  }

  // What a failed phase hands to the rollback: after a plain error the records
  // are exact, unless an unconfirmed copy is left beside them.
  ghost predicate Stopped(l: Ledger, live: Objects, e: AppError, unconfirmed: bool) {
    && (unconfirmed ==> Stray(l.initial, live, l.pending))
    && (!NeedsRecovery(e) && !unconfirmed ==> Accounted(l.initial, live, l.pending))
  }

  // The state when a phase gives up with error e.
  ghost predicate Halted(l: Ledger, live: Objects, log: seq<Event>, e: AppError, unconfirmed: bool) {
    && Rewindable(l, live, log)
    && (NeedsRecovery(e) ==> !unconfirmed)
    && Stopped(l, live, e, unconfirmed)
  }

  lemma ForwardIsRewindable(l: Ledger, live: Objects, log: seq<Event>)
    requires Forward(l, live, log)
    ensures Rewindable(l, live, log)
  {
  }

  // ------------------------------------------------------ what can be undone

  // An error after which everything is as it was before the operation.
  predicate IsHome(e: AppError) {
    e.Interrupted? || e.InterruptedAfterMoveRollback?
  }

  // With one flaw in the schedule a failure means that it is over; and if it is a
  // signal, that the operation it struck has been undone.
  ghost predicate Foreseen<T>(api: StorageApi, interrupted: bool, r: Result<T, AppError>)
    reads api
  {
    !interrupted ==>
      && (r.Ok? ==> !api.interrupted)
      && (OneFlaw(api.turns) ==> r.Ok? || api.Past())
      && (OneSignal(api.turns) ==> r.Ok? || IsHome(r.error))
  }

  // A plan that can be carried out and whose targets are new.
  ghost predicate Regular(initial: Objects, plan: seq<PlannedMove>) {
    Executable(initial, plan) && NewTargets(initial, plan)
  }

  // Where the records of a regular plan lie: never at a source, never at a lock
  // object, and in nobody else's trio.
  lemma RecordsLie(l: Ledger, staged: seq<RemoteChange>, finalized: seq<RemoteChange>)
    requires Tracks(l.pending, staged, finalized) && StagedSoFar(staged, l.plan) && FinalizedSoFar(finalized, l.plan)
    requires PrivateTemporaries(l.plan) && Regular(l.initial, l.plan)
    ensures forall s :: s in l.pending ==> Lies(l, s)
  {
    forall s | s in l.pending ensures Lies(l, s) {
      var i :| 0 <= i < |staged| && staged[i].source == s;
      assert l.pending[s] == Place(Current(staged, finalized, i));
      assert l.plan[i].source == s;
    }
  }

  ghost predicate Lies(l: Ledger, s: ObjectPath)
    requires s in l.pending
  {
    exists i :: 0 <= i < |l.plan| && l.plan[i].source == s
      && (l.pending[s].at == l.plan[i].temporary || l.pending[s].at == l.plan[i].target)
  }

  lemma LiesApart(l: Ledger, s: ObjectPath)
    requires s in l.pending && Lies(l, s) && PrivateTemporaries(l.plan) && Regular(l.initial, l.plan)
    ensures !StorageApi.Reserved(s) && !StorageApi.Reserved(l.pending[s].at)
    ensures s in l.initial && l.pending[s].at !in l.initial
  {
  }

  lemma LiesInOneTrio(l: Ledger, s: ObjectPath, k: nat)
    requires s in l.pending && Lies(l, s) && k < |l.plan| && PrivateTemporaries(l.plan) && Regular(l.initial, l.plan)
    ensures s in Trio(l.plan[k]) <==> l.pending[s].at in Trio(l.plan[k])
  {
    var i :| 0 <= i < |l.plan| && l.plan[i].source == s
      && (l.pending[s].at == l.plan[i].temporary || l.pending[s].at == l.plan[i].target);
    TemporariesApart(l.plan, i);
    TemporariesApart(l.plan, k);
  }

  lemma RecordsClosed(l: Ledger, staged: seq<RemoteChange>, finalized: seq<RemoteChange>, k: nat)
    requires Tracks(l.pending, staged, finalized) && StagedSoFar(staged, l.plan) && FinalizedSoFar(finalized, l.plan)
    requires PrivateTemporaries(l.plan) && Regular(l.initial, l.plan) && k < |l.plan|
    ensures Closed(l.pending, Trio(l.plan[k]))
  {
    RecordsLie(l, staged, finalized);
    forall s | s in l.pending ensures s in Trio(l.plan[k]) <==> l.pending[s].at in Trio(l.plan[k]) {
      LiesInOneTrio(l, s, k);
    }
  }

  lemma RecordsUndoable(l: Ledger, live: Objects, staged: seq<RemoteChange>, finalized: seq<RemoteChange>, holes: set<ObjectPath>)
    requires Tracks(l.pending, staged, finalized) && StagedSoFar(staged, l.plan) && FinalizedSoFar(finalized, l.plan)
    requires PrivateTemporaries(l.plan) && Regular(l.initial, l.plan)
    requires AccountedOutside(l.initial, live, l.pending, holes) && Closed(l.pending, holes)
    ensures Undoable(l.initial, live, l.pending, holes)
  {
    RecordsLie(l, staged, finalized);
    forall s | s in l.pending
      ensures !StorageApi.Reserved(s) && !StorageApi.Reserved(l.pending[s].at)
      ensures s in l.initial && l.pending[s].at !in l.initial
    {
      LiesApart(l, s);
    }
  }

  // After a failed move everything outside its trio is accounted for.
  lemma StruckMove(l: Ledger, pending: Pending, before: Objects, after: Objects, staged: seq<RemoteChange>,
                   finalized: seq<RemoteChange>, k: nat, a: ObjectPath, b: ObjectPath)
    requires Accounted(l.initial, before, l.pending)
    requires Tracks(l.pending, staged, finalized) && StagedSoFar(staged, l.plan) && FinalizedSoFar(finalized, l.plan)
    requires PrivateTemporaries(l.plan) && Regular(l.initial, l.plan) && k < |l.plan|
    requires Relocates(before, after, a, b) && a in Trio(l.plan[k]) && b in Trio(l.plan[k])
    requires pending - {l.plan[k].source} == l.pending - {l.plan[k].source}
    ensures AccountedOutside(l.initial, after, pending, Trio(l.plan[k]))
  {
    RecordsClosed(l, staged, finalized, k);
    HolesOpen(l.initial, before, after, l.pending, Trio(l.plan[k]), a, b);
    SameOutside(pending, l.pending, l.plan[k].source, Trio(l.plan[k]));
  }

  lemma StruckNothing(l: Ledger, live: Objects, staged: seq<RemoteChange>, finalized: seq<RemoteChange>, k: nat)
    requires Accounted(l.initial, live, l.pending)
    requires Tracks(l.pending, staged, finalized) && StagedSoFar(staged, l.plan) && FinalizedSoFar(finalized, l.plan)
    requires PrivateTemporaries(l.plan) && Regular(l.initial, l.plan) && k < |l.plan|
    ensures AccountedOutside(l.initial, live, l.pending, Trio(l.plan[k]))
  {
    StruckMove(l, l.pending, live, live, staged, finalized, k, l.plan[k].source, l.plan[k].temporary);
  }

  // Outside the trio of one move the books are exact.
  ghost predicate Struck(l: Ledger, live: Objects) {
    exists k :: 0 <= k < |l.plan| && AccountedOutside(l.initial, live, l.pending, Trio(l.plan[k]))
  }

  lemma SameOutside(p: Pending, q: Pending, s: ObjectPath, holes: set<ObjectPath>)
    requires p - {s} == q - {s} && s in holes
    ensures p - holes == q - holes
  {
    assert p - holes == (p - {s}) - holes && q - holes == (q - {s}) - holes;
  }

  // ---------------------------------------------------------- forward steps

  // A completed move of the bytes of s from where they were to b.
  lemma ForwardMove(l: Ledger, before: Objects, after: Objects, log1: seq<Event>, log2: seq<Event>,
                    s: ObjectPath, b: ObjectPath, generation: nat)
    returns (next: Ledger)
    requires Forward(l, before, log1)
    requires s in l.pending || s !in Places(l.pending)
    requires s in before || s in l.pending ==> s in l.location
    requires Trail(log1, log2, before, At(l.pending, s), b) && Moved(before, after, At(l.pending, s), b, generation)
    requires Home(l.plan, s, At(l.pending, s)) && Home(l.plan, s, b)
    ensures next == l.(pending := l.pending[s := Located(b, generation)], location := l.location[s := b])
    ensures Forward(next, after, log2)
  {
    next := l.(pending := l.pending[s := Located(b, generation)], location := l.location[s := b]);
    AccountMove(l.initial, before, after, l.pending, s, b, generation);
    FollowsOn(l.location, l.pending, s, b, generation);
    MoveIsWatched(l, before, after, log1, log2, s, At(l.pending, s), b, generation);
  }

  lemma MoveIsWatched(l: Ledger, before: Objects, after: Objects, log1: seq<Event>, log2: seq<Event>,
                      s: ObjectPath, a: ObjectPath, b: ObjectPath, generation: nat)
    requires Watched(l, before, log1) && s in l.location && l.location[s] == a
    requires Trail(log1, log2, before, a, b) && Moved(before, after, a, b, generation)
    requires Home(l.plan, s, a) && Home(l.plan, s, b)
    ensures Watched(l.(location := l.location[s := b]), after, log2)
  {
    MovedRelocates(before, after, a, b, generation);
    TrailIsSafe(l.log0, log1, log2, l.initial, before, l.location, l.plan, s, a, b);
    HeldStep(l.initial, before, after, l.location, l.plan, s, a, b);
  }

  lemma MovedRelocates(before: Objects, after: Objects, a: ObjectPath, b: ObjectPath, generation: nat)
    requires Moved(before, after, a, b, generation)
    ensures Relocates(before, after, a, b) && a !in after
  {
    assert after - {a, b} == before - {a, b};
  }

  // A move that failed: its bytes may be in between, and the record of s, if any,
  // carries the restored generation when the error announces one.
  lemma ForwardFailure(l: Ledger, before: Objects, after: Objects, log1: seq<Event>, log2: seq<Event>,
                       s: ObjectPath, b: ObjectPath, expected: Option<nat>, e: AppError, unconfirmed: bool)
    returns (next: Ledger)
    requires Forward(l, before, log1)
    requires s in l.pending || s !in Places(l.pending)
    requires s in before || s in l.pending ==> s in l.location
    requires Trail(log1, log2, before, At(l.pending, s), b)
    requires ExecuteEnds(before, after, At(l.pending, s), b, expected, Err(e), unconfirmed)
    requires Home(l.plan, s, At(l.pending, s)) && Home(l.plan, s, b)
    requires s in l.pending ==> l.pending[s].at !in l.pending
    ensures next.initial == l.initial && next.log0 == l.log0 && next.plan == l.plan
    ensures next.pending == if e.InterruptedAfterMoveRollback? && s in l.pending
                            then l.pending[s := l.pending[s].(generation := e.restoredGeneration)] else l.pending
    ensures Halted(next, after, log2, e, unconfirmed)
  {
    next := Failed(l, before, after, s, b, e);
    FailedIsStopped(l, before, after, s, b, expected, e, unconfirmed);
    FailureIsWatched(l, before, after, log1, log2, s, b, e);
    FailureIsRewindable(l, before, after, log2, s, b, e);
  }

  // The books after a failed move: the bytes may have moved, and the error may
  // announce a new generation.
  function Failed(l: Ledger, before: Objects, after: Objects, s: ObjectPath, b: ObjectPath, e: AppError): Ledger {
    l.(location := Relocated(l.location, before, after, s, At(l.pending, s), b),
       pending := if e.InterruptedAfterMoveRollback? && s in l.pending
                  then l.pending[s := l.pending[s].(generation := e.restoredGeneration)] else l.pending)
  }

  lemma FailedIsStopped(l: Ledger, before: Objects, after: Objects, s: ObjectPath, b: ObjectPath, expected: Option<nat>,
                        e: AppError, unconfirmed: bool)
    requires Accounted(l.initial, before, l.pending) && (s in l.pending || s !in Places(l.pending))
    requires ExecuteEnds(before, after, At(l.pending, s), b, expected, Err(e), unconfirmed)
    requires s in l.pending ==> l.pending[s].at !in l.pending
    ensures Stopped(Failed(l, before, after, s, b, e), after, e, unconfirmed)
  {
    if !NeedsRecovery(e) && e.InterruptedAfterMoveRollback? {
      AccountRestore(l.initial, before, after, l.pending, s, e.restoredGeneration);
    }
    if unconfirmed {
      StrayCopy(l.initial, before, after, l.pending, b);
    }
  }

  lemma FailureIsWatched(l: Ledger, before: Objects, after: Objects, log1: seq<Event>, log2: seq<Event>,
                         s: ObjectPath, b: ObjectPath, e: AppError)
    requires Watched(l, before, log1) && Trail(log1, log2, before, At(l.pending, s), b)
    requires Relocates(before, after, At(l.pending, s), b)
    requires Home(l.plan, s, At(l.pending, s)) && Home(l.plan, s, b)
    requires At(l.pending, s) in before ==> s in l.location && l.location[s] == At(l.pending, s)
    ensures Watched(Failed(l, before, after, s, b, e), after, log2)
  {
    TrailIsSafe(l.log0, log1, log2, l.initial, before, l.location, l.plan, s, At(l.pending, s), b);
    HeldStep(l.initial, before, after, l.location, l.plan, s, At(l.pending, s), b);
  }

  lemma FailureIsRewindable(l: Ledger, before: Objects, after: Objects, log2: seq<Event>,
                            s: ObjectPath, b: ObjectPath, e: AppError)
    requires Accounted(l.initial, before, l.pending) && Follows(l.location, l.pending)
    requires forall t :: t in l.pending ==> Home(l.plan, t, l.pending[t].at)
    requires Relocates(before, after, At(l.pending, s), b)
    requires s in l.pending ==> l.pending[s].at !in l.pending
    requires s in l.pending || s !in Places(l.pending)
    requires Watched(Failed(l, before, after, s, b, e), after, log2)
    ensures Rewindable(Failed(l, before, after, s, b, e), after, log2)
  {
    OthersStay(l.initial, l.pending, before, after, s, b);
    OnlyOneHop(l, Failed(l, before, after, s, b, e), before, after, log2, s, b);
  }

  lemma OnlyOneHop(l: Ledger, next: Ledger, before: Objects, after: Objects, log2: seq<Event>, s: ObjectPath, b: ObjectPath)
    requires forall t, u :: t in l.pending && u in l.pending && t != u ==> l.pending[t].at != l.pending[u].at
    requires forall t :: t in l.pending && t != s ==> l.pending[t].at in after
    requires s in l.pending ==> l.pending[s].at in before && l.pending[s].at !in l.pending
    requires forall t :: t in l.location ==> l.location[t] == At(l.pending, t)
    requires forall t :: t in l.pending ==> t in l.location && Home(l.plan, t, l.pending[t].at)
    requires next.plan == l.plan && next.location == Relocated(l.location, before, after, s, At(l.pending, s), b)
    requires next.pending.Keys == l.pending.Keys
    requires forall t :: t in l.pending ==> next.pending[t].at == l.pending[t].at
    requires Watched(next, after, log2)
    ensures Rewindable(next, after, log2)
  {
    forall t ensures t in l.pending <==> t in next.pending {
      assert t in l.pending.Keys <==> t in next.pending.Keys;
    }
  }

  lemma OthersStay(initial: Objects, pending: Pending, before: Objects, after: Objects, s: ObjectPath, b: ObjectPath)
    requires Accounted(initial, before, pending) && Relocates(before, after, At(pending, s), b)
    requires s in pending || s !in Places(pending)
    ensures forall t :: t in pending && t != s ==> pending[t].at in after
  {
    var a := At(pending, s);
    RelocatesNothingElse(before, after, a, b);
    forall t | t in pending && t != s ensures pending[t].at in after {
      assert pending[t].at in Places(pending) && pending[t].at != a;
    }
  }

  lemma StrayCopy(initial: Objects, before: Objects, after: Objects, pending: Pending, b: ObjectPath)
    requires Accounted(initial, before, pending)
    requires b !in before && b in after
    ensures Stray(initial, after, pending)
  {
    assert b !in Places(pending);
    assert b !in initial || b in pending;
  }

  // ---------------------------------------------------------------- staging

  // Plans that can be carried out in one go: every source exists, every target
  // is free or itself a source, and no two moves share either.
  ghost predicate Executable(initial: Objects, plan: seq<PlannedMove>) {
    && (forall i :: 0 <= i < |plan| ==>
          && plan[i].source in initial && plan[i].temporary !in initial
          && (plan[i].target in initial ==> IsSource(plan, plan[i].target))
          && !StorageApi.Reserved(plan[i].source) && !StorageApi.Reserved(plan[i].target) && !StorageApi.Reserved(plan[i].temporary))
    && (forall i, j :: 0 <= i < j < |plan| ==> plan[i].source != plan[j].source && plan[i].target != plan[j].target)
  }

  ghost predicate StagedSoFar(staged: seq<RemoteChange>, plan: seq<PlannedMove>) {
    && |staged| <= |plan|
    && forall i :: 0 <= i < |staged| ==> staged[i].source == plan[i].source && staged[i].target == plan[i].temporary
  }

  lemma EarnedPush(changes: seq<RemoteChange>, earned: set<(ObjectPath, nat)>, change: RemoteChange)
    requires AllEarned(changes, earned) && (change.target, change.generation) in earned
    ensures AllEarned(changes + [change], earned)
  {
  }

  lemma StagedPush(staged: seq<RemoteChange>, plan: seq<PlannedMove>, generation: nat)
    requires StagedSoFar(staged, plan) && |staged| < |plan|
    ensures StagedSoFar(staged + [RemoteChange(plan[|staged|].source, plan[|staged|].temporary, generation)], plan)
  {
  }

  lemma StartLedger(live: Objects, log: seq<Event>, plan: seq<PlannedMove>) returns (l: Ledger)
    ensures l.initial == live && l.log0 == log && l.plan == plan
    ensures Forward(l, live, log) && Tracks(l.pending, [], [])
  {
    var sources := set i | 0 <= i < |plan| && plan[i].source in live :: plan[i].source;
    var none: Pending := map[];
    l := Ledger(live, log, plan, none, map s | s in sources :: s);
    assert Places(none) == {};
    forall s | s in sources ensures Home(plan, s, s) {
      var i :| 0 <= i < |plan| && plan[i].source == s;
    }
  }

  // Staged bytes sit under private names only, so the next source is not one of
  // them, and if it is still there it was there from the start.
  lemma StageContext(l: Ledger, live: Objects, log: seq<Event>, staged: seq<RemoteChange>)
    requires Forward(l, live, log) && Tracks(l.pending, staged, []) && StagedSoFar(staged, l.plan)
    requires |staged| < |l.plan| && PrivateTemporaries(l.plan)
    ensures var m := l.plan[|staged|];
      && m.source !in Places(l.pending) && m.temporary !in Places(l.pending)
      && Home(l.plan, m.source, m.source) && Home(l.plan, m.source, m.temporary)
      && (m.source in live ==> m.source in l.location && m.source !in l.pending)
  {
    PrivatePlaces(l.pending, staged, l.plan);
    NotStagedYet(l.initial, live, l.pending, l.plan[|staged|].source);
  }

  lemma NotStagedYet(initial: Objects, live: Objects, pending: Pending, s: ObjectPath)
    requires Accounted(initial, live, pending) && s !in Places(pending)
    ensures s in live <==> s in initial && s !in pending
  {
  }

  lemma PrivatePlaces(pending: Pending, staged: seq<RemoteChange>, plan: seq<PlannedMove>)
    requires Tracks(pending, staged, []) && StagedSoFar(staged, plan)
    requires |staged| < |plan| && PrivateTemporaries(plan)
    ensures var m := plan[|staged|]; m.source !in Places(pending) && m.temporary !in Places(pending) && m.temporary !in pending
  {
    PlacesAreStaged(pending, staged);
    TemporariesApart(plan, |staged|);
  }

  lemma TemporariesApart(plan: seq<PlannedMove>, k: nat)
    requires PrivateTemporaries(plan) && k < |plan|
    ensures forall i :: 0 <= i < |plan| ==>
      && plan[i].temporary != plan[k].source && plan[i].temporary != plan[k].target
      && plan[k].temporary != plan[i].source && (i != k ==> plan[i].temporary != plan[k].temporary)
  {
    forall i | 0 <= i < |plan|
      ensures plan[i].temporary != plan[k].source && plan[i].temporary != plan[k].target
      ensures plan[k].temporary != plan[i].source && (i != k ==> plan[i].temporary != plan[k].temporary)
    {
      assert Apart(plan, i, k) && Apart(plan, k, i);
    }
  }

  lemma PlacesAreStaged(pending: Pending, staged: seq<RemoteChange>)
    requires Tracks(pending, staged, [])
    ensures forall p :: p in Places(pending) ==> exists i :: 0 <= i < |staged| && staged[i].target == p
  {
    forall p | p in Places(pending) ensures exists i :: 0 <= i < |staged| && staged[i].target == p {
      var s :| s in pending && pending[s].at == p;
      var i :| 0 <= i < |staged| && staged[i].source == s;
      assert pending[s] == Place(Current(staged, [], i));
    }
  }

  lemma StillAtHome(initial: Objects, live: Objects, pending: Pending, plan: seq<PlannedMove>, staged: seq<RemoteChange>)
    requires Accounted(initial, live, pending) && Tracks(pending, staged, []) && StagedSoFar(staged, plan)
    requires |staged| < |plan| && PrivateTemporaries(plan) && Executable(initial, plan)
    ensures plan[|staged|].source in live && plan[|staged|].temporary !in live
  {
    var m := plan[|staged|];
    PrivatePlaces(pending, staged, plan);
    forall i | 0 <= i < |staged| ensures staged[i].source != m.source {
      assert staged[i].source == plan[i].source;
    }
    NotStagedYet(initial, live, pending, m.source);
    NotStagedYet(initial, live, pending, m.temporary);
  }

  lemma TracksStage(pending: Pending, staged: seq<RemoteChange>, change: RemoteChange)
    requires Tracks(pending, staged, []) && change.source !in pending
    ensures Tracks(pending[change.source := Place(change)], staged + [change], [])
  {
    var next := pending[change.source := Place(change)];
    var longer := staged + [change];
    forall s | s in next ensures exists i :: 0 <= i < |longer| && longer[i].source == s {
      if s == change.source {
        assert longer[|staged|].source == s;
      } else {
        var i :| 0 <= i < |staged| && staged[i].source == s;
        assert longer[i].source == s;
      }
    }
    forall i | 0 <= i < |longer| ensures longer[i].source in next && next[longer[i].source] == Place(Current(longer, [], i)) {
      if i < |staged| { assert pending[staged[i].source] == Place(Current(staged, [], i)); }
    }
  }

  // A source that is not there cannot be moved, and failing to changes nothing.
  lemma NothingToMove(l: Ledger, before: Objects, after: Objects, log1: seq<Event>, log2: seq<Event>,
                      s: ObjectPath, b: ObjectPath, r: Result<nat, AppError>, unconfirmed: bool)
    requires Forward(l, before, log1) && s !in before
    requires Trail(log1, log2, before, s, b) && ExecuteEnds(before, after, s, b, None, r, unconfirmed)
    requires Home(l.plan, s, s) && Home(l.plan, s, b)
    ensures r.Err? && Halted(l, after, log2, r.error, unconfirmed)
  {
    TrailIsSafe(l.log0, log1, log2, l.initial, before, l.location, l.plan, s, s, b);
    ForwardIsRewindable(l, before, log1);
  }

  lemma StageOutcome(l0: Ledger, before: Objects, after: Objects, log1: seq<Event>, log2: seq<Event>,
                     staged: seq<RemoteChange>, r: Result<nat, AppError>, unconfirmed: bool)
    returns (l: Ledger)
    requires Forward(l0, before, log1) && Tracks(l0.pending, staged, []) && StagedSoFar(staged, l0.plan)
    requires |staged| < |l0.plan| && PrivateTemporaries(l0.plan)
    requires var m := l0.plan[|staged|];
      && Trail(log1, log2, before, m.source, m.temporary)
      && ExecuteEnds(before, after, m.source, m.temporary, None, r, unconfirmed)
    ensures l.initial == l0.initial && l.log0 == l0.log0 && l.plan == l0.plan
    ensures r.Ok? ==> Forward(l, after, log2)
    ensures r.Ok? ==> Tracks(l.pending, staged + [RemoteChange(l.plan[|staged|].source, l.plan[|staged|].temporary, r.value)], [])
    ensures r.Err? ==> Halted(l, after, log2, r.error, unconfirmed) && Tracks(l.pending, staged, [])
    ensures r.Err? && Regular(l0.initial, l0.plan) ==> AccountedOutside(l.initial, after, l.pending, Trio(l0.plan[|staged|]))
  {
    var m := l0.plan[|staged|];
    StageContext(l0, before, log1, staged);
    if m.source !in before {
      NothingToMove(l0, before, after, log1, log2, m.source, m.temporary, r, unconfirmed);
      l := l0;
    } else if r.Ok? {
      l := ForwardMove(l0, before, after, log1, log2, m.source, m.temporary, r.value);
      TracksStage(l0.pending, staged, RemoteChange(m.source, m.temporary, r.value));
    } else {
      l := ForwardFailure(l0, before, after, log1, log2, m.source, m.temporary, None, r.error, unconfirmed);
    }
    if r.Err? && Regular(l0.initial, l0.plan) {
      StruckMove(l0, l.pending, before, after, staged, [], |staged|, m.source, m.temporary);
    }
  }

  method StageMoves(api: StorageApi, tx: RemoteTransaction, plan: seq<PlannedMove>)
    returns (r: Result<(), AppError>, ghost l: Ledger)
    requires api.Valid() && tx.staged == [] && tx.finalized == [] && PrivateTemporaries(plan)
    modifies api, tx
    ensures api.Progress() && api.posts == old(api.posts) && AllEarned(tx.staged, api.earned) && tx.finalized == []
    ensures r.Ok? ==> |tx.staged| == |plan| && !api.StrandedHere()
    ensures l.initial == old(api.live) && l.log0 == old(api.log) && l.plan == plan
    ensures StagedSoFar(tx.staged, plan)
    ensures api.Exclusive() ==> Tracks(l.pending, tx.staged, [])
    ensures api.Exclusive() && r.Ok? ==> Forward(l, api.live, api.log)
    ensures api.Exclusive() && r.Err? ==> Halted(l, api.live, api.log, r.error, Unconfirmed(r, api.StrandedHere()))
    ensures api.Exclusive() && Unconfirmed(r, api.StrandedHere()) ==> r.error.Http? && r.error.failure.connect
    ensures old(api.Calm()) && api.Exclusive() && Executable(old(api.live), plan) ==> r.Ok?
    ensures api.Exclusive() && Regular(old(api.live), plan) ==> Foreseen(api, old(api.interrupted), r)
    ensures api.Exclusive() && r.Err? && Regular(old(api.live), plan) ==> Struck(l, api.live)
  {
    l := StartLedger(api.live, api.log, plan);
    for k := 0 to |plan|
      invariant api.Progress() && api.posts == old(api.posts) && AllEarned(tx.staged, api.earned)
      invariant |tx.staged| == k && tx.finalized == [] && !api.StrandedHere()
      invariant l.initial == old(api.live) && l.log0 == old(api.log) && l.plan == plan
      invariant StagedSoFar(tx.staged, plan)
      invariant api.Exclusive() ==> Tracks(l.pending, tx.staged, [])
      invariant api.Exclusive() ==> Forward(l, api.live, api.log)
      invariant api.Exclusive() && Regular(l.initial, plan) ==> Foreseen(api, old(api.interrupted), Result<(), AppError>.Ok(()))
    {
      ghost var deletions := api.deletions;
      r, l := StageNext(api, tx, plan, l);
      StrandedConcat(api.turns, deletions, api.deletions, |old(api.deletions)|);
      if r.Err? {
        return;
      }
    }
    r := Ok(());
  }

  // One move, its record, and the interrupt check behind it.
  method StageNext(api: StorageApi, tx: RemoteTransaction, plan: seq<PlannedMove>, ghost l0: Ledger)
    returns (r: Result<(), AppError>, ghost l: Ledger)
    requires api.Valid() && l0.plan == plan && PrivateTemporaries(plan)
    requires |tx.staged| < |plan| && tx.finalized == [] && AllEarned(tx.staged, api.earned) && StagedSoFar(tx.staged, plan)
    requires api.Exclusive() ==> Tracks(l0.pending, tx.staged, []) && Forward(l0, api.live, api.log)
    modifies api, tx
    ensures api.Progress() && api.posts == old(api.posts) && AllEarned(tx.staged, api.earned) && tx.finalized == []
    ensures r.Ok? ==> |tx.staged| == |old(tx.staged)| + 1 && !api.StrandedHere()
    ensures l.initial == l0.initial && l.log0 == l0.log0 && l.plan == plan
    ensures StagedSoFar(tx.staged, plan)
    ensures api.Exclusive() ==> Tracks(l.pending, tx.staged, [])
    ensures api.Exclusive() && r.Ok? ==> Forward(l, api.live, api.log)
    ensures api.Exclusive() && r.Err? ==> Halted(l, api.live, api.log, r.error, Unconfirmed(r, api.StrandedHere()))
    ensures api.Exclusive() && Unconfirmed(r, api.StrandedHere()) ==> r.error.Http? && r.error.failure.connect
    ensures old(api.Calm()) && api.Exclusive() && Executable(l0.initial, plan) ==> r.Ok?
    ensures api.Exclusive() && Regular(l0.initial, plan) ==> Foreseen(api, old(api.interrupted), r)
    ensures api.Exclusive() && r.Err? && Regular(l0.initial, plan) ==>
      AccountedOutside(l.initial, api.live, l.pending, Trio(plan[|old(tx.staged)|]))
  {
    var before := tx.staged;
    var planned := plan[|before|];
    var moved;
    moved, l := StageOne(api, planned, l0, before);
    if moved.Err? {
      return Err(moved.error), l;
    }
    EarnedPush(before, api.earned, RemoteChange(planned.source, planned.temporary, moved.value));
    StagedPush(before, plan, moved.value);
    tx.Stage(RemoteChange(planned.source, planned.temporary, moved.value));
    r := api.InterruptCheck();
    if r.Err? && api.Exclusive() {
      ForwardIsRewindable(l, api.live, api.log);
      if Regular(l.initial, plan) { StruckNothing(l, api.live, tx.staged, [], |before|); }
    }
  }

  method StageOne(api: StorageApi, planned: PlannedMove, ghost l0: Ledger, ghost staged: seq<RemoteChange>)
    returns (r: Result<nat, AppError>, ghost l: Ledger)
    requires api.Valid()
    requires |staged| < |l0.plan| && planned == l0.plan[|staged|] && PrivateTemporaries(l0.plan)
    requires api.Exclusive() ==> Tracks(l0.pending, staged, []) && StagedSoFar(staged, l0.plan)
    requires api.Exclusive() ==> Forward(l0, api.live, api.log)
    modifies api
    ensures api.Progress() && api.posts == old(api.posts)
    ensures r.Ok? ==> (planned.temporary, r.value) in api.earned && !api.StrandedHere()
    ensures l.initial == l0.initial && l.log0 == l0.log0 && l.plan == l0.plan
    ensures api.Exclusive() && r.Ok? ==> Forward(l, api.live, api.log)
    ensures api.Exclusive() && r.Ok? ==> Tracks(l.pending, staged + [RemoteChange(planned.source, planned.temporary, r.value)], [])
    ensures api.Exclusive() && r.Err? ==> Halted(l, api.live, api.log, r.error, Unconfirmed(r, api.StrandedHere())) && Tracks(l.pending, staged, [])
    ensures api.Exclusive() && Unconfirmed(r, api.StrandedHere()) ==> r.error.Http? && r.error.failure.connect
    ensures old(api.Calm()) && api.Exclusive() && Executable(l0.initial, l0.plan) ==> r.Ok?
    ensures api.Exclusive() && Regular(l0.initial, l0.plan) ==> Foreseen(api, old(api.interrupted), r)
    ensures api.Exclusive() && r.Err? && Regular(l0.initial, l0.plan) ==> AccountedOutside(l.initial, api.live, l.pending, Trio(planned))
  {
    l := l0;
    if api.Exclusive() && Executable(l.initial, l.plan) { StillAtHome(l.initial, api.live, l.pending, l.plan, staged); }
    r := Execute(api, planned.source, planned.temporary, None);
    if api.Exclusive() {
      l := StageOutcome(l, old(api.live), api.live, old(api.log), api.log, staged, r, Unconfirmed(r, api.StrandedHere()));
    }
  }

  // ----------------------------------------------------------- finalization

  ghost predicate FinalizedSoFar(finalized: seq<RemoteChange>, plan: seq<PlannedMove>) {
    && |finalized| <= |plan|
    && forall i :: 0 <= i < |finalized| ==> finalized[i].target == plan[i].target && !StorageApi.Reserved(plan[i].target)
  }

  lemma FinalizedPush(finalized: seq<RemoteChange>, plan: seq<PlannedMove>, source: ObjectPath, generation: nat)
    requires FinalizedSoFar(finalized, plan) && |finalized| < |plan| && !StorageApi.Reserved(plan[|finalized|].target)
    ensures FinalizedSoFar(finalized + [RemoteChange(source, plan[|finalized|].target, generation)], plan)
  {
  }

  lemma TracksFinalize(pending: Pending, staged: seq<RemoteChange>, finalized: seq<RemoteChange>, change: RemoteChange)
    requires Tracks(pending, staged, finalized) && |finalized| < |staged|
    requires change.source == staged[|finalized|].source
    ensures Tracks(pending[change.source := Place(change)], staged, finalized + [change])
  {
    var next := pending[change.source := Place(change)];
    forall i | 0 <= i < |staged|
      ensures staged[i].source in next && next[staged[i].source] == Place(Current(staged, finalized + [change], i))
    {
      assert pending[staged[i].source] == Place(Current(staged, finalized, i));
    }
  }

  lemma TracksRestored(pending: Pending, staged: seq<RemoteChange>, finalized: seq<RemoteChange>, generation: nat)
    requires Tracks(pending, staged, finalized) && |finalized| < |staged|
    ensures var c := staged[|finalized|];
      Tracks(pending[c.source := pending[c.source].(generation := generation)],
             staged[|finalized| := c.(generation := generation)], finalized)
  {
    var k := |finalized|;
    var c := staged[k];
    var changed := staged[k := c.(generation := generation)];
    assert pending[c.source] == Place(Current(staged, finalized, k));
    forall i | 0 <= i < |staged|
      ensures changed[i].source == staged[i].source
      ensures i != k ==> Current(changed, finalized, i) == Current(staged, finalized, i)
    {
    }
    var next := pending[c.source := pending[c.source].(generation := generation)];
    forall i | 0 <= i < |changed|
      ensures changed[i].source in next && next[changed[i].source] == Place(Current(changed, finalized, i))
    {
      assert pending[staged[i].source] == Place(Current(staged, finalized, i));
    }
    forall s | s in next ensures exists i :: 0 <= i < |changed| && changed[i].source == s {
      var i :| 0 <= i < |staged| && staged[i].source == s;
      assert changed[i].source == s;
    }
  }

  // The next finalization starts from a private name that is no source, and in
  // an executable plan its target has been vacated.
  lemma FinalizeContext(l: Ledger, live: Objects, log: seq<Event>, staged: seq<RemoteChange>, finalized: seq<RemoteChange>)
    requires Forward(l, live, log) && Tracks(l.pending, staged, finalized)
    requires StagedSoFar(staged, l.plan) && |staged| == |l.plan| && |finalized| < |staged|
    requires PrivateTemporaries(l.plan)
    ensures var m := l.plan[|finalized|];
      && m.source in l.pending && l.pending[m.source] == Located(m.temporary, staged[|finalized|].generation)
      && m.temporary !in l.pending && m.source in l.location
      && Home(l.plan, m.source, m.temporary) && Home(l.plan, m.source, m.target)
  {
    var m := l.plan[|finalized|];
    TemporariesApart(l.plan, |finalized|);
    assert l.pending[staged[|finalized|].source] == Place(Current(staged, finalized, |finalized|));
    assert forall i :: 0 <= i < |staged| ==> staged[i].source != m.temporary;
  }

  lemma TargetIsFree(l: Ledger, live: Objects, staged: seq<RemoteChange>, finalized: seq<RemoteChange>)
    requires Accounted(l.initial, live, l.pending) && Tracks(l.pending, staged, finalized) && Executable(l.initial, l.plan)
    requires StagedSoFar(staged, l.plan) && |staged| == |l.plan| && |finalized| < |staged|
    requires FinalizedSoFar(finalized, l.plan) && PrivateTemporaries(l.plan)
    ensures l.plan[|finalized|].target !in live
  {
    var t := l.plan[|finalized|].target;
    TargetIsNoPlace(l, staged, finalized);
    if t in l.initial {
      var i :| 0 <= i < |l.plan| && l.plan[i].source == t;
      assert staged[i].source in l.pending;
    }
    assert t in live && t !in Places(l.pending) <==> t in l.initial && t !in l.pending;
  }

  lemma TargetIsNoPlace(l: Ledger, staged: seq<RemoteChange>, finalized: seq<RemoteChange>)
    requires Tracks(l.pending, staged, finalized) && Executable(l.initial, l.plan)
    requires StagedSoFar(staged, l.plan) && |staged| == |l.plan| && |finalized| < |staged|
    requires FinalizedSoFar(finalized, l.plan) && PrivateTemporaries(l.plan)
    ensures l.plan[|finalized|].target !in Places(l.pending)
  {
    PlacesAreCurrent(l.pending, staged, finalized);
    TemporariesApart(l.plan, |finalized|);
  }

  lemma PlacesAreCurrent(pending: Pending, staged: seq<RemoteChange>, finalized: seq<RemoteChange>)
    requires Tracks(pending, staged, finalized)
    ensures forall p :: p in Places(pending) ==>
      exists i :: 0 <= i < |staged| && staged[i].source in pending && Current(staged, finalized, i).target == p
  {
    forall p | p in Places(pending)
      ensures exists i :: 0 <= i < |staged| && staged[i].source in pending && Current(staged, finalized, i).target == p
    {
      var s :| s in pending && pending[s].at == p;
      var i :| 0 <= i < |staged| && staged[i].source == s;
      assert pending[s] == Place(Current(staged, finalized, i));
    }
  }

  lemma FinalizeOutcome(l0: Ledger, before: Objects, after: Objects, log1: seq<Event>, log2: seq<Event>,
                        staged: seq<RemoteChange>, finalized: seq<RemoteChange>, r: Result<nat, AppError>, unconfirmed: bool)
    returns (l: Ledger)
    requires Forward(l0, before, log1) && Tracks(l0.pending, staged, finalized)
    requires StagedSoFar(staged, l0.plan) && |staged| == |l0.plan| && |finalized| < |staged|
    requires PrivateTemporaries(l0.plan) && l0.plan[|finalized|].source in l0.pending
    requires var m := l0.plan[|finalized|];
      && Trail(log1, log2, before, m.temporary, m.target)
      && ExecuteEnds(before, after, m.temporary, m.target, Some(staged[|finalized|].generation), r, unconfirmed)
    ensures l.initial == l0.initial && l.log0 == l0.log0 && l.plan == l0.plan
    ensures r.Ok? ==> Forward(l, after, log2)
    ensures l.pending == AfterFinalize(l0.pending, l0.plan[|finalized|], r)
    ensures r.Err? ==> Halted(l, after, log2, r.error, unconfirmed)
  {
    var m := l0.plan[|finalized|];
    FinalizeContext(l0, before, log1, staged, finalized);
    if r.Ok? {
      l := ForwardMove(l0, before, after, log1, log2, m.source, m.target, r.value);
    } else {
      l := ForwardFailure(l0, before, after, log1, log2, m.source, m.target, Some(staged[|finalized|].generation), r.error, unconfirmed);
    }
  }

  lemma FinalizeBooks(l0: Ledger, before: Objects, after: Objects, log1: seq<Event>, log2: seq<Event>,
                      staged: seq<RemoteChange>, finalized: seq<RemoteChange>, r: Result<nat, AppError>, unconfirmed: bool)
    returns (l: Ledger)
    requires Forward(l0, before, log1) && Tracks(l0.pending, staged, finalized) && PrivateTemporaries(l0.plan)
    requires StagedSoFar(staged, l0.plan) && |staged| == |l0.plan| && |finalized| < |staged| && FinalizedSoFar(finalized, l0.plan)
    requires r.Err? && RestoredMoveGeneration(r.error).Some? ==> r.error.InterruptedAfterMoveRollback?
    requires var m := l0.plan[|finalized|];
      && Trail(log1, log2, before, m.temporary, m.target)
      && ExecuteEnds(before, after, m.temporary, m.target, Some(staged[|finalized|].generation), r, unconfirmed)
    ensures l.initial == l0.initial && l.log0 == l0.log0 && l.plan == l0.plan
    ensures r.Ok? ==> Forward(l, after, log2)
    ensures r.Ok? ==> var m := l0.plan[|finalized|];
      Tracks(l.pending, staged, finalized + [RemoteChange(m.source, m.target, r.value)])
    ensures r.Err? ==> Halted(l, after, log2, r.error, unconfirmed) && Tracks(l.pending, Restored(staged, |finalized|, r.error), finalized)
    ensures r.Err? && Regular(l0.initial, l0.plan) ==> AccountedOutside(l.initial, after, l.pending, Trio(l0.plan[|finalized|]))
  {
    FinalizeContext(l0, before, log1, staged, finalized);
    l := FinalizeOutcome(l0, before, after, log1, log2, staged, finalized, r, unconfirmed);
    TracksAfterFinalize(l0.pending, l0.plan[|finalized|], staged, finalized, r);
    if r.Err? && Regular(l0.initial, l0.plan) { FinalizeStruck(l0, before, after, staged, finalized, r.error); }
  }

  lemma FinalizeStruck(l0: Ledger, before: Objects, after: Objects, staged: seq<RemoteChange>, finalized: seq<RemoteChange>, e: AppError)
    requires Accounted(l0.initial, before, l0.pending) && Tracks(l0.pending, staged, finalized)
    requires StagedSoFar(staged, l0.plan) && |staged| == |l0.plan| && |finalized| < |staged| && FinalizedSoFar(finalized, l0.plan)
    requires PrivateTemporaries(l0.plan) && Regular(l0.initial, l0.plan) && l0.plan[|finalized|].source in l0.pending
    requires Relocates(before, after, l0.plan[|finalized|].temporary, l0.plan[|finalized|].target)
    ensures var m := l0.plan[|finalized|];
      AccountedOutside(l0.initial, after, AfterFinalize(l0.pending, m, Err(e)), Trio(m))
  {
    var m := l0.plan[|finalized|];
    var next := AfterFinalize(l0.pending, m, Err(e));
    assert next - {m.source} == l0.pending - {m.source};
    StruckMove(l0, next, before, after, staged, finalized, |finalized|, m.temporary, m.target);
  }

  // The records after one finalization.
  function AfterFinalize(pending: Pending, m: PlannedMove, r: Result<nat, AppError>): Pending
    requires m.source in pending
  {
    match r
    case Ok(g) => pending[m.source := Located(m.target, g)]
    case Err(e) =>
      if e.InterruptedAfterMoveRollback? then pending[m.source := pending[m.source].(generation := e.restoredGeneration)]
      else pending
  }

  lemma TracksAfterFinalize(pending: Pending, m: PlannedMove, staged: seq<RemoteChange>, finalized: seq<RemoteChange>,
                            r: Result<nat, AppError>)
    requires Tracks(pending, staged, finalized) && |finalized| < |staged| && staged[|finalized|].source == m.source
    requires r.Err? && RestoredMoveGeneration(r.error).Some? ==> r.error.InterruptedAfterMoveRollback?
    ensures r.Ok? ==> Tracks(AfterFinalize(pending, m, r), staged, finalized + [RemoteChange(m.source, m.target, r.value)])
    ensures r.Err? ==> Tracks(AfterFinalize(pending, m, r), Restored(staged, |finalized|, r.error), finalized)
  {
    if r.Ok? {
      TracksFinalize(pending, staged, finalized, RemoteChange(m.source, m.target, r.value));
    } else if r.error.InterruptedAfterMoveRollback? {
      TracksRestored(pending, staged, finalized, r.error.restoredGeneration);
    }
  }

  method FinalizeOne(api: StorageApi, change: RemoteChange, planned: PlannedMove, ghost l0: Ledger,
                     ghost staged: seq<RemoteChange>, ghost finalized: seq<RemoteChange>)
    returns (r: Result<nat, AppError>, ghost l: Ledger)
    requires api.Valid() && |staged| == |l0.plan| && |finalized| < |staged| && change == staged[|finalized|]
    requires planned == l0.plan[|finalized|] && change.target == planned.temporary && PrivateTemporaries(l0.plan)
    requires api.Exclusive() ==> Tracks(l0.pending, staged, finalized) && StagedSoFar(staged, l0.plan) && FinalizedSoFar(finalized, l0.plan)
    requires api.Exclusive() ==> Forward(l0, api.live, api.log)
    modifies api
    ensures api.Progress() && api.posts == old(api.posts)
    ensures r.Ok? ==> (planned.target, r.value) in api.earned && !api.StrandedHere() && !StorageApi.Reserved(planned.target)
    ensures r.Err? && RestoredMoveGeneration(r.error).Some? ==> (change.target, RestoredMoveGeneration(r.error).value) in api.earned
    ensures l.initial == l0.initial && l.log0 == l0.log0 && l.plan == l0.plan
    ensures api.Exclusive() && r.Ok? ==> Forward(l, api.live, api.log)
    ensures api.Exclusive() && r.Ok? ==> Tracks(l.pending, staged, finalized + [RemoteChange(planned.source, planned.target, r.value)])
    ensures api.Exclusive() && r.Err? ==> Halted(l, api.live, api.log, r.error, Unconfirmed(r, api.StrandedHere()))
    ensures api.Exclusive() && r.Err? ==> Tracks(l.pending, Restored(staged, |finalized|, r.error), finalized)
    ensures api.Exclusive() && Unconfirmed(r, api.StrandedHere()) ==> r.error.Http? && r.error.failure.connect
    ensures old(api.Calm()) && api.Exclusive() && Executable(l0.initial, l0.plan) ==> r.Ok?
    ensures api.Exclusive() && Regular(l0.initial, l0.plan) ==> Foreseen(api, old(api.interrupted), r)
    ensures api.Exclusive() && r.Err? && Regular(l0.initial, l0.plan) ==> AccountedOutside(l.initial, api.live, l.pending, Trio(planned))
  {
    l := l0;
    if api.Exclusive() {
      FinalizeContext(l0, api.live, api.log, staged, finalized);
      if Executable(l.initial, l.plan) { TargetIsFree(l, api.live, staged, finalized); }
    }
    r := Execute(api, change.target, planned.target, Some(change.generation));
    if api.Exclusive() {
      l := FinalizeBooks(l0, old(api.live), api.live, old(api.log), api.log, staged, finalized, r,
                         Unconfirmed(r, api.StrandedHere()));
    }
  }

  method FinalizeMoves(api: StorageApi, tx: RemoteTransaction, plan: seq<PlannedMove>, ghost l0: Ledger)
    returns (r: Result<(), AppError>, ghost l: Ledger)
    requires api.Valid() && l0.plan == plan && PrivateTemporaries(plan)
    requires |tx.staged| == |plan| && tx.finalized == [] && AllEarned(tx.staged, api.earned)
    requires StagedSoFar(tx.staged, plan)
    requires api.Exclusive() ==> Tracks(l0.pending, tx.staged, []) && Forward(l0, api.live, api.log)
    modifies api, tx
    ensures api.Progress() && api.posts == old(api.posts) && AllEarned(tx.staged, api.earned) && AllEarned(tx.finalized, api.earned)
    ensures l.initial == l0.initial && l.log0 == l0.log0 && l.plan == plan
    ensures api.Exclusive() ==> Tracks(l.pending, tx.staged, tx.finalized)
    ensures r.Ok? ==> !api.StrandedHere() && |tx.finalized| == |tx.staged| == |plan| && FinalizedSoFar(tx.finalized, plan)
    ensures api.Exclusive() && r.Ok? ==> Forward(l, api.live, api.log) && StagedSoFar(tx.staged, plan)
    ensures api.Exclusive() && r.Err? ==> Halted(l, api.live, api.log, r.error, Unconfirmed(r, api.StrandedHere()))
    ensures api.Exclusive() && Unconfirmed(r, api.StrandedHere()) ==> r.error.Http? && r.error.failure.connect
    ensures old(api.Calm()) && api.Exclusive() && Executable(l0.initial, plan) ==> r.Ok?
    ensures StagedSoFar(tx.staged, plan) && FinalizedSoFar(tx.finalized, plan)
    ensures api.Exclusive() && Regular(l0.initial, plan) ==> Foreseen(api, old(api.interrupted), r)
    ensures api.Exclusive() && r.Err? && Regular(l0.initial, plan) ==> Struck(l, api.live)
  {
    l := l0;
    for index := 0 to |plan|
      invariant api.Progress() && AllEarned(tx.staged, api.earned) && AllEarned(tx.finalized, api.earned)
      invariant api.posts == old(api.posts) && !api.StrandedHere()
      invariant tx.staged == old(tx.staged) && |tx.finalized| == index
      invariant l.initial == l0.initial && l.log0 == l0.log0 && l.plan == plan
      invariant FinalizedSoFar(tx.finalized, plan)
      invariant api.Exclusive() ==> Tracks(l.pending, tx.staged, tx.finalized)
      invariant api.Exclusive() ==> Forward(l, api.live, api.log)
      invariant StagedSoFar(tx.staged, plan)
      invariant api.Exclusive() && Regular(l.initial, plan) ==> Foreseen(api, old(api.interrupted), Result<(), AppError>.Ok(()))
    {
      ghost var deletions := api.deletions;
      r, l := FinalizeNext(api, tx, plan, l);
      StrandedConcat(api.turns, deletions, api.deletions, |old(api.deletions)|);
      if r.Err? {
        return;
      }
    }
    r := Ok(());
  }

  // One finalization, its record or the restored generation, and the interrupt
  // check behind it.
  method FinalizeNext(api: StorageApi, tx: RemoteTransaction, plan: seq<PlannedMove>, ghost l0: Ledger)
    returns (r: Result<(), AppError>, ghost l: Ledger)
    requires api.Valid() && l0.plan == plan && PrivateTemporaries(plan)
    requires |tx.finalized| < |tx.staged| == |plan| && AllEarned(tx.staged, api.earned) && AllEarned(tx.finalized, api.earned)
    requires StagedSoFar(tx.staged, plan) && FinalizedSoFar(tx.finalized, plan)
    requires api.Exclusive() ==> Tracks(l0.pending, tx.staged, tx.finalized) && Forward(l0, api.live, api.log)
    modifies api, tx
    ensures api.Progress() && api.posts == old(api.posts)
    ensures AllEarned(tx.staged, api.earned) && AllEarned(tx.finalized, api.earned)
    ensures r.Ok? ==> tx.staged == old(tx.staged) && |tx.finalized| == |old(tx.finalized)| + 1 && !api.StrandedHere()
    ensures l.initial == l0.initial && l.log0 == l0.log0 && l.plan == plan
    ensures api.Exclusive() ==> Tracks(l.pending, tx.staged, tx.finalized)
    ensures api.Exclusive() && r.Ok? ==> Forward(l, api.live, api.log)
    ensures api.Exclusive() && r.Err? ==> Halted(l, api.live, api.log, r.error, Unconfirmed(r, api.StrandedHere()))
    ensures api.Exclusive() && Unconfirmed(r, api.StrandedHere()) ==> r.error.Http? && r.error.failure.connect
    ensures old(api.Calm()) && api.Exclusive() && Executable(l0.initial, plan) ==> r.Ok?
    ensures StagedSoFar(tx.staged, plan) && FinalizedSoFar(tx.finalized, plan)
    ensures api.Exclusive() && Regular(l0.initial, plan) ==> Foreseen(api, old(api.interrupted), r)
    ensures api.Exclusive() && r.Err? && Regular(l0.initial, plan) ==>
      AccountedOutside(l.initial, api.live, l.pending, Trio(plan[|old(tx.finalized)|]))
  {
    var staged, index := tx.staged, |tx.finalized|;
    ghost var finalized := tx.finalized;
    var moved;
    moved, l := FinalizeOne(api, staged[index], plan[index], l0, staged, finalized);
    if moved.Err? {
      EarnedRestored(staged, api.earned, index, moved.error);
      tx.RecordRestored(index, moved.error);
      return Err(moved.error), l;
    }
    EarnedPush(finalized, api.earned, RemoteChange(plan[index].source, plan[index].target, moved.value));
    FinalizedPush(finalized, plan, staged[index].source, moved.value);
    tx.RecordFinalized(RemoteChange(staged[index].source, plan[index].target, moved.value));
    r := api.InterruptCheck();
    if r.Err? && api.Exclusive() {
      ForwardIsRewindable(l, api.live, api.log);
      if Regular(l.initial, plan) { StruckNothing(l, api.live, staged, tx.finalized, index); }
    }
  }

  lemma EarnedRestored(staged: seq<RemoteChange>, earned: set<(ObjectPath, nat)>, index: nat, error: AppError)
    requires index < |staged| && AllEarned(staged, earned)
    requires RestoredMoveGeneration(error).Some? ==> (staged[index].target, RestoredMoveGeneration(error).value) in earned
    ensures AllEarned(Restored(staged, index, error), earned)
  {
  }

  // --------------------------------------------------------------- rollback

  // One record taken home or given up on. The others keep their places.
  lemma RewindStep(l: Ledger, before: Objects, after: Objects, log1: seq<Event>, log2: seq<Event>, s: ObjectPath)
    returns (next: Ledger)
    requires Rewindable(l, before, log1) && s in l.pending
    requires Relocates(before, after, l.pending[s].at, s) && Trail(log1, log2, before, l.pending[s].at, s)
    ensures next == l.(pending := l.pending - {s},
                       location := Relocated(l.location, before, after, s, l.pending[s].at, s))
    ensures Rewindable(next, after, log2)
  {
    var a := l.pending[s].at;
    assert Home(l.plan, s, s) by {
      var i :| 0 <= i < |l.plan| && l.plan[i].source == s && (a == s || a == l.plan[i].temporary || a == l.plan[i].target);
    }
    TrailIsSafe(l.log0, log1, log2, l.initial, before, l.location, l.plan, s, a, s);
    HeldStep(l.initial, before, after, l.location, l.plan, s, a, s);
    next := l.(pending := l.pending - {s}, location := Relocated(l.location, before, after, s, a, s));
    RewindKeepsOthers(l, before, after, s);
  }

  lemma RewindKeepsOthers(l: Ledger, before: Objects, after: Objects, s: ObjectPath)
    requires s in l.pending && Relocates(before, after, l.pending[s].at, s)
    requires forall t, u :: t in l.pending && u in l.pending && t != u ==> l.pending[t].at != l.pending[u].at
    requires forall t :: t in l.pending && l.pending[t].at !in before ==> l.pending[t].at !in l.pending
    ensures forall t :: t in l.pending && t != s ==> (l.pending[t].at in after <==> l.pending[t].at in before)
  {
    var a := l.pending[s].at;
    forall t | t in l.pending && t != s ensures l.pending[t].at in after <==> l.pending[t].at in before {
      var p := l.pending[t].at;
      if p != s && a in before && s !in before {
        assert p in after - {a, s} <==> p in before - {a, s};
      }
    }
  }

  method RollbackOne(api: StorageApi, change: RemoteChange, ghost l: Ledger, ghost holes: set<ObjectPath>)
    returns (failure: Option<AppError>, ghost next: Ledger)
    requires api.Valid() && (change.target, change.generation) in api.earned
    requires api.Exclusive() ==> Rewindable(l, api.live, api.log)
    requires api.Exclusive() ==> change.source in l.pending && l.pending[change.source] == Place(change)
    modifies api
    ensures api.Progress() && api.posts == old(api.posts)
    ensures next.initial == l.initial && next.log0 == l.log0 && next.plan == l.plan
    ensures next.pending == l.pending - {change.source}
    ensures api.Exclusive() ==> Rewindable(next, api.live, api.log)
    ensures api.Exclusive() && failure.None? && Accounted(l.initial, old(api.live), l.pending)
      ==> Accounted(l.initial, api.live, next.pending)
    ensures api.Exclusive() && failure.None? ==> change.source !in old(api.live)
    ensures api.Exclusive() ==> forall p :: p in old(api.live) && p != change.target ==> p in api.live
    ensures failure.None? ==> !api.StrandedHere()
    ensures old(api.Calm()) && api.Exclusive() && Undoable(l.initial, old(api.live), l.pending, holes) ==>
      Undoable(next.initial, api.live, next.pending, holes) && (change.source !in holes ==> failure.None?)
  {
    ghost var gentle := api.Calm() && api.Exclusive() && Undoable(l.initial, api.live, l.pending, holes);
    if gentle && change.source !in holes { ReadyToUndo(l.initial, api.live, l.pending, holes, change.source); }
    var r := api.RollbackObject(change.source, change.target, change.generation);
    next := l.(pending := l.pending - {change.source});
    if api.Exclusive() {
      next := RewindStep(l, old(api.live), api.live, old(api.log), api.log, change.source);
      if r.Ok? && Accounted(l.initial, old(api.live), l.pending) {
        AccountRollback(l.initial, old(api.live), api.live, l.pending, change.source, r.value);
      }
      KeepsOthers(old(api.live), api.live, change.target, change.source);
      if gentle && change.source in holes {
        UndoHole(l.initial, old(api.live), api.live, l.pending, holes, change.source);
      } else if gentle {
        UndoOne(l.initial, old(api.live), api.live, l.pending, holes, change.source, r.value);
      }
    }
    failure := if r.Ok? then None else Some(r.error);
  }

  lemma KeepsOthers(before: Objects, after: Objects, a: ObjectPath, b: ObjectPath)
    requires Relocates(before, after, a, b)
    ensures forall p :: p in before && p != a ==> p in after
  {
    if a in before && b !in before {
      forall p | p in before && p != a ensures p in after {
        assert p in before - {a, b};
        assert p in after - {a, b};
      }
    }
  }

  // The records a rollback still has to visit: finalized ones below j, and staged
  // ones from the end of the finalized list up to i.
  ghost predicate Remaining(all: Pending, left: Pending, staged: seq<RemoteChange>, n: nat, j: nat, i: nat) {
    && (forall s :: s in left ==> s in all && left[s] == all[s])
    && (forall k :: 0 <= k < |staged| ==> (staged[k].source in left <==> k < j || n <= k < i))
  }

  // A rollback in progress that began in state start. As long as nothing has
  // failed the books balance, and nothing without a record has been removed.
  ghost predicate Rewinding(l0: Ledger, l: Ledger, start: Objects, live: Objects, errors: seq<AppError>) {
    && l.initial == l0.initial && l.log0 == l0.log0 && l.plan == l0.plan
    && (errors == [] && Accounted(l0.initial, start, l0.pending) ==> Accounted(l0.initial, live, l.pending))
    && (forall p :: p in start && p !in Places(l0.pending) ==> p in live)
    && (errors == [] ==> forall s :: s in l0.pending && s !in l.pending && s in start ==> s in Places(l0.pending))
  }

  lemma RewindingStep(l0: Ledger, l: Ledger, next: Ledger, start: Objects, before: Objects, after: Objects,
                      errors: seq<AppError>, failure: Option<AppError>, change: RemoteChange)
    requires Rewinding(l0, l, start, before, errors)
    requires change.source in l.pending && change.source in l0.pending && l0.pending[change.source] == Place(change)
    requires next.initial == l.initial && next.log0 == l.log0 && next.plan == l.plan
    requires next.pending == l.pending - {change.source}
    requires failure.None? && Accounted(l.initial, before, l.pending) ==> Accounted(l.initial, after, next.pending)
    requires failure.None? ==> change.source !in before
    requires forall p :: p in before && p != change.target ==> p in after
    ensures Rewinding(l0, next, start, after, if failure.None? then errors else errors + [failure.value])
  {
    assert change.target in Places(l0.pending);
  }

  lemma RemainingStep(all: Pending, left: Pending, staged: seq<RemoteChange>, finalized: seq<RemoteChange>, j: nat, i: nat, k: nat)
    requires Tracks(all, staged, finalized) && Remaining(all, left, staged, |finalized|, j, i)
    requires k < |staged| && j <= |finalized| && i <= |staged|
    requires (k + 1 == j && i == |staged|) || (j == 0 && |finalized| <= k && k + 1 == i)
    ensures staged[k].source in left && left[staged[k].source] == Place(Current(staged, finalized, k))
    ensures Remaining(all, left - {staged[k].source}, staged, |finalized|, if j > 0 then j - 1 else 0, if j > 0 then i else i - 1)
  {
    assert all[staged[k].source] == Place(Current(staged, finalized, k));
  }

  lemma RemainingStart(all: Pending, staged: seq<RemoteChange>, finalized: seq<RemoteChange>)
    requires Tracks(all, staged, finalized)
    ensures Remaining(all, all, staged, |finalized|, |finalized|, |staged|)
  {
  }

  lemma NothingRemains(all: Pending, left: Pending, staged: seq<RemoteChange>, finalized: seq<RemoteChange>)
    requires Tracks(all, staged, finalized) && Remaining(all, left, staged, |finalized|, 0, 0)
    ensures left == map[]
  {
    forall s | s in all ensures s !in left {
      var i :| 0 <= i < |staged| && staged[i].source == s;
    }
  }

  // Finalized changes are undone first, then those still staged, both in reverse;
  // a staged change whose source was finalized is not visited a second time.
  method RollbackMoves(api: StorageApi, staged: seq<RemoteChange>, finalized: seq<RemoteChange>, ghost l0: Ledger,
                       ghost holes: set<ObjectPath>)
    returns (errors: seq<AppError>, ghost l: Ledger)
    requires api.Valid() && AllEarned(staged, api.earned) && AllEarned(finalized, api.earned)
    requires api.Exclusive() ==> Tracks(l0.pending, staged, finalized) && Rewindable(l0, api.live, api.log)
    modifies api
    ensures api.Progress() && api.posts == old(api.posts)
    ensures api.Exclusive() ==> Rewindable(l, api.live, api.log)
    ensures api.Exclusive() ==> l.pending == map[] && Rewinding(l0, l, old(api.live), api.live, errors)
    ensures errors == [] ==> !api.StrandedHere()
    ensures old(api.Calm()) && api.Exclusive() && Undoable(l0.initial, old(api.live), l0.pending, holes) ==>
      RestoredOutside(l0.initial, api.live, holes) && (holes == {} ==> errors == [])
  {
    errors, l := RollbackFinalized(api, staged, finalized, l0, holes);
    ghost var deletions := api.deletions;
    errors, l := RollbackStaged(api, staged, finalized, l0, l, old(api.live), errors, holes);
    StrandedConcat(api.turns, deletions, api.deletions, |old(api.deletions)|);
    if api.Exclusive() {
      NothingRemains(l0.pending, l.pending, staged, finalized);
      if Undoable(l.initial, api.live, map[], holes) { AllUndone(l.initial, api.live, holes); }
    }
  }

  method RollbackFinalized(api: StorageApi, ghost staged: seq<RemoteChange>, finalized: seq<RemoteChange>, ghost l0: Ledger,
                           ghost holes: set<ObjectPath>)
    returns (errors: seq<AppError>, ghost l: Ledger)
    requires api.Valid() && AllEarned(finalized, api.earned)
    requires api.Exclusive() ==> Tracks(l0.pending, staged, finalized) && Rewindable(l0, api.live, api.log)
    modifies api
    ensures api.Progress() && api.posts == old(api.posts)
    ensures api.Exclusive() ==> Rewindable(l, api.live, api.log) && Rewinding(l0, l, old(api.live), api.live, errors)
    ensures api.Exclusive() ==> Remaining(l0.pending, l.pending, staged, |finalized|, 0, |staged|)
    ensures errors == [] ==> !api.StrandedHere()
    ensures old(api.Calm()) && api.Exclusive() && Undoable(l0.initial, old(api.live), l0.pending, holes) ==>
      Undoable(l.initial, api.live, l.pending, holes) && (holes == {} ==> errors == [])
  {
    errors := [];
    l := l0;
    var j := |finalized|;
    if api.Exclusive() { RemainingStart(l0.pending, staged, finalized); }
    while j > 0
      invariant 0 <= j <= |finalized| && api.Progress() && api.posts == old(api.posts)
      invariant errors == [] ==> !api.StrandedHere()
      invariant api.Exclusive() ==> Rewindable(l, api.live, api.log) && Rewinding(l0, l, old(api.live), api.live, errors)
      invariant old(api.Calm()) && api.Exclusive() && Undoable(l0.initial, old(api.live), l0.pending, holes) ==>
        Undoable(l.initial, api.live, l.pending, holes) && (holes == {} ==> errors == [])
      invariant api.Exclusive() ==> Remaining(l0.pending, l.pending, staged, |finalized|, j, |staged|)
    {
      j := j - 1;
      ghost var deletions := api.deletions;
      errors, l := VisitFinalized(api, staged, finalized, j, l0, l, old(api.live), errors, holes);
      StrandedConcat(api.turns, deletions, api.deletions, |old(api.deletions)|);
    }
  }

  method VisitFinalized(api: StorageApi, ghost staged: seq<RemoteChange>, finalized: seq<RemoteChange>, j: nat,
                        ghost l0: Ledger, ghost l1: Ledger, ghost start: Objects, errors1: seq<AppError>,
                        ghost holes: set<ObjectPath>)
    returns (errors: seq<AppError>, ghost l: Ledger)
    requires api.Valid() && AllEarned(finalized, api.earned) && j < |finalized|
    requires api.Exclusive() ==> Tracks(l0.pending, staged, finalized) && Rewindable(l1, api.live, api.log)
    requires api.Exclusive() ==> Rewinding(l0, l1, start, api.live, errors1)
    requires api.Exclusive() ==> Remaining(l0.pending, l1.pending, staged, |finalized|, j + 1, |staged|)
    modifies api
    ensures api.Progress() && api.posts == old(api.posts)
    ensures api.Exclusive() ==> Rewindable(l, api.live, api.log) && Rewinding(l0, l, start, api.live, errors)
    ensures api.Exclusive() ==> Remaining(l0.pending, l.pending, staged, |finalized|, j, |staged|)
    ensures errors == [] ==> errors1 == [] && !api.StrandedHere()
    ensures old(api.Calm()) && api.Exclusive() && Undoable(l1.initial, old(api.live), l1.pending, holes) ==>
      Undoable(l.initial, api.live, l.pending, holes) && (holes == {} ==> errors == errors1)
  {
    if api.Exclusive() { RemainingStep(l0.pending, l1.pending, staged, finalized, j + 1, |staged|, j); }
    errors, l := Visit(api, finalized[j], l0, l1, start, errors1, holes);
  }

  method RollbackStaged(api: StorageApi, staged: seq<RemoteChange>, finalized: seq<RemoteChange>, ghost l0: Ledger,
                        ghost l1: Ledger, ghost start: Objects, errors1: seq<AppError>,
                        ghost holes: set<ObjectPath>)
    returns (errors: seq<AppError>, ghost l: Ledger)
    requires api.Valid() && AllEarned(staged, api.earned)
    requires api.Exclusive() ==> Tracks(l0.pending, staged, finalized) && Rewindable(l1, api.live, api.log)
    requires api.Exclusive() ==> Rewinding(l0, l1, start, api.live, errors1)
    requires api.Exclusive() ==> Remaining(l0.pending, l1.pending, staged, |finalized|, 0, |staged|)
    modifies api
    ensures api.Progress() && api.posts == old(api.posts)
    ensures api.Exclusive() ==> Rewindable(l, api.live, api.log) && Rewinding(l0, l, start, api.live, errors)
    ensures api.Exclusive() ==> Remaining(l0.pending, l.pending, staged, |finalized|, 0, 0)
    ensures errors == [] ==> errors1 == [] && !api.StrandedHere()
    ensures old(api.Calm()) && api.Exclusive() && Undoable(l1.initial, old(api.live), l1.pending, holes) ==>
      Undoable(l.initial, api.live, l.pending, holes) && (holes == {} ==> errors == errors1)
  {
    errors, l := errors1, l1;
    var finalizedSources := set c | c in finalized :: c.source;
    var i := |staged|;
    while i > 0
      invariant 0 <= i <= |staged| && api.Progress() && api.posts == old(api.posts)
      invariant errors == [] ==> errors1 == [] && !api.StrandedHere()
      invariant api.Exclusive() ==> Rewindable(l, api.live, api.log) && Rewinding(l0, l, start, api.live, errors)
      invariant old(api.Calm()) && api.Exclusive() && Undoable(l1.initial, old(api.live), l1.pending, holes) ==>
        Undoable(l.initial, api.live, l.pending, holes) && (holes == {} ==> errors == errors1)
      invariant api.Exclusive() ==> Remaining(l0.pending, l.pending, staged, |finalized|, 0, i)
    {
      i := i - 1;
      ghost var deletions := api.deletions;
      errors, l := VisitStaged(api, staged, finalized, finalizedSources, i, l0, l, start, errors, holes);
      StrandedConcat(api.turns, deletions, api.deletions, |old(api.deletions)|);
    }
  }

  // A staged change is visited unless it was finalized.
  method VisitStaged(api: StorageApi, staged: seq<RemoteChange>, ghost finalized: seq<RemoteChange>, finalizedSources: set<ObjectPath>,
                     i: nat, ghost l0: Ledger, ghost l1: Ledger, ghost start: Objects, errors1: seq<AppError>,
                     ghost holes: set<ObjectPath>)
    returns (errors: seq<AppError>, ghost l: Ledger)
    requires api.Valid() && AllEarned(staged, api.earned) && i < |staged|
    requires finalizedSources == set c | c in finalized :: c.source
    requires api.Exclusive() ==> Tracks(l0.pending, staged, finalized) && Rewindable(l1, api.live, api.log)
    requires api.Exclusive() ==> Rewinding(l0, l1, start, api.live, errors1)
    requires api.Exclusive() ==> Remaining(l0.pending, l1.pending, staged, |finalized|, 0, i + 1)
    modifies api
    ensures api.Progress() && api.posts == old(api.posts)
    ensures api.Exclusive() ==> Rewindable(l, api.live, api.log) && Rewinding(l0, l, start, api.live, errors)
    ensures api.Exclusive() ==> Remaining(l0.pending, l.pending, staged, |finalized|, 0, i)
    ensures errors == [] ==> errors1 == [] && !api.StrandedHere()
    ensures old(api.Calm()) && api.Exclusive() && Undoable(l1.initial, old(api.live), l1.pending, holes) ==>
      Undoable(l.initial, api.live, l.pending, holes) && (holes == {} ==> errors == errors1)
  {
    errors, l := errors1, l1;
    if api.Exclusive() {
      SkippedExactly(l0.pending, staged, finalized, i);
      if |finalized| <= i { RemainingStep(l0.pending, l.pending, staged, finalized, 0, i + 1, i); }
    }
    if staged[i].source !in finalizedSources {
      errors, l := Visit(api, staged[i], l0, l, start, errors, holes);
    }
  }

  lemma SkippedExactly(pending: Pending, staged: seq<RemoteChange>, finalized: seq<RemoteChange>, i: nat)
    requires Tracks(pending, staged, finalized) && i < |staged|
    ensures staged[i].source in (set c | c in finalized :: c.source) <==> i < |finalized|
  {
    if i < |finalized| { assert finalized[i] in finalized; }
  }

  method Visit(api: StorageApi, change: RemoteChange, ghost l0: Ledger, ghost l: Ledger, ghost start: Objects, errors: seq<AppError>,
               ghost holes: set<ObjectPath>)
    returns (next: seq<AppError>, ghost nextLedger: Ledger)
    requires api.Valid() && (change.target, change.generation) in api.earned
    requires api.Exclusive() ==> Rewindable(l, api.live, api.log) && Rewinding(l0, l, start, api.live, errors)
    requires api.Exclusive() ==> change.source in l.pending && l.pending[change.source] == Place(change)
    requires api.Exclusive() ==> change.source in l0.pending && l0.pending[change.source] == Place(change)
    modifies api
    ensures api.Progress() && api.posts == old(api.posts)
    ensures api.Exclusive() ==> Rewindable(nextLedger, api.live, api.log) && Rewinding(l0, nextLedger, start, api.live, next)
    ensures nextLedger.pending == l.pending - {change.source}
    ensures next == [] ==> errors == [] && !api.StrandedHere()
    ensures old(api.Calm()) && api.Exclusive() && Undoable(l.initial, old(api.live), l.pending, holes) ==>
      Undoable(nextLedger.initial, api.live, nextLedger.pending, holes) && (holes == {} ==> next == errors)
  {
    var failure: Option<AppError>;
    failure, nextLedger := RollbackOne(api, change, l, holes);
    if api.Exclusive() {
      RewindingStep(l0, l, nextLedger, start, old(api.live), api.live, errors, failure, change);
    }
    next := if failure.None? then errors else errors + [failure.value];
  }

  // ------------------------------------------------------------ the whole run

  // src/normalize.rs:119-163. With no other writer: success is the whole rename
  // at once; a plain error restores every byte, unless the schedule refused the
  // DELETE of a move or the look-up behind it; and whatever happens, every state
  // on the way is safe to stop in.
  method ProcessMovesUnlocked(api: StorageApi, plan: seq<PlannedMove>) returns (r: Result<(), AppError>)
    requires api.Valid() && PrivateTemporaries(plan)
    modifies api
    ensures api.Progress() && api.posts == old(api.posts)
    ensures api.Exclusive() ==> SafeSince(old(api.log), api.log, old(api.live), plan) && Safe(old(api.live), api.live, plan)
    ensures api.Exclusive() && r.Ok? ==> Renamed(old(api.live), api.live, plan)
    ensures r.Ok? ==> forall i :: 0 <= i < |plan| ==> !StorageApi.Reserved(plan[i].target)
    ensures api.Exclusive() && r.Err? && !NeedsRecovery(r.error) ==>
      (Contents(api.live) == Contents(old(api.live)) <==> !api.StrandedHere())
    ensures old(api.Calm()) && api.Exclusive() && Executable(old(api.live), plan) ==> r.Ok?
    ensures api.Exclusive() && OneFlaw(api.turns) && !old(api.interrupted) && Regular(old(api.live), plan) ==>
      r.Ok? || AllButOne(old(api.live), api.live, plan)
    ensures api.Exclusive() && OneSignal(api.turns) && !old(api.interrupted) && Regular(old(api.live), plan) ==>
      r.Ok? || (IsHome(r.error) && Contents(api.live) == Contents(old(api.live)))
  {
    var tx := new RemoteTransaction();
    ghost var l;
    r, l := MoveForward(api, tx, plan);
    if r.Ok? {
      return;
    }
    ghost var deletions, stranded := api.deletions, api.StrandedHere();
    r := GoBack(api, tx.staged, tx.finalized, r.error, l, Unconfirmed(r, stranded));
    StrandedConcat(api.turns, deletions, api.deletions, |old(api.deletions)|);
  }

  // Everything recorded is taken back after error e.
  method GoBack(api: StorageApi, staged: seq<RemoteChange>, finalized: seq<RemoteChange>, e: AppError, ghost l: Ledger,
                ghost unconfirmed: bool) returns (r: Result<(), AppError>)
    requires api.Valid() && AllEarned(staged, api.earned) && AllEarned(finalized, api.earned)
    requires StagedSoFar(staged, l.plan) && FinalizedSoFar(finalized, l.plan) && PrivateTemporaries(l.plan)
    requires api.Exclusive() ==> Tracks(l.pending, staged, finalized) && Halted(l, api.live, api.log, e, unconfirmed)
    requires api.Exclusive() && Regular(l.initial, l.plan) ==> Struck(l, api.live)
    modifies api
    ensures api.Progress() && api.posts == old(api.posts)
    ensures r.Err? && (r.error == e || r.error.Rollback?) && (NeedsRecovery(e) ==> NeedsRecovery(r.error))
    ensures !r.error.Rollback? ==> !api.StrandedHere()
    ensures api.Exclusive() ==> SafeSince(l.log0, api.log, l.initial, l.plan) && Safe(l.initial, api.live, l.plan)
    ensures api.Exclusive() && !NeedsRecovery(r.error) ==> (Contents(api.live) == Contents(l.initial) <==> !unconfirmed)
    ensures api.Exclusive() && old(api.Past()) && Regular(l.initial, l.plan) ==>
      && AllButOne(l.initial, api.live, l.plan)
      && (IsHome(e) && !unconfirmed ==> r.error == e && Contents(api.live) == Contents(l.initial))
  {
    ghost var holes: set<ObjectPath> := {};
    if api.Exclusive() && Regular(l.initial, l.plan) {
      holes := HolesLeft(l, api.live, staged, finalized, e, unconfirmed);
    }
    api.ClearInterruptForRollback();
    ghost var l2;
    var errors;
    errors, l2 := RollbackMoves(api, staged, finalized, l, holes);
    if api.Exclusive() {
      RunRolledBack(l, l2, old(api.live), api.live, api.log, e, unconfirmed, errors);
      if old(api.Past()) && Regular(l.initial, l.plan) { GentlyBack(l, api.live, e, unconfirmed, errors, holes); }
    }
    r := Err(WithRollback(e, errors));
  }

  lemma GentlyBack(l: Ledger, live: Objects, e: AppError, unconfirmed: bool, errors: seq<AppError>, holes: set<ObjectPath>)
    requires RestoredOutside(l.initial, live, holes) && l.plan != []
    requires holes == {} || exists k :: 0 <= k < |l.plan| && holes == Trio(l.plan[k])
    requires holes == {} ==> errors == []
    requires !NeedsRecovery(e) && !unconfirmed ==> holes == {}
    ensures AllButOne(l.initial, live, l.plan)
    ensures IsHome(e) && !unconfirmed ==> WithRollback(e, errors) == e && Contents(live) == Contents(l.initial)
  {
    SomeTrio(l.initial, live, l.plan, holes);
    assert l.initial - {} == l.initial && live - {} == live;
  }

  // At most what one move has to do with is not as it was.
  ghost predicate AllButOne(initial: Objects, live: Objects, plan: seq<PlannedMove>) {
    exists k :: 0 <= k < |plan| && RestoredOutside(initial, live, Trio(plan[k]))
  }

  lemma SomeTrio(initial: Objects, live: Objects, plan: seq<PlannedMove>, holes: set<ObjectPath>)
    requires RestoredOutside(initial, live, holes) && plan != []
    requires holes == {} || exists k :: 0 <= k < |plan| && holes == Trio(plan[k])
    ensures AllButOne(initial, live, plan)
  {
    if holes == {} {
      assert initial - {} == initial && live - {} == live;
      LessIsRestored(initial, live, Trio(plan[0]));
    }
  }

  lemma LessIsRestored(initial: Objects, live: Objects, holes: set<ObjectPath>)
    requires Contents(live) == Contents(initial)
    ensures RestoredOutside(initial, live, holes)
  {
    forall p ensures p in live - holes <==> p in initial - holes {
      assert p in Contents(live) <==> p in Contents(initial);
    }
    forall p | p in live - holes ensures live[p].content == initial[p].content {
      assert Contents(live)[p] == Contents(initial)[p];
    }
  }

  // What a failure leaves out of the books: nothing if it is plain and nothing was
  // stranded, and otherwise one move.
  lemma HolesLeft(l: Ledger, live: Objects, staged: seq<RemoteChange>, finalized: seq<RemoteChange>, e: AppError, unconfirmed: bool)
    returns (holes: set<ObjectPath>)
    requires Stopped(l, live, e, unconfirmed) && Struck(l, live) && PrivateTemporaries(l.plan) && Regular(l.initial, l.plan)
    requires Tracks(l.pending, staged, finalized) && StagedSoFar(staged, l.plan) && FinalizedSoFar(finalized, l.plan)
    ensures Undoable(l.initial, live, l.pending, holes)
    ensures holes == {} || exists k :: 0 <= k < |l.plan| && holes == Trio(l.plan[k])
    ensures holes == {} <==> !NeedsRecovery(e) && !unconfirmed
    ensures l.plan != []
  {
    var some :| 0 <= some < |l.plan| && AccountedOutside(l.initial, live, l.pending, Trio(l.plan[some]));
    if !NeedsRecovery(e) && !unconfirmed {
      holes := {};
      ExactIsUndoable(l.initial, live, l.pending);
    } else {
      var k :| 0 <= k < |l.plan| && AccountedOutside(l.initial, live, l.pending, Trio(l.plan[k]));
      holes := Trio(l.plan[k]);
      assert l.plan[k].source in holes;
      RecordsClosed(l, staged, finalized, k);
    }
    RecordsUndoable(l, live, staged, finalized, holes);
  }

  // Both phases, up to the first failure.
  method MoveForward(api: StorageApi, tx: RemoteTransaction, plan: seq<PlannedMove>)
    returns (r: Result<(), AppError>, ghost l: Ledger)
    requires api.Valid() && tx.staged == [] && tx.finalized == [] && PrivateTemporaries(plan)
    modifies api, tx
    ensures api.Progress() && api.posts == old(api.posts)
    ensures AllEarned(tx.staged, api.earned) && AllEarned(tx.finalized, api.earned)
    ensures l.initial == old(api.live) && l.log0 == old(api.log) && l.plan == plan
    ensures api.Exclusive() ==> Tracks(l.pending, tx.staged, tx.finalized)
    ensures r.Ok? ==> !api.StrandedHere() && forall i :: 0 <= i < |plan| ==> !StorageApi.Reserved(plan[i].target)
    ensures api.Exclusive() && r.Ok? ==> Renamed(old(api.live), api.live, plan)
    ensures api.Exclusive() && r.Ok? ==> SafeSince(old(api.log), api.log, old(api.live), plan) && Safe(old(api.live), api.live, plan)
    ensures api.Exclusive() && r.Err? ==> Halted(l, api.live, api.log, r.error, Unconfirmed(r, api.StrandedHere()))
    ensures old(api.Calm()) && api.Exclusive() && Executable(old(api.live), plan) ==> r.Ok?
    ensures StagedSoFar(tx.staged, plan) && FinalizedSoFar(tx.finalized, plan)
    ensures api.Exclusive() && Regular(old(api.live), plan) ==> Foreseen(api, old(api.interrupted), r)
    ensures api.Exclusive() && r.Err? && Regular(old(api.live), plan) ==> Struck(l, api.live)
    ensures api.Exclusive() && r.Err? && IsHome(r.error) ==> !api.StrandedHere()
  {
    r, l := StageMoves(api, tx, plan);
    if r.Ok? {
      ghost var deletions := api.deletions;
      r, l := FinalizeMoves(api, tx, plan, l);
      StrandedConcat(api.turns, deletions, api.deletions, |old(api.deletions)|);
    }
    if api.Exclusive() && r.Ok? { RunCompleted(l, api.live, api.log, tx.staged, tx.finalized); }
  }

  lemma RunCompleted(l: Ledger, live: Objects, log: seq<Event>, staged: seq<RemoteChange>, finalized: seq<RemoteChange>)
    requires Forward(l, live, log) && Tracks(l.pending, staged, finalized)
    requires |finalized| == |staged| == |l.plan| && StagedSoFar(staged, l.plan) && FinalizedSoFar(finalized, l.plan)
    ensures Renamed(l.initial, live, l.plan) && Safe(l.initial, live, l.plan)
  {
    HeldIsSafe(l.initial, live, l.location, l.plan);
    forall i | 0 <= i < |l.plan|
      ensures l.plan[i].source in l.pending && l.pending[l.plan[i].source].at == l.plan[i].target
    {
      assert l.pending[staged[i].source] == Place(Current(staged, finalized, i));
    }
    forall i, j | 0 <= i < j < |l.plan| ensures l.plan[i].source != l.plan[j].source {
      assert staged[i].source != staged[j].source;
    }
    forall s | s in l.pending ensures IsSource(l.plan, s) {
      var i :| 0 <= i < |staged| && staged[i].source == s;
      assert l.plan[i].source == s;
    }
    AccountedAll(l.initial, live, l.pending, l.plan);
  }

  lemma RunRolledBack(l: Ledger, l2: Ledger, halted: Objects, live: Objects, log: seq<Event>,
                      e: AppError, unconfirmed: bool, errors: seq<AppError>)
    requires Stopped(l, halted, e, unconfirmed)
    requires Rewindable(l2, live, log) && l2.pending == map[] && Rewinding(l, l2, halted, live, errors)
    ensures SafeSince(l.log0, log, l.initial, l.plan) && Safe(l.initial, live, l.plan)
    ensures errors == [] && !NeedsRecovery(e) ==> (Contents(live) == Contents(l.initial) <==> !unconfirmed)
  {
    HeldIsSafe(l2.initial, live, l2.location, l2.plan);
    if errors == [] && !NeedsRecovery(e) {
      if unconfirmed {
        var b :| b in halted && b !in Places(l.pending) && (b !in l.initial || b in l.pending);
        assert b in Contents(live) && b !in Contents(l.initial);
      } else {
        AccountedEmpty(l.initial, live);
      }
    }
  }
}
