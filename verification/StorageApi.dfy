// src/storage.rs: the requests of the storage client and the moves, restores and
// cleanups built from them. Bucket locks are held throughout (see BucketLocks).
module StorageClient {
  import opened Wrappers
  import opened Errors
  import opened ObjectPaths
  import opened ObjectStore

  datatype ObjectState = Present(generation: nat) | Missing

  // One answer of the rewrite endpoint; the continuation token carries the
  // number of calls the server still needs.
  datatype RewriteResponse = Done(generation: nat) | More(rewriteToken: nat)

  // The request never left, or was refused a connection.
  predicate StayedHere(e: AppError) {
    e.Interrupted? || e.Token? || (e.Http? && e.failure.connect)
  }

  predicate ConnectFailure(e: AppError) {
    e.Http? && e.failure.connect
  }

  // The request was refused a connection.
  predicate Refused<T>(r: Result<T, AppError>) {
    r.Err? && ConnectFailure(r.error)
  }

  // Neither success nor a plain error asks for an operator.
  predicate Plain<T>(r: Result<T, AppError>) {
    r.Ok? || !NeedsRecovery(r.error)
  }

  // From step c, the confirmation of a copy goes well and then either the DELETE
  // of the source is refused, or it goes well and the look-up after it is refused.
  predicate Strands(turns: nat -> Turn, c: nat, gone: bool) {
    && Smooth(turns(c))
    && if gone then Smooth(turns(c + 1)) && RefusedConnection(turns(c + 2)) else RefusedConnection(turns(c + 1))
  }

  // The same for a whole move: look-up, one copy call, and then as above.
  predicate StrandsMove(turns: nat -> Turn, c: nat, gone: bool) {
    Smooth(turns(c)) && Smooth(turns(c + 1)) && turns(c + 1).pages == 0 && Strands(turns, c + 2, gone)
  }

  // The bytes are at the target behind an error that claims nothing was sent; the
  // source has gone or not.
  predicate LeftBehind(after: Objects, source: ObjectPath, target: ObjectPath, gone: bool, r: Result<nat, AppError>) {
    Refused(r) && target in after && (source in after <==> !gone)
  }

  predicate RefusedConnection(turn: Turn) {
    turn.foreign == map[] && !turn.signal && turn.delivery.NotConnected?
  }

  predicate Copied(before: Objects, after: Objects, source: ObjectPath, sourceGeneration: nat,
                   target: ObjectPath, generation: nat) {
    && Matches(before, source, Some(sourceGeneration)) && target !in before
    && after == before[target := Version(generation, before[source].content)]
  }

  predicate Moved(before: Objects, after: Objects, a: ObjectPath, b: ObjectPath, generation: nat) {
    && a in before && b !in before
    && after == (before - {a})[b := Version(generation, before[a].content)]
  }

  // Errors a move can end with.
  predicate MoveError(e: AppError) {
    RequestError(e) || e.Message? || NeedsRecovery(e) || e.InterruptedAfterMoveRollback?
  }

  // How a move from a to b leaves the objects, by result. Only a refused
  // connection can hide a change behind an error that claims there was none.
  predicate MoveEnds(before: Objects, after: Objects, a: ObjectPath, b: ObjectPath,
                     expected: Option<nat>, r: Result<nat, AppError>) {
    && Relocates(before, after, a, b)
    && match r
       case Ok(g) => Moved(before, after, a, b, g) && Matches(before, a, expected)
       case Err(e) =>
         && (e.InterruptedAfterMoveRollback? ==>
               && a in before && b !in before
               && after == before[a := Version(e.restoredGeneration, before[a].content)])
         && (e.Interrupted? || e.Message? || (e.Token? && !e.reached) ==> after == before)
         && (e.Http? && e.failure.connect ==> after == before || b in after)
  }

  // The step at which the copy of a move that begins at step c has been answered.
  function CopyEnd(turns: nat -> Turn, c: nat, expected: Option<nat>): nat {
    var first := if expected.None? then c + 1 else c;
    first + 1 + turns(first).pages
  }

  // The one signal of the schedule arrives before anything is sent at its step, or
  // cuts off a request that follows the copy.
  ghost predicate UndoneSignal(turns: nat -> Turn, c: nat, expected: Option<nat>) {
    var turn := turns(Flaw(turns));
    Signals(turn) || (CutsOff(turn) && CopyEnd(turns, c, expected) <= Flaw(turns))
  }

  predicate CanMove(objects: Objects, source: ObjectPath, target: ObjectPath, expected: Option<nat>) {
    Matches(objects, source, expected) && target !in objects
  }

  // An interruption after which everything is as before, the source possibly
  // under the new generation that the error announces.
  predicate BackHome(before: Objects, after: Objects, a: ObjectPath, r: Result<nat, AppError>) {
    || (r == Err(Interrupted) && after == before)
    || (r.Err? && r.error.InterruptedAfterMoveRollback? && a in before
        && after == before[a := Version(r.error.restoredGeneration, before[a].content)])
  }

  lemma StepTrail(log0: seq<Event>, log1: seq<Event>, before: Objects, after: Objects, a: ObjectPath, b: ObjectPath)
    requires log0 <= log1 && |log1| <= |log0| + 1
    requires WellFormed(log1, after) && Relocates(before, after, a, b)
    ensures Trail(log0, log1, before, a, b)
  {
  }

  lemma TrailThen(log0: seq<Event>, log1: seq<Event>, log2: seq<Event>, before: Objects, a: ObjectPath, b: ObjectPath)
    requires Trail(log0, log1, before, a, b) && Trail(log1, log2, before, a, b)
    ensures Trail(log0, log2, before, a, b)
  {
    forall i | |log0| <= i < |log2| ensures Relocates(before, log2[i].after, a, b) {
      if i < |log1| { assert log2[i] == log1[i]; }
    }
  }

  // After the copy: the source may be gone, and undoing may go all the way back.
  lemma UndoStaysInside(log0: seq<Event>, log1: seq<Event>, log2: seq<Event>,
                        before: Objects, copied: Objects, middle: Objects, after: Objects,
                        a: ObjectPath, b: ObjectPath, generation: nat)
    requires a in before && b !in before
    requires copied == before[b := Version(generation, before[a].content)]
    requires middle == copied || middle == copied - {a}
    requires Trail(log0, log1, before, a, b) && log1 <= log2
    requires a in middle ==> (after == middle || after == middle - {b})
    requires a in middle ==> forall i :: |log1| <= i < |log2| ==> log2[i].after == after
    requires a !in middle ==> Relocates(middle, after, b, a) && Trail(log1, log2, middle, b, a)
    ensures Trail(log0, log2, before, a, b) && Relocates(before, after, a, b)
  {
    assert middle - {a, b} == before - {a, b};
    if a in middle {
      assert after - {a, b} == before - {a, b};
      forall i | |log0| <= i < |log2| ensures Relocates(before, log2[i].after, a, b) {
        if i < |log1| { assert log2[i] == log1[i]; }
      }
    } else {
      RelocatesBack(before, middle, after, a, b);
      TrailBack(log0, log1, log2, before, middle, a, b);
    }
  }

  class StorageApi {
    const turns: nat -> Turn
    ghost const initial: Objects
    var live: Objects
    var nextGeneration: nat
    var clock: nat
    var interrupted: bool
    ghost var log: seq<Event>
    ghost var earned: set<(ObjectPath, nat)>
    ghost var deletions: seq<Attempt>
    ghost var posts: seq<Post>

    constructor (turns: nat -> Turn, objects: Objects, nextGeneration: nat)
      requires FreshGeneration(objects, nextGeneration)
      ensures Valid() && live == objects && this.turns == turns && initial == objects
      ensures clock == 0 && !interrupted && log == [] && earned == {} && deletions == [] && posts == []
    {
      this.turns := turns;
      initial := objects;
      live := objects;
      this.nextGeneration := nextGeneration;
      clock, interrupted := 0, false;
      log, earned, deletions, posts := [], {}, [], [];
    }

    ghost predicate Valid()
      reads this
    {
      && WellFormed(log, live)
      && initial == (if log == [] then live else log[0].before)
      && FreshGeneration(live, nextGeneration)
      && forall x {:trigger Earned(log, x.0, x.1)} :: x in earned ==> Earned(log, x.0, x.1)
    }

    // Nobody writes while this run goes on: what holding the bucket lock buys
    // when every other writer honours it.
    ghost predicate Exclusive() {
      forall i :: turns(i).foreign == map[]
    }

    // No signal, no failure and no other writer from here on.
    ghost predicate Calm()
      reads this
    {
      !interrupted && forall i :: clock <= i ==> Smooth(turns(i))
    }

    // The next step goes smoothly.
    ghost predicate Clean()
      reads this
    {
      !interrupted && Smooth(turns(clock))
    }

    twostate predicate Progress()
      reads this
    {
      && Valid()
      && old(clock) <= clock && old(nextGeneration) <= nextGeneration
      && old(log) <= log && old(earned) <= earned
      && old(deletions) <= deletions && old(posts) <= posts
      && (old(Calm()) ==> Calm())
    }

    // A DELETE of this call, or the look-up after one, was refused a connection.
    twostate predicate StrandedHere()
      reads this
    {
      Stranded(turns, deletions, |old(deletions)|)
    }

    // An upload request of this call took effect and was never heard of again.
    twostate predicate OrphanedHere()
      reads this
    {
      Orphaned(turns, posts, |old(posts)|)
    }

    // Every step of this call went smoothly.
    twostate predicate Undisturbed()
      reads this
    {
      !old(interrupted) && forall i {:trigger turns(i)} :: old(clock) <= i < clock ==> Smooth(turns(i))
    }

    // The only step that does not go smoothly is over.
    ghost predicate Past()
      reads this
    {
      OneFlaw(turns) && Flaw(turns) < clock
    }

    // The step that does not go smoothly is over.
    ghost predicate Over()
      reads this
    {
      Flaw(turns) < clock
    }

    // No copy, no upload, no DELETE.
    twostate predicate Looking()
      reads this
    {
      earned == old(earned) && deletions == old(deletions) && posts == old(posts)
    }

    twostate predicate Unchanged()
      reads this
    {
      live == old(live) && log == old(log)
    }

    // At most one logged change.
    twostate predicate OneStep()
      reads this
    {
      |log| <= |old(log)| + 1 && (|log| == |old(log)| ==> live == old(live))
    }

    // ------------------------------------------------------------- requests

    method Send(holdsToken: bool) returns (d: Dispatched)
      requires Valid()
      modifies this
      ensures Progress()
      ensures clock == old(clock) + 1
      ensures d == Dispatch(Faced(turns(old(clock)), holdsToken), old(interrupted))
      ensures Looking()
      ensures Exclusive() || old(Calm()) ==> Unchanged()
      ensures old(Clean()) ==> Unchanged() && d == Answered && !interrupted
      ensures old(Calm()) ==> d == Answered
      ensures turns(old(clock)).foreign == map[] ==> Unchanged()
      ensures d.NotSent? && d.error.Http? ==> ConnectFailure(d.error)
      ensures d.Unanswered? ==> !ConnectFailure(d.error)
      ensures !d.Answered? ==> RequestError(d.error) && (d.error.Token? ==> !holdsToken && !d.error.reached)
      ensures interrupted ==
        (old(interrupted) || turns(old(clock)).signal || (d.Unanswered? && d.error.InterruptedAfterRequest?))
    {
      var turn := turns(clock);
      if turn.foreign != map[] {
        ghost var e := Event(Foreign, live, Interfere(live, turn.foreign, nextGeneration));
        ExtendLog(log, live, e);
        EarnedStays(log, log + [e]);
        live := Interfere(live, turn.foreign, nextGeneration);
        nextGeneration := nextGeneration + 1;
        log := log + [e];
      }
      clock := clock + 1;
      d := Dispatch(Faced(turn, holdsToken), interrupted);
      interrupted := interrupted || turn.signal || (d.Unanswered? && d.error.InterruptedAfterRequest?);
    }

    lemma EarnedStays(log0: seq<Event>, log1: seq<Event>)
      requires log0 <= log1
      ensures forall p, g :: Earned(log0, p, g) ==> Earned(log1, p, g)
    {
      forall p, g | Earned(log0, p, g) ensures Earned(log1, p, g) {
        var i :| 0 <= i < |log0| && Earns(log0[i].change, p, g);
        assert Earns(log1[i].change, p, g);
      }
    }

    // A change of this client takes effect.
    method Apply(ghost change: Change, after: Objects)
      requires Valid()
      requires !change.Foreign? && Disciplined(log + [Event(change, live, after)], |log|)
      requires FreshGeneration(after, nextGeneration + 1)
      modifies this`live, this`nextGeneration, this`log, this`earned
      ensures Valid() && live == after && nextGeneration == old(nextGeneration) + 1
      ensures log == old(log) + [Event(change, old(live), after)]
      ensures old(earned) <= earned
      ensures change.Delete? ==> earned == old(earned)
      ensures change.Create? ==> (change.path, change.version.generation) in earned
      ensures change.Copy? ==> (change.source, change.sourceGeneration) in earned
      ensures change.Copy? ==> (change.target, change.generation) in earned
    {
      ghost var e := Event(change, live, after);
      ExtendLog(log, live, e);
      EarnedStays(log, log + [e]);
      live := after;
      nextGeneration := nextGeneration + 1;
      log := log + [e];
      assert log[|log| - 1].change == change;
      match change
      case Create(p, v) =>
        assert Earns(change, p, v.generation);
        earned := earned + {(p, v.generation)};
      case Copy(s, sg, t, g) =>
        assert Earns(change, s, sg) && Earns(change, t, g);
        earned := earned + {(s, sg), (t, g)};
      case Delete(_, _) =>
      case Foreign =>
    }

    method InterruptCheck() returns (r: Result<(), AppError>)
      requires Valid()
      modifies this
      ensures Progress() && Looking() && Unchanged()
      ensures interrupted == (old(interrupted) || turns(old(clock)).signal)
      ensures r == if interrupted then Err(Interrupted) else Ok(())
      ensures old(Calm()) ==> r.Ok?
      ensures clock == old(clock) + 1 && (old(Clean()) ==> r.Ok? && !interrupted)
      ensures r.Ok? && !old(interrupted) ==> !interrupted
    {
      interrupted := interrupted || turns(clock).signal;
      clock := clock + 1;
      r := if interrupted then Err(Interrupted) else Ok(());
    }

    method ClearInterruptForRollback()
      requires Valid()
      modifies this`interrupted
      ensures Progress() && Unchanged() && !interrupted
    {
      interrupted := false;
    }

    method ObjectGeneration(path: ObjectPath, generation: Option<nat>) returns (r: Result<nat, AppError>)
      requires Valid()
      modifies this
      ensures Progress() && Looking()
      ensures Exclusive() ==> Unchanged()
      ensures r.Ok? ==> Matches(live, path, generation) && live[path].generation == r.value
      ensures r.Err? ==> RequestError(r.error) && (r.error.Token? ==> !r.error.reached)
      ensures r.Err? && HasStatus(r.error, 404) ==> !Matches(live, path, generation)
      ensures old(Calm()) ==> r.Ok? || r.error == Storage(404)
      ensures clock == old(clock) + 1
      ensures old(Clean()) ==> Unchanged() && !interrupted && (r.Ok? || r.error == Storage(404))
      ensures Refused(r) <==> RefusedAt(turns, Attempt(old(clock), old(interrupted)))
      ensures Interrupts(turns(old(clock))) && !old(interrupted) ==> r.Err? && IsInterrupted(r.error)
      ensures Signals(turns(old(clock))) && !old(interrupted) ==> r == Err(Interrupted)
      ensures (r.Ok? || HasStatus(r.error, 404)) && !old(interrupted) ==> !interrupted
    {
      var d := Send(false);
      match d
      case NotSent(error) => r := Err(error);
      case Unanswered(_, error) => r := Err(error);
      case Answered =>
        r := if Matches(live, path, generation) then Ok(live[path].generation) else Err(Storage(404));
    }

    method LookUp(path: ObjectPath, generation: Option<nat>) returns (r: Result<ObjectState, AppError>)
      requires Valid()
      modifies this
      ensures Progress() && Looking()
      ensures Exclusive() ==> Unchanged()
      ensures r.Ok? ==> (r.value.Present? <==> Matches(live, path, generation))
      ensures r.Ok? && r.value.Present? ==> r.value.generation == live[path].generation
      ensures r.Err? ==> RequestError(r.error) && (r.error.Token? ==> !r.error.reached)
      ensures old(Calm()) ==> r.Ok?
      ensures clock == old(clock) + 1
      ensures old(Clean()) ==> Unchanged() && !interrupted && r.Ok?
      ensures Refused(r) <==> RefusedAt(turns, Attempt(old(clock), old(interrupted)))
      ensures Interrupts(turns(old(clock))) && !old(interrupted) ==> r.Err? && IsInterrupted(r.error)
      ensures Signals(turns(old(clock))) && !old(interrupted) ==> r == Err(Interrupted)
      ensures r.Ok? && !old(interrupted) ==> !interrupted
    {
      var found := ObjectGeneration(path, generation);
      match found
      case Ok(g) => r := Ok(Present(g));
      case Err(error) => r := if HasStatus(error, 404) then Ok(Missing) else Err(error);
    }

    // The stored bytes, not the metadata.
    method ReadBody(path: ObjectPath) returns (r: Result<Content, AppError>)
      requires Valid()
      modifies this
      ensures Progress() && Looking()
      ensures Exclusive() ==> Unchanged()
      ensures r.Ok? ==> path in live && live[path].content == r.value
      ensures r.Err? ==> RequestError(r.error)
      ensures old(Calm()) ==> Unchanged() && (r.Ok? <==> path in live)
    {
      var d := Send(false);
      match d
      case NotSent(error) => r := Err(error);
      case Unanswered(_, error) => r := Err(error);
      case Answered =>
        r := if path in live then Ok(live[path].content) else Err(Storage(404));
    }

    method DeleteObject(path: ObjectPath, generation: nat) returns (r: Result<(), AppError>)
      requires Valid() && (path, generation) in earned
      modifies this
      ensures Progress() && earned == old(earned) && posts == old(posts)
      ensures Exclusive() ==> OneStep()
      ensures Exclusive() ==> live == old(live) || (Matches(old(live), path, Some(generation)) && live == old(live) - {path})
      ensures r.Ok? ==> path !in live && (Exclusive() ==> Matches(old(live), path, Some(generation)))
      ensures r.Err? ==> RequestError(r.error) && (r.error.Token? ==> !r.error.reached)
      ensures Exclusive() && r.Err? && StayedHere(r.error) ==> Unchanged()
      ensures old(Calm()) && Matches(old(live), path, Some(generation)) ==> r.Ok?
      ensures clock == old(clock) + 1 && (old(Clean()) && Matches(old(live), path, Some(generation)) ==> r.Ok? && !interrupted)
      ensures deletions == old(deletions) + [Attempt(old(clock), old(interrupted))]
      ensures Refused(r) <==> RefusedAt(turns, Attempt(old(clock), old(interrupted)))
      ensures RefusedConnection(turns(old(clock))) && !old(interrupted) ==> Unchanged()
      ensures Interrupts(turns(old(clock))) && !old(interrupted) ==> r.Err? && IsInterrupted(r.error)
      ensures r.Ok? && !old(interrupted) ==> !interrupted
    {
      deletions := deletions + [Attempt(clock, interrupted)];
      var d := Send(false);
      var found := Matches(live, path, Some(generation));
      if found && (d.Answered? || (d.Unanswered? && d.applied)) {
        Remove(path, generation);
      }
      r := if !d.Answered? then Err(d.error) else if found then Ok(()) else Err(Storage(404));
    }

    // The look-up that follows a DELETE.
    method Settle(path: ObjectPath) returns (r: Result<ObjectState, AppError>)
      requires Valid()
      modifies this
      ensures Progress() && earned == old(earned) && posts == old(posts)
      ensures Exclusive() ==> Unchanged()
      ensures r.Ok? ==> (r.value.Present? <==> path in live)
      ensures r.Err? ==> RequestError(r.error) && (r.error.Token? ==> !r.error.reached)
      ensures old(Calm()) ==> r.Ok?
      ensures deletions == old(deletions) + [Attempt(old(clock), old(interrupted))]
      ensures Refused(r) <==> RefusedAt(turns, Attempt(old(clock), old(interrupted)))
      ensures clock == old(clock) + 1 && (old(Clean()) ==> r.Ok?)
      ensures Interrupts(turns(old(clock))) && !old(interrupted) ==> r.Err? && IsInterrupted(r.error)
      ensures r.Ok? && !old(interrupted) ==> !interrupted
    {
      deletions := deletions + [Attempt(clock, interrupted)];
      r := LookUp(path, None);
    }

    method Remove(path: ObjectPath, generation: nat)
      requires Valid() && (path, generation) in earned && Matches(live, path, Some(generation))
      modifies this`live, this`nextGeneration, this`log, this`earned
      ensures Valid() && live == old(live) - {path} && earned == old(earned)
      ensures old(log) <= log && |log| == |old(log)| + 1 && old(nextGeneration) <= nextGeneration
    {
      assert Earned(log, (path, generation).0, (path, generation).1);
      ghost var e := Event(Delete(path, generation), live, live - {path});
      assert (log + [e])[..|log|] == log;
      Apply(Delete(path, generation), live - {path});
    }

    // -------------------------------------------------------------- rewrite

    method RewritePage(source: ObjectPath, target: ObjectPath, sourceGeneration: nat, token: Option<nat>)
      returns (r: Result<RewriteResponse, AppError>)
      requires Valid()
      modifies this
      ensures Progress() && deletions == old(deletions) && posts == old(posts)
      ensures clock == old(clock) + 1
      ensures Exclusive() ==> OneStep()
      ensures Exclusive() ==> Unchanged() || CopiedTo(old(live), live, source, sourceGeneration, target)
      ensures r.Ok? && r.value.Done? ==> (source, sourceGeneration) in earned && (target, r.value.generation) in earned
      ensures r.Ok? && r.value.Done? && Exclusive() ==> Copied(old(live), live, source, sourceGeneration, target, r.value.generation)
      ensures r.Ok? && r.value.More? ==> (Exclusive() ==> Unchanged()) && (token.Some? ==> r.value.rewriteToken < token.value)
      ensures r.Err? ==> RequestError(r.error) && (r.error.Token? ==> !r.error.reached)
      ensures Exclusive() && r.Err? && StayedHere(r.error) ==> Unchanged()
      ensures old(Calm()) && Matches(old(live), source, Some(sourceGeneration)) && target !in old(live) ==> r.Ok?
      ensures old(Calm()) && r.Ok? && r.value.More? ==> Unchanged()
      ensures old(Clean()) && turns(old(clock)).pages == 0 && Matches(old(live), source, Some(sourceGeneration)) && target !in old(live)
        ==> token.None? ==> r.Ok? && r.value.Done? && clock == old(clock) + 1 && !interrupted
      ensures r.Ok? && !old(interrupted) ==> !interrupted
      ensures r.Ok? && r.value.More? ==> r.value.rewriteToken + 1 == if token.Some? then token.value else turns(old(clock)).pages
      ensures old(Clean()) && Matches(old(live), source, Some(sourceGeneration)) && target !in old(live) ==> r.Ok?
      ensures Signals(turns(old(clock))) && !old(interrupted) ==> r == Err(Interrupted)
    {
      var work := if token.Some? then token.value else turns(clock).pages;
      var d := Send(false);
      var possible := Matches(live, source, Some(sourceGeneration)) && target !in live;
      match d
      case NotSent(error) => r := Err(error);
      case Unanswered(applied, error) =>
        if applied && possible && work == 0 {
          var _ := CompleteRewrite(source, target, sourceGeneration);
        }
        r := Err(error);
      case Answered =>
        if !Matches(live, source, Some(sourceGeneration)) {
          r := Err(Storage(404));
        } else if target in live {
          r := Err(Storage(412));
        } else if work == 0 {
          var g := CompleteRewrite(source, target, sourceGeneration);
          r := Ok(Done(g));
        } else {
          r := Ok(More(work - 1));
        }
    }

    static predicate CopiedTo(before: Objects, after: Objects, source: ObjectPath, sourceGeneration: nat, target: ObjectPath) {
      target in after && Copied(before, after, source, sourceGeneration, target, after[target].generation)
    }

    method CompleteRewrite(source: ObjectPath, target: ObjectPath, sourceGeneration: nat) returns (g: nat)
      requires Valid() && Matches(live, source, Some(sourceGeneration)) && target !in live
      modifies this`live, this`nextGeneration, this`log, this`earned
      ensures Valid() && Copied(old(live), live, source, sourceGeneration, target, g)
      ensures old(earned) <= earned && (source, sourceGeneration) in earned && (target, g) in earned
      ensures old(log) <= log && |log| == |old(log)| + 1 && old(nextGeneration) <= nextGeneration
    {
      g := nextGeneration;
      Apply(Copy(source, sourceGeneration, target, g), live[target := Version(g, live[source].content)]);
    }

    // A rewrite may need several calls; a token failure after the first of them
    // is marked as one that may have reached storage.
    method CopyObjectUnlocked(source: ObjectPath, target: ObjectPath, sourceGeneration: nat)
      returns (r: Result<nat, AppError>)
      requires Valid()
      modifies this
      ensures Progress() && deletions == old(deletions) && posts == old(posts)
      ensures Exclusive() ==> OneStep()
      ensures Exclusive() ==> Unchanged() || CopiedTo(old(live), live, source, sourceGeneration, target)
      ensures r.Ok? ==> (source, sourceGeneration) in earned && (target, r.value) in earned
      ensures r.Ok? && Exclusive() ==> Copied(old(live), live, source, sourceGeneration, target, r.value)
      ensures r.Err? ==> RequestError(r.error)
      ensures Exclusive() && r.Err? && StayedHere(r.error) ==> Unchanged()
      ensures old(Calm()) && Matches(old(live), source, Some(sourceGeneration)) && target !in old(live) ==> r.Ok?
      ensures old(Clean()) && turns(old(clock)).pages == 0 && Matches(old(live), source, Some(sourceGeneration)) && target !in old(live)
        ==> r.Ok? && clock == old(clock) + 1 && !interrupted
      ensures r.Err? && r.error.Token? ==> (r.error.reached <==> clock > old(clock) + 1)
      ensures r.Ok? && !old(interrupted) ==> !interrupted
      ensures Exclusive() && Undisturbed() && Matches(old(live), source, Some(sourceGeneration)) && target !in old(live) ==> r.Ok?
      ensures clock <= old(clock) + 1 + turns(old(clock)).pages
      ensures Exclusive() && OneFlaw(turns) && Signals(turns(Flaw(turns))) && !old(interrupted) && Matches(old(live), source, Some(sourceGeneration)) && target !in old(live) ==>
        r.Ok? || r.error == Interrupted
    {
      var rewriteToken: Option<nat> := None;
      var requestSent := false;
      while true
        invariant Progress() && deletions == old(deletions) && posts == old(posts)
        invariant Exclusive() || old(Calm()) ==> Unchanged()
        invariant requestSent == rewriteToken.Some? && (requestSent <==> clock > old(clock))
        invariant rewriteToken.None? ==> clock == old(clock) && interrupted == old(interrupted) && Unchanged()
        invariant rewriteToken.Some? ==> old(Clean()) && target !in old(live) && Matches(old(live), source, Some(sourceGeneration)) ==> turns(old(clock)).pages != 0
        invariant !old(interrupted) ==> !interrupted
        invariant rewriteToken.Some? ==> clock + rewriteToken.value == old(clock) + turns(old(clock)).pages
        decreases rewriteToken.None?, if rewriteToken.Some? then rewriteToken.value else 0
      {
        var page := RewritePage(source, target, sourceGeneration, rewriteToken);
        match page
        case Err(error) =>
          r := Err(if requestSent then MarkStorageReached(error) else error);
          return;
        case Ok(Done(g)) =>
          r := Ok(g);
          return;
        case Ok(More(token)) =>
          requestSent := true;
          rewriteToken := Some(token);
      }
    }

    // -------------------------------------------------------- confirmations

    // The generation must still be live. An interrupted lookup is handed back
    // when the caller can undo its work, and is a manual recovery otherwise.
    method ConfirmObjectGeneration(path: ObjectPath, expected: nat, propagateInterrupt: bool)
      returns (r: Result<(), AppError>)
      requires Valid()
      modifies this
      ensures Progress() && Looking()
      ensures Exclusive() ==> Unchanged()
      ensures r.Ok? ==> Matches(live, path, Some(expected))
      ensures r.Err? && r.error != Recovery ==> propagateInterrupt && IsInterrupted(r.error) && RequestError(r.error)
      ensures r.Err? && r.error.Token? ==> r.error.reached
      ensures old(Calm()) && Exclusive() && Matches(old(live), path, Some(expected)) ==> r.Ok?
      ensures clock == old(clock) + 1
      ensures old(Clean()) && Matches(old(live), path, Some(expected)) ==> Unchanged() && !interrupted && r.Ok?
      ensures propagateInterrupt && Interrupts(turns(old(clock))) && !old(interrupted) ==> r.Err? && IsInterrupted(r.error)
      ensures r.Ok? && !old(interrupted) ==> !interrupted
    {
      var state := LookUp(path, None);
      match state
      case Err(error) =>
        r := Err(if propagateInterrupt && IsInterrupted(error) then MarkStorageReached(error) else Recovery);
      case Ok(found) =>
        r := if found == Present(expected) then Ok(()) else Err(Recovery);
    }

    // ---------------------------------------------------------------- moves

    method SourceGeneration(source: ObjectPath, expected: Option<nat>) returns (r: Result<nat, AppError>)
      requires Valid()
      modifies this
      ensures Progress() && Looking()
      ensures Exclusive() ==> Unchanged()
      ensures expected.Some? ==> r == Ok(expected.value)
      ensures expected.None? && r.Ok? ==> Matches(live, source, Some(r.value))
      ensures r.Err? ==> RequestError(r.error) && (r.error.Token? ==> !r.error.reached)
      ensures old(Calm()) && Exclusive() && Matches(old(live), source, expected) ==> r.Ok?
      ensures old(Clean()) && expected.None? && source in old(live)
        ==> r.Ok? && Unchanged() && clock == old(clock) + 1 && !interrupted
      ensures r.Ok? && !old(interrupted) ==> !interrupted
      ensures clock == if expected.None? then old(clock) + 1 else old(clock)
      ensures expected.None? && Signals(turns(old(clock))) && !old(interrupted) ==> r == Err(Interrupted)
    {
      match expected
      case Some(g) => r := Ok(g);
      case None => r := ObjectGeneration(source, None);
    }

    method MoveObjectUnlocked(source: ObjectPath, target: ObjectPath, expected: Option<nat>)
      returns (r: Result<nat, AppError>)
      requires Valid()
      modifies this
      ensures Progress() && posts == old(posts)
      ensures r.Ok? ==> Matches(live, target, Some(r.value))
      ensures r.Ok? ==> (target, r.value) in earned
      ensures r.Err? ==> MoveError(r.error)
      ensures r.Err? && RestoredMoveGeneration(r.error).Some? ==>
        r.error.InterruptedAfterMoveRollback? && (source, r.error.restoredGeneration) in earned
      ensures Exclusive() ==> Trail(old(log), log, old(live), source, target)
      ensures Exclusive() ==> MoveEnds(old(live), live, source, target, expected, r)
      ensures old(Calm()) && Exclusive() && Matches(old(live), source, expected) && target !in old(live) ==> r.Ok?
      ensures Plain(r) ==> StrandedHere() ==> Refused(r)
      ensures Exclusive() && Refused(r) ==> (live == old(live) <==> !StrandedHere())
      ensures Exclusive() && !old(interrupted) && expected.None? && source in old(live) && target !in old(live) ==>
        forall gone :: StrandsMove(turns, old(clock), gone) ==> LeftBehind(live, source, target, gone, r)
      ensures r.Ok? && !old(interrupted) ==> !interrupted
      ensures Exclusive() && OneFlaw(turns) && !old(interrupted) && CanMove(old(live), source, target, expected) ==> r.Ok? || Past()
      ensures Exclusive() && OneFlaw(turns) && UndoneSignal(turns, old(clock), expected) && !old(interrupted) ==>
        CanMove(old(live), source, target, expected) ==> r.Ok? || BackHome(old(live), live, source, r)
    {
      var started := CopyForMove(source, target, expected);
      if started.Err? {
        return Err(started.error);
      }
      r := CompleteMove(old(live), old(log), source, target, started.value.0, started.value.1);
    }

    // The generation to move, and that of its copy.
    method CopyForMove(source: ObjectPath, target: ObjectPath, expected: Option<nat>) returns (r: Result<(nat, nat), AppError>)
      requires Valid()
      modifies this
      ensures Progress() && deletions == old(deletions) && posts == old(posts)
      ensures r.Ok? ==> (source, r.value.0) in earned && (target, r.value.1) in earned
      ensures r.Err? ==> RequestError(r.error)
      ensures Exclusive() ==> Trail(old(log), log, old(live), source, target)
      ensures Exclusive() && r.Ok? ==>
        Copied(old(live), live, source, r.value.0, target, r.value.1) && Matches(old(live), source, expected)
      ensures Exclusive() && r.Err? ==> MoveEnds(old(live), live, source, target, expected, Err(r.error))
      ensures Exclusive() && Refused(r) ==> live == old(live)
      ensures old(Calm()) && Exclusive() && Matches(old(live), source, expected) && target !in old(live) ==> r.Ok?
      ensures old(Clean()) && expected.None? && source in old(live) && target !in old(live) ==>
        Smooth(turns(old(clock) + 1)) && turns(old(clock) + 1).pages == 0 ==> r.Ok? && clock == old(clock) + 2 && !interrupted
      ensures r.Ok? && !old(interrupted) ==> !interrupted
      ensures Exclusive() && Undisturbed() && CanMove(old(live), source, target, expected) ==> r.Ok?
      ensures clock <= CopyEnd(turns, old(clock), expected)
      ensures Exclusive() && OneFlaw(turns) && Signals(turns(Flaw(turns))) && !old(interrupted) && CanMove(old(live), source, target, expected)
        ==> r.Ok? || r.error == Interrupted
      ensures Exclusive() && OneFlaw(turns) && !old(interrupted) && CanMove(old(live), source, target, expected) ==> r.Ok? || Past()
    {
      var found := SourceGeneration(source, expected);
      if found.Err? {
        return Err(found.error);
      }
      var copy := CopyObjectUnlocked(source, target, found.value);
      if Exclusive() {
        StepTrail(old(log), log, old(live), live, source, target);
      }
      r := if copy.Ok? then Ok((found.value, copy.value)) else Err(copy.error);
    }

    // Everything after a successful copy, undone when a signal cuts it short.
    method CompleteMove(ghost before: Objects, ghost log0: seq<Event>, source: ObjectPath, target: ObjectPath,
                        sourceGeneration: nat, targetGeneration: nat)
      returns (r: Result<nat, AppError>)
      requires Valid() && (source, sourceGeneration) in earned && (target, targetGeneration) in earned
      requires Exclusive() ==> Copied(before, live, source, sourceGeneration, target, targetGeneration)
      requires Exclusive() ==> Trail(log0, log, before, source, target)
      modifies this
      ensures Progress() && posts == old(posts)
      ensures r.Ok? ==> Matches(live, target, Some(r.value))
      ensures r.Ok? ==> r.value == targetGeneration
      ensures r.Err? ==> MoveError(r.error)
      ensures r.Err? && RestoredMoveGeneration(r.error).Some? ==>
        r.error.InterruptedAfterMoveRollback? && (source, r.error.restoredGeneration) in earned
      ensures Exclusive() ==> Trail(log0, log, before, source, target)
      ensures Exclusive() ==> MoveEnds(before, live, source, target, Some(sourceGeneration), r)
      ensures old(Calm()) && Exclusive() ==> r.Ok?
      ensures Plain(r) ==> (StrandedHere() <==> Refused(r))
      ensures Exclusive() && Refused(r) ==> live != before
      ensures Exclusive() && !old(interrupted) ==>
        forall gone :: Strands(turns, old(clock), gone) ==> LeftBehind(live, source, target, gone, r)
      ensures r.Ok? && !old(interrupted) ==> !interrupted
      ensures Exclusive() && OneFlaw(turns) && Interrupts(turns(Flaw(turns))) && !old(interrupted) ==> r.Ok? || BackHome(before, live, source, r)
      ensures Exclusive() && OneFlaw(turns) && !old(interrupted) ==> r.Ok? || Past()
    {
      var finish := FinishMove(source, target, sourceGeneration, targetGeneration);
      if Exclusive() {
        FinishEnds(before, old(live), live, source, target, sourceGeneration, targetGeneration, finish);
        StepTrail(old(log), log, before, live, source, target);
        TrailThen(log0, old(log), log, before, source, target);
      }
      if finish.Ok? {
        return Ok(targetGeneration);
      }
      if !IsInterrupted(finish.error) {
        return Err(finish.error);
      }
      ClearInterruptForRollback();
      r := UndoMove(before, old(live), log0, source, target, targetGeneration, finish.error);
    }

    static lemma FinishEnds(before: Objects, copied: Objects, after: Objects, a: ObjectPath, b: ObjectPath,
                            sourceGeneration: nat, generation: nat, finish: Result<(), AppError>)
      requires Copied(before, copied, a, sourceGeneration, b, generation)
      requires after == copied || after == copied - {a}
      requires finish.Ok? ==> a !in after
      requires finish.Err? ==> finish.error.Recovery? || (RequestError(finish.error) && (finish.error.Token? ==> finish.error.reached))
      ensures Relocates(before, after, a, b) && after != before && b in after
      ensures finish.Ok? ==> MoveEnds(before, after, a, b, Some(sourceGeneration), Ok(generation))
      ensures finish.Err? && !IsInterrupted(finish.error) ==> MoveEnds(before, after, a, b, Some(sourceGeneration), Err(finish.error))
    {
      assert after - {a, b} == before - {a, b};
    }

    method UndoMove(ghost before: Objects, ghost copied: Objects, ghost log0: seq<Event>, source: ObjectPath,
                    target: ObjectPath, targetGeneration: nat, cause: AppError)
      returns (r: Result<nat, AppError>)
      requires Valid() && (target, targetGeneration) in earned && RestoredMoveGeneration(cause).None?
      requires Exclusive() ==> source in before && target !in before && Trail(log0, log, before, source, target)
      requires Exclusive() ==> copied == before[target := Version(targetGeneration, before[source].content)]
      requires Exclusive() ==> live == copied || live == copied - {source}
      modifies this
      ensures Progress() && posts == old(posts)
      ensures r.Err? && MoveError(r.error) && !Refused(r)
      ensures Plain(r) ==> !StrandedHere()
      ensures r.Err? && RestoredMoveGeneration(r.error).Some? ==>
        r.error.InterruptedAfterMoveRollback? && (source, r.error.restoredGeneration) in earned
      ensures Exclusive() ==> Trail(log0, log, before, source, target)
      ensures Exclusive() ==> MoveEnds(before, live, source, target, None, r)
      ensures old(Calm()) && Exclusive() ==> r.error == Interrupted || r.error.InterruptedAfterMoveRollback?
    {
      var undo := RollbackInterruptedMoveUnlocked(source, target, targetGeneration);
      r := Err(Undone(undo, cause));
      if Exclusive() {
        UndoStaysInside(log0, old(log), log, before, copied, old(live), live, source, target, targetGeneration);
        UndoneEnds(before, copied, old(live), live, source, target, targetGeneration, undo, cause);
      }
    }

    static function Undone(undo: Result<Option<nat>, AppError>, cause: AppError): AppError {
      match undo
      case Ok(Some(restored)) => InterruptedAfterMoveRollback(restored)
      case Ok(None) => Interrupted
      case Err(recovery) => WithRollback(cause, [recovery])
    }

    static lemma UndoneEnds(before: Objects, copied: Objects, middle: Objects, after: Objects, a: ObjectPath, b: ObjectPath,
                            generation: nat, undo: Result<Option<nat>, AppError>, cause: AppError)
      requires a in before && b !in before && copied == before[b := Version(generation, before[a].content)]
      requires middle == copied || middle == copied - {a}
      requires Relocates(before, after, a, b)
      requires a in middle && undo.Ok? ==> undo.value.None? && after == middle - {b}
      requires a !in middle && undo.Ok? ==> undo.value.Some? && Moved(middle, after, b, a, undo.value.value)
      ensures MoveEnds(before, after, a, b, None, Err(Undone(undo, cause)))
    {
      assert copied - {b} == before;
    }

    // The part of a move after its copy, whose failures may still be undone.
    method FinishMove(source: ObjectPath, target: ObjectPath, sourceGeneration: nat, targetGeneration: nat)
      returns (r: Result<(), AppError>)
      requires Valid() && (source, sourceGeneration) in earned && (target, targetGeneration) in earned
      modifies this
      ensures Progress() && earned == old(earned) && posts == old(posts)
      ensures r.Ok? ==> Matches(live, target, Some(targetGeneration))
      ensures r.Err? ==> r.error.Message? || r.error.Recovery? || (RequestError(r.error) && (r.error.Token? ==> r.error.reached))
      ensures Exclusive() ==> OneStep()
      ensures Exclusive() ==> live == old(live) || (Matches(old(live), source, Some(sourceGeneration)) && live == old(live) - {source})
      ensures Exclusive() ==> !(r.Err? && r.error.Message?)
      ensures Exclusive() && r.Ok? ==> source !in live
      ensures old(Calm()) && Exclusive() && Separately(old(live), source, sourceGeneration, target, targetGeneration) ==> r.Ok?
      ensures Refused(r) <==> StrandedHere()
      ensures Exclusive() && !old(interrupted) && Separately(old(live), source, sourceGeneration, target, targetGeneration) ==>
        forall gone :: Strands(turns, old(clock), gone) ==> Refused(r) && (source in live <==> !gone)
      ensures r.Ok? && !old(interrupted) ==> !interrupted
      ensures Exclusive() && Undisturbed() && Separately(old(live), source, sourceGeneration, target, targetGeneration) ==> r.Ok?
      ensures Exclusive() && OneFlaw(turns) && Interrupts(turns(Flaw(turns))) && !old(interrupted) && Separately(old(live), source, sourceGeneration, target, targetGeneration) ==>
        r.Ok? || IsInterrupted(r.error)
    {
      r := ConfirmThenDelete(source, sourceGeneration, target, targetGeneration);
      if r.Ok? {
        r := SettleMove(source, target, targetGeneration, old(deletions));
      }
    }

    static predicate Separately(objects: Objects, source: ObjectPath, sourceGeneration: nat, target: ObjectPath, targetGeneration: nat) {
      source != target && Matches(objects, source, Some(sourceGeneration)) && Matches(objects, target, Some(targetGeneration))
    }

    method ConfirmThenDelete(source: ObjectPath, sourceGeneration: nat, target: ObjectPath, targetGeneration: nat)
      returns (r: Result<(), AppError>)
      requires Valid() && (source, sourceGeneration) in earned
      modifies this
      ensures Progress() && earned == old(earned) && posts == old(posts)
      ensures r.Err? ==> r.error.Recovery? || (RequestError(r.error) && (r.error.Token? ==> r.error.reached))
      ensures Exclusive() ==> OneStep()
      ensures Exclusive() ==> live == old(live) || (Matches(old(live), source, Some(sourceGeneration)) && live == old(live) - {source})
      ensures Exclusive() && r.Ok? ==> source !in live
      ensures old(Calm()) && Exclusive() && Separately(old(live), source, sourceGeneration, target, targetGeneration) ==> r.Ok?
      ensures Refused(r) <==> StrandedHere()
      ensures Exclusive() && old(Clean()) && Separately(old(live), source, sourceGeneration, target, targetGeneration) ==>
        && (RefusedConnection(turns(old(clock) + 1)) ==> Refused(r) && live == old(live))
        && (Smooth(turns(old(clock) + 1)) ==> r.Ok? && !interrupted && clock == old(clock) + 2)
      ensures r.Ok? && !old(interrupted) ==> !interrupted
      ensures Exclusive() && Undisturbed() && Separately(old(live), source, sourceGeneration, target, targetGeneration) ==> r.Ok?
      ensures Exclusive() && OneFlaw(turns) && Interrupts(turns(Flaw(turns))) && !old(interrupted) && Separately(old(live), source, sourceGeneration, target, targetGeneration) ==>
        r.Ok? || IsInterrupted(r.error)
    {
      var confirmed := ConfirmObjectGeneration(target, targetGeneration, true);
      if confirmed.Err? {
        return confirmed;
      }
      var deleted := DeleteObject(source, sourceGeneration);
      StrandedPush(turns, old(deletions), deletions[|deletions| - 1], |old(deletions)|);
      r := if deleted.Ok? then deleted else Err(MarkStorageReached(deleted.error));
    }

    method SettleMove(source: ObjectPath, target: ObjectPath, targetGeneration: nat, ghost before: seq<Attempt>)
      returns (r: Result<(), AppError>)
      requires Valid() && before <= deletions && !Stranded(turns, deletions, |before|)
      modifies this
      ensures Progress() && earned == old(earned) && posts == old(posts)
      ensures r.Ok? ==> Matches(live, target, Some(targetGeneration))
      ensures r.Err? ==> r.error.Message? || r.error.Recovery? || (RequestError(r.error) && (r.error.Token? ==> r.error.reached))
      ensures Exclusive() ==> Unchanged()
      ensures Exclusive() && source !in old(live) ==> !(r.Err? && r.error.Message?)
      ensures old(Calm()) && Exclusive() && source !in old(live) && Matches(old(live), target, Some(targetGeneration)) ==> r.Ok?
      ensures Refused(r) <==> Stranded(turns, deletions, |before|)
      ensures RefusedConnection(turns(old(clock))) && !old(interrupted) ==> Refused(r)
      ensures r.Ok? && !old(interrupted) ==> !interrupted
      ensures Exclusive() && Undisturbed() && source !in old(live) && Matches(old(live), target, Some(targetGeneration)) ==> r.Ok?
      ensures Exclusive() && OneFlaw(turns) && Interrupts(turns(Flaw(turns))) && !old(interrupted) && source !in old(live) && Matches(old(live), target, Some(targetGeneration)) ==>
        r.Ok? || IsInterrupted(r.error)
    {
      var state := Settle(source);
      StrandedPush(turns, old(deletions), deletions[|deletions| - 1], |before|);
      if state.Err? {
        return Err(MarkStorageReached(state.error));
      }
      var confirmed := ConfirmObjectGeneration(target, targetGeneration, true);
      if confirmed.Err? {
        return confirmed;
      }
      r := if state.value == Missing then Ok(()) else Err(Message);
    }

    method RollbackInterruptedMoveUnlocked(source: ObjectPath, target: ObjectPath, targetGeneration: nat)
      returns (r: Result<Option<nat>, AppError>)
      requires Valid() && (target, targetGeneration) in earned
      modifies this
      ensures Progress() && posts == old(posts)
      ensures r.Ok? && r.value.Some? ==> (source, r.value.value) in earned
      ensures Exclusive() && source in old(live) ==> OneStep() && (r.Ok? ==> r.value.None?)
      ensures Exclusive() && source in old(live) ==> live == old(live) || live == old(live) - {target}
      ensures Exclusive() && source in old(live) && r.Ok? ==> live == old(live) - {target}
      ensures Exclusive() && source !in old(live) ==>
        Relocates(old(live), live, target, source) && Trail(old(log), log, old(live), target, source)
      ensures Exclusive() && source !in old(live) && r.Ok? ==>
        r.value.Some? && Moved(old(live), live, target, source, r.value.value)
      ensures r.Ok? ==> !StrandedHere()
      ensures old(Calm()) && Exclusive() && Matches(old(live), target, Some(targetGeneration)) ==> r.Ok?
    {
      var state := LookUp(source, None);
      match state
      case Err(error) => r := Err(error);
      case Ok(Present(_)) =>
        var cleaned := CleanupObjectUnlocked(target, targetGeneration);
        r := if cleaned.Ok? then Ok(None) else Err(cleaned.error);
      case Ok(Missing) =>
        var restored := RollbackObjectUnlocked(source, target, targetGeneration);
        r := if restored.Ok? then Ok(Some(restored.value)) else Err(restored.error);
    }

    // Copies an owned target back to its missing source, then removes it.
    method RollbackObjectUnlocked(source: ObjectPath, target: ObjectPath, targetGeneration: nat)
      returns (r: Result<nat, AppError>)
      requires Valid() && (target, targetGeneration) in earned
      modifies this
      ensures Progress() && posts == old(posts)
      ensures r.Ok? ==> Matches(live, source, Some(r.value))
      ensures r.Ok? ==> (source, r.value) in earned
      ensures Exclusive() ==> Trail(old(log), log, old(live), target, source)
      ensures Exclusive() ==> Relocates(old(live), live, target, source)
      ensures Exclusive() && !Matches(old(live), target, Some(targetGeneration)) ==> live == old(live)
      ensures Exclusive() && r.Ok? ==> Moved(old(live), live, target, source, r.value)
      ensures Exclusive() && r.Ok? ==> Matches(old(live), target, Some(targetGeneration))
      ensures r.Ok? ==> !StrandedHere()
      ensures old(Calm()) && Exclusive() && source !in old(live) && Matches(old(live), target, Some(targetGeneration)) ==> r.Ok?
    {
      var sourceState := LookUp(source, None);
      if sourceState.Err? {
        return Err(sourceState.error);
      }
      if sourceState.value != Missing {
        return Err(Message);
      }
      var targetState := LookUp(target, Some(targetGeneration));
      if targetState.Err? {
        return Err(targetState.error);
      }
      if !targetState.value.Present? {
        return Err(Message);
      }
      r := RestoreCopy(source, target, targetGeneration);
    }

    method RestoreCopy(source: ObjectPath, target: ObjectPath, targetGeneration: nat)
      returns (r: Result<nat, AppError>)
      requires Valid() && (target, targetGeneration) in earned
      requires Exclusive() ==> source !in live && Matches(live, target, Some(targetGeneration))
      modifies this
      ensures Progress() && posts == old(posts)
      ensures r.Ok? ==> Matches(live, source, Some(r.value))
      ensures r.Ok? ==> (source, r.value) in earned
      ensures Exclusive() ==> Trail(old(log), log, old(live), target, source)
      ensures Exclusive() ==> Relocates(old(live), live, target, source)
      ensures Exclusive() && r.Ok? ==> Moved(old(live), live, target, source, r.value)
      ensures r.Ok? ==> !StrandedHere()
      ensures old(Calm()) && Exclusive() ==> r.Ok?
    {
      var copy := CopyObjectUnlocked(target, source, targetGeneration);
      if Exclusive() {
        StepTrail(old(log), log, old(live), live, target, source);
      }
      if copy.Err? {
        return copy;
      }
      label Copied:
      var finish := FinishRollback(source, target, copy.value, targetGeneration);
      if Exclusive() {
        assert live - {target, source} == old(live) - {target, source};
        StepTrail(old@Copied(log), log, old(live), live, target, source);
        TrailThen(old(log), old@Copied(log), log, old(live), target, source);
      }
      r := if finish.Ok? then copy else Err(finish.error);
    }

    method FinishRollback(source: ObjectPath, target: ObjectPath, sourceGeneration: nat, targetGeneration: nat)
      returns (r: Result<(), AppError>)
      requires Valid() && (target, targetGeneration) in earned
      modifies this
      ensures Progress() && earned == old(earned) && posts == old(posts)
      ensures r.Ok? ==> Matches(live, source, Some(sourceGeneration))
      ensures Exclusive() ==> OneStep()
      ensures Exclusive() ==> live == old(live) || (Matches(old(live), target, Some(targetGeneration)) && live == old(live) - {target})
      ensures r.Ok? && Exclusive() ==> target !in live
      ensures r.Ok? ==> !StrandedHere()
      ensures old(Calm()) && Exclusive() && Separately(old(live), target, targetGeneration, source, sourceGeneration) ==> r.Ok?
    {
      var confirmed := ConfirmObjectGeneration(source, sourceGeneration, false);
      if confirmed.Err? {
        return confirmed;
      }
      var left := DeleteAndSettle(target, targetGeneration);
      if left.Err? {
        return Err(left.error);
      }
      confirmed := ConfirmObjectGeneration(source, sourceGeneration, false);
      if confirmed.Err? {
        return confirmed;
      }
      r := if left.value == Missing then Ok(()) else Err(Message);
    }

    // A DELETE and the look-up behind it; after the first, late token failures are
    // marked.
    method DeleteAndSettle(path: ObjectPath, generation: nat) returns (r: Result<ObjectState, AppError>)
      requires Valid() && (path, generation) in earned
      modifies this
      ensures Progress() && earned == old(earned) && posts == old(posts)
      ensures Exclusive() ==> OneStep()
      ensures Exclusive() ==> live == old(live) || (Matches(old(live), path, Some(generation)) && live == old(live) - {path})
      ensures r.Ok? ==> (r.value.Present? <==> path in live)
      ensures r.Ok? && Exclusive() ==> path !in live
      ensures r.Ok? ==> !StrandedHere()
      ensures old(Calm()) && Exclusive() && Matches(old(live), path, Some(generation)) ==> r.Ok?
    {
      var deleted := DeleteObject(path, generation);
      if deleted.Err? {
        return Err(MarkStorageReached(deleted.error));
      }
      r := Settle(path);
      if r.Err? {
        r := Err(MarkStorageReached(r.error));
      }
    }

    // Deletes only the recorded generation and insists that nothing is left.
    method CleanupObjectUnlocked(target: ObjectPath, targetGeneration: nat) returns (r: Result<(), AppError>)
      requires Valid() && (target, targetGeneration) in earned
      modifies this
      ensures Progress() && earned == old(earned) && posts == old(posts)
      ensures Exclusive() ==> OneStep()
      ensures Exclusive() ==> live == old(live) || (Matches(old(live), target, Some(targetGeneration)) && live == old(live) - {target})
      ensures r.Ok? ==> target !in live
      ensures Exclusive() && r.Ok? ==> live == old(live) - {target}
      ensures r.Ok? ==> !StrandedHere()
      ensures old(Calm()) && Exclusive() && (target in old(live) ==> Matches(old(live), target, Some(targetGeneration))) ==> r.Ok?
    {
      var state := LookUp(target, Some(targetGeneration));
      if state.Err? {
        return Err(state.error);
      }
      if state.value.Present? {
        var deleted := DeleteObject(target, targetGeneration);
        if deleted.Err? {
          return Err(MarkStorageReached(deleted.error));
        }
      }
      var left := Settle(target);
      if left.Err? {
        return Err(MarkStorageReached(left.error));
      }
      r := if left.value == Missing then Ok(()) else Err(Message);
    }

    // ------------------------------------- operations and their confirmation

    // The lock object itself is never an operand.
    static predicate Reserved(path: ObjectPath) {
      path.name == BUCKET_LOCK_OBJECT
    }

    method MoveObject(source: ObjectPath, target: ObjectPath, expected: Option<nat>) returns (r: Result<nat, AppError>)
      requires Valid()
      modifies this
      ensures Progress() && posts == old(posts)
      ensures r.Ok? ==> Matches(live, target, Some(r.value))
      ensures r.Ok? ==> (target, r.value) in earned
      ensures r.Err? ==> MoveError(r.error)
      ensures r.Err? && RestoredMoveGeneration(r.error).Some? ==>
        r.error.InterruptedAfterMoveRollback? && (source, r.error.restoredGeneration) in earned
      ensures Exclusive() ==> Trail(old(log), log, old(live), source, target)
      ensures Exclusive() ==> MoveEnds(old(live), live, source, target, expected, r)
      ensures r.Ok? ==> !Reserved(source) && !Reserved(target)
      ensures old(Calm()) && Exclusive() && Matches(old(live), source, expected) && target !in old(live)
        ==> !Reserved(source) && !Reserved(target) ==> r.Ok?
      ensures Plain(r) ==> StrandedHere() ==> Refused(r)
      ensures Exclusive() && Refused(r) ==> (live == old(live) <==> !StrandedHere())
      ensures Exclusive() && !old(interrupted) && expected.None? && source in old(live) && target !in old(live) ==>
        !Reserved(source) && !Reserved(target) ==>
        forall gone :: StrandsMove(turns, old(clock), gone) ==> LeftBehind(live, source, target, gone, r)
      ensures r.Ok? && !old(interrupted) ==> !interrupted
      ensures Exclusive() && OneFlaw(turns) && !old(interrupted) && CanMove(old(live), source, target, expected) ==>
        !Reserved(source) && !Reserved(target) ==> r.Ok? || Past()
      ensures Exclusive() && OneFlaw(turns) && UndoneSignal(turns, old(clock), expected) && !old(interrupted) ==>
        CanMove(old(live), source, target, expected) && !Reserved(source) && !Reserved(target) ==>
        r.Ok? || BackHome(old(live), live, source, r)
    {
      if Reserved(source) || Reserved(target) {
        return Err(Message);
      }
      r := MoveObjectUnlocked(source, target, expected);
    }

    method RollbackObject(source: ObjectPath, target: ObjectPath, targetGeneration: nat) returns (r: Result<nat, AppError>)
      requires Valid() && (target, targetGeneration) in earned
      modifies this
      ensures Progress() && posts == old(posts)
      ensures r.Ok? ==> Matches(live, source, Some(r.value))
      ensures r.Ok? ==> (source, r.value) in earned
      ensures Exclusive() ==> Trail(old(log), log, old(live), target, source)
      ensures Exclusive() ==> Relocates(old(live), live, target, source)
      ensures Exclusive() && !Matches(old(live), target, Some(targetGeneration)) ==> live == old(live)
      ensures Exclusive() && r.Ok? ==> Moved(old(live), live, target, source, r.value)
      ensures Exclusive() && r.Ok? ==> Matches(old(live), target, Some(targetGeneration))
      ensures r.Ok? ==> !StrandedHere()
      ensures Reserved(source) || Reserved(target) ==> r == Err(Message) && Unchanged() && clock == old(clock)
      ensures old(Calm()) && Exclusive() && source !in old(live) && Matches(old(live), target, Some(targetGeneration))
        ==> !Reserved(source) && !Reserved(target) ==> r.Ok?
    {
      if Reserved(source) || Reserved(target) {
        return Err(Message);
      }
      r := RollbackObjectUnlocked(source, target, targetGeneration);
    }

    method CleanupObject(target: ObjectPath, targetGeneration: nat) returns (r: Result<(), AppError>)
      requires Valid() && (target, targetGeneration) in earned
      modifies this
      ensures Progress() && earned == old(earned) && posts == old(posts)
      ensures Exclusive() ==> OneStep()
      ensures Exclusive() ==> live == old(live) || (Matches(old(live), target, Some(targetGeneration)) && live == old(live) - {target})
      ensures Exclusive() && r.Ok? ==> live == old(live) - {target}
      ensures r.Ok? ==> !StrandedHere()
      ensures Reserved(target) ==> r == Err(Message) && Unchanged() && clock == old(clock)
      ensures old(Calm()) && Exclusive() && (target in old(live) ==> Matches(old(live), target, Some(targetGeneration)))
        ==> !Reserved(target) ==> r.Ok?
    {
      if Reserved(target) {
        return Err(Message);
      }
      r := CleanupObjectUnlocked(target, targetGeneration);
    }

    method ConfirmMoveAfterFailure(source: ObjectPath, target: ObjectPath, operation: AppError)
      returns (r: Result<(), AppError>)
      requires Valid()
      modifies this
      ensures Progress() && Looking()
      ensures Exclusive() ==> Unchanged()
      ensures r.Err? ==> r.error == Recovery
      ensures !MayHaveReachedStorage(operation) ==> r.Ok?
      ensures MayHaveSentStorageRequest(operation) ==> r.Err?
      ensures Exclusive() && r.Ok? && MayHaveReachedStorage(operation) ==> source in live && target !in live
    {
      if !MayHaveReachedStorage(operation) {
        return Ok(());
      }
      var sourceState := LookUp(source, None);
      var targetState := LookUp(target, None);
      var noChange := sourceState.Ok? && targetState.Ok? && sourceState.value.Present? && targetState.value.Missing?;
      r := if noChange && !MayHaveSentStorageRequest(operation) then Ok(()) else Err(Recovery);
    }

    method ConfirmWriteAfterFailure(target: ObjectPath, operation: AppError) returns (r: Result<(), AppError>)
      requires Valid()
      modifies this
      ensures Progress() && Looking()
      ensures Exclusive() ==> Unchanged()
      ensures r.Err? ==> r.error == Recovery
      ensures !MayHaveReachedStorage(operation) ==> r.Ok?
      ensures MayHaveSentStorageRequest(operation) ==> r.Err?
      ensures r.Ok? && MayHaveReachedStorage(operation) ==> target !in live
    {
      if !MayHaveReachedStorage(operation) {
        return Ok(());
      }
      var state := LookUp(target, None);
      r := if state == Ok(Missing) && !MayHaveSentStorageRequest(operation) then Ok(()) else Err(Recovery);
    }

    // -------------------------------------------------------------- uploads

    method ReadSource() returns (look: LocalRead)
      requires Valid()
      modifies this
      ensures Progress() && Unchanged() && Looking()
      ensures look == turns(old(clock)).localRead && interrupted == old(interrupted) && clock == old(clock) + 1
      ensures old(Calm()) ==> look == Readable
    {
      look := turns(clock).localRead;
      clock := clock + 1;
    }

    method Token() returns (r: Result<(), AppError>)
      requires Valid()
      modifies this
      ensures Progress() && Unchanged() && Looking()
      ensures r.Err? ==> r.error.Token? && !r.error.reached
      ensures old(Calm()) ==> r.Ok?
      ensures clock == old(clock) + 1 && interrupted == old(interrupted)
      ensures !turns(old(clock)).delivery.TokenFailed? ==> r.Ok?
    {
      var delivery := turns(clock).delivery;
      clock := clock + 1;
      r := if delivery.TokenFailed? then Err(AppError.Token(delivery.cause, false)) else Ok(());
    }

    // One media upload that creates the target only where nothing is.
    method CreateObject(target: ObjectPath, content: Content) returns (r: Result<nat, AppError>)
      requires Valid()
      modifies this
      ensures Progress() && deletions == old(deletions)
      ensures Exclusive() ==> OneStep()
      ensures Exclusive() ==> Unchanged() || Created(old(live), live, target, content)
      ensures r.Ok? ==> (target, r.value) in earned
      ensures r.Ok? && Exclusive() ==> Created(old(live), live, target, content) && live[target].generation == r.value
      ensures r.Err? ==> RequestError(r.error) && (r.error.Token? ==> !r.error.reached)
      ensures Exclusive() && target in old(live) ==> r.Err?
      ensures old(Calm()) && target !in old(live) ==> r.Ok?
      ensures Exclusive() && r.Err? && (StayedHere(r.error) || HasStatus(r.error, 412)) ==> Unchanged()
      ensures r.Err? && HasStatus(r.error, 412) ==> target in live
      ensures Exclusive() && live != old(live) ==> (target, live[target].generation) in earned
      ensures posts == old(posts) + [Post(old(clock), old(interrupted), false, true)] && clock == old(clock) + 1
      ensures Exclusive() ==> (live != old(live) <==> target !in old(live) && TookEffect(turns, posts[|posts| - 1]))
      ensures r.Ok? ==> Met(turns, posts[|posts| - 1]).Answered?
      ensures Met(turns, posts[|posts| - 1]).Answered? ==> r.Ok? || r.error == Storage(412)
      ensures !Met(turns, posts[|posts| - 1]).Answered? ==> r == Err(Met(turns, posts[|posts| - 1]).error)
      ensures !old(interrupted) && !turns(old(clock)).signal && !CutsOff(turns(old(clock))) && turns(old(clock)).foreign == map[] ==> !interrupted
    {
      posts := posts + [Post(clock, interrupted, false, true)];
      var d := Send(false);
      var free, g := target !in live, 0;
      if free && (d.Answered? || (d.Unanswered? && d.applied)) {
        g := StoreObject(target, content);
      }
      r := if !d.Answered? then Err(d.error) else if free then Ok(g) else Err(Storage(412));
    }

    static predicate Created(before: Objects, after: Objects, target: ObjectPath, content: Content) {
      && target !in before && target in after && after[target].content == content
      && after == before[target := after[target]]
    }

    method StoreObject(target: ObjectPath, content: Content) returns (g: nat)
      requires Valid() && target !in live
      modifies this`live, this`nextGeneration, this`log, this`earned
      ensures Valid() && live == old(live)[target := Version(g, content)]
      ensures old(earned) <= earned && (target, g) in earned
      ensures old(log) <= log && |log| == |old(log)| + 1 && old(nextGeneration) <= nextGeneration
    {
      g := nextGeneration;
      Apply(Create(target, Version(g, content)), live[target := Version(g, content)]);
    }
  }
}
