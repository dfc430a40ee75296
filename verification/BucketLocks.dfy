// src/storage.rs:246-450: the bracket that holds bucket locks around an
// operation, and its re-entry by the operations inside. Other clients of the
// same locks are the subject of LockProtocol; here nobody else writes.
module BucketLocks {
  import opened Wrappers
  import opened Errors
  import opened ObjectPaths
  import opened ObjectStore
  import opened StorageClient

  // -------------------------------------------------------- bucket selection

  predicate Less(a: string, b: string) {
    b != "" && (a == "" || a[0] < b[0] || (a[0] == b[0] && Less(a[1..], b[1..])))
  }

  lemma {:induction false} LessIsStrict(a: string, b: string, c: string)
    ensures !Less(a, a)
    ensures a == b || Less(a, b) || Less(b, a)
    ensures Less(a, b) && Less(b, c) ==> Less(a, c)
  {
    if a != "" {
      LessIsStrict(a[1..], if b == "" then b else b[1..], if c == "" then c else c[1..]);
      if b != "" && a[0] == b[0] && a[1..] == b[1..] {
        assert a == [a[0]] + a[1..] && b == [b[0]] + b[1..];
      }
    }
  }

  predicate Increasing(s: seq<string>) {
    forall i, j :: 0 <= i < j < |s| ==> Less(s[i], s[j])
  }

  function Insert(x: string, s: seq<string>): seq<string> {
    if s == [] then [x]
    else if s[0] == x then s
    else if Less(x, s[0]) then [x] + s
    else [s[0]] + Insert(x, s[1..])
  }

  function SortedDistinct(s: seq<string>): seq<string> {
    if s == [] then [] else Insert(s[0], SortedDistinct(s[1..]))
  }

  // The locks an operation has to take: those not held already, in order.
  function NotHeld(buckets: seq<string>, active: set<string>): seq<string> {
    Without(SortedDistinct(buckets), active)
  }

  function Without(s: seq<string>, active: set<string>): seq<string> {
    if s == [] then []
    else (if s[0] in active then [] else [s[0]]) + Without(s[1..], active)
  }

  lemma {:induction false} InsertKeepsOrder(x: string, s: seq<string>)
    requires Increasing(s)
    ensures Increasing(Insert(x, s))
    ensures forall y :: y in Insert(x, s) <==> y == x || y in s
  {
    if s != [] && s[0] != x {
      LessIsStrict(x, s[0], x);
      if Less(x, s[0]) {
        forall j | 0 <= j < |s| ensures Less(x, s[j]) { LessIsStrict(x, s[0], s[j]); }
      } else {
        InsertKeepsOrder(x, s[1..]);
        var rest := Insert(x, s[1..]);
        forall j | 0 <= j < |rest| ensures Less(s[0], rest[j]) { assert rest[j] in rest; }
      }
    }
  }

  lemma {:induction false} SortedDistinctIsExact(s: seq<string>)
    ensures Increasing(SortedDistinct(s))
    ensures forall y :: y in SortedDistinct(s) <==> y in s
  {
    if s != [] {
      SortedDistinctIsExact(s[1..]);
      InsertKeepsOrder(s[0], SortedDistinct(s[1..]));
    }
  }

  lemma {:induction false} WithoutIsExact(s: seq<string>, active: set<string>)
    requires Increasing(s)
    ensures Increasing(Without(s, active))
    ensures forall y :: y in Without(s, active) <==> y in s && y !in active
  {
    if s != [] {
      WithoutIsExact(s[1..], active);
      var rest := Without(s[1..], active);
      forall j | 0 <= j < |rest| ensures Less(s[0], rest[j]) { assert rest[j] in rest; }
    }
  }

  // Locks are asked for in strictly increasing order, each once, and only where
  // they are not held: whatever the caller's list looked like.
  lemma NotHeldIsExact(buckets: seq<string>, active: set<string>)
    ensures Increasing(NotHeld(buckets, active))
    ensures NoRepeats(NotHeld(buckets, active))
    ensures forall y :: y in NotHeld(buckets, active) <==> y in buckets && y !in active
  {
    SortedDistinctIsExact(buckets);
    WithoutIsExact(SortedDistinct(buckets), active);
    var m := NotHeld(buckets, active);
    forall i, j | 0 <= i < j < |m| ensures m[i] != m[j] { LessIsStrict(m[i], m[j], m[i]); }
  }

  // ------------------------------------------------------------ lock objects

  datatype BucketLock = BucketLock(bucket: string, generation: nat)

  // Lock requests in the order in which they are sent.
  datatype LockRequest = TakeLock(bucket: string) | DropLock(bucket: string)

  function LockPath(bucket: string): ObjectPath {
    ObjectPath(bucket, BUCKET_LOCK_OBJECT)
  }

  function ToSet(s: seq<string>): set<string> {
    set x | x in s
  }

  function Creates(buckets: seq<string>): seq<LockRequest> {
    seq(|buckets|, i requires 0 <= i < |buckets| => TakeLock(buckets[i]))
  }

  // From the last bucket down to bucket i.
  function ReleasesDownTo(buckets: seq<string>, i: nat): seq<LockRequest>
    requires i <= |buckets|
    decreases |buckets| - i
  {
    if i == |buckets| then [] else ReleasesDownTo(buckets, i + 1) + [DropLock(buckets[i])]
  }

  function Releases(buckets: seq<string>): seq<LockRequest> {
    ReleasesDownTo(buckets, 0)
  }

  // No lock object of before is touched.
  predicate LocksKept(before: Objects, after: Objects) {
    forall p :: p in before && StorageApi.Reserved(p) ==> p in after && after[p] == before[p]
  }

  predicate LocksEqual(before: Objects, after: Objects) {
    LocksKept(before, after) && forall p :: p in after && StorageApi.Reserved(p) ==> p in before
  }

  function LockPaths(locks: seq<BucketLock>): set<ObjectPath> {
    set i | 0 <= i < |locks| :: LockPath(locks[i].bucket)
  }

  // Nothing but the given locks differs, and those are gone or untouched.
  predicate OnlyReleased(before: Objects, after: Objects, locks: seq<BucketLock>) {
    && (forall p :: p in after ==> p in before && after[p] == before[p])
    && before.Keys <= after.Keys + LockPaths(locks)
  }

  function BucketsOf(locks: seq<BucketLock>): seq<string> {
    seq(|locks|, i requires 0 <= i < |locks| => locks[i].bucket)
  }

  predicate Live(locks: seq<BucketLock>, live: Objects) {
    forall i :: 0 <= i < |locks| ==> Matches(live, LockPath(locks[i].bucket), Some(locks[i].generation))
  }

  predicate OwnLocks(locks: seq<BucketLock>, earned: set<(ObjectPath, nat)>) {
    forall i :: 0 <= i < |locks| ==> (LockPath(locks[i].bucket), locks[i].generation) in earned
  }

  predicate DistinctBuckets(locks: seq<BucketLock>) {
    forall i, j :: 0 <= i < j < |locks| ==> locks[i].bucket != locks[j].bucket
  }

  // ----------------------------------------------------------------- programs

  // What workflows build out of brackets: requests, sequences that stop at the
  // first error, undo steps that run after an error, and nested brackets.
  datatype Program =
    | Done(result: Result<(), AppError>)
    | MoveUnlocked(source: ObjectPath, target: ObjectPath, expected: Option<nat>)
    | Move(source: ObjectPath, target: ObjectPath, expected: Option<nat>)
    | Then(first: Program, rest: Program)
    | Undo(first: Program, rest: Program)
    | Locked(buckets: seq<string>, body: Program)

  // Unlocked requests appear only where the buckets are held.
  predicate Permitted(p: Program, active: set<string>) {
    match p
    case Done(_) => true
    case Move(_, _, _) => true
    case MoveUnlocked(s, t, _) =>
      s.bucket in active && t.bucket in active && !StorageApi.Reserved(s) && !StorageApi.Reserved(t)
    case Then(first, rest) => Permitted(first, active) && Permitted(rest, active)
    case Undo(first, rest) => Permitted(first, active) && Permitted(rest, active)
    case Locked(buckets, body) => Permitted(body, active + ToSet(buckets))
  }

  function Size(p: Program): nat {
    match p
    case Done(_) => 0
    case MoveUnlocked(_, _, _) => 0
    case Move(_, _, _) => 2
    case Then(first, rest) => 1 + Size(first) + Size(rest)
    case Undo(first, rest) => 1 + Size(first) + Size(rest)
    case Locked(_, body) => 1 + Size(body)
  }

  // The lock requests of a run in which every step succeeds.
  function Expected(p: Program, active: set<string>): seq<LockRequest> {
    match p
    case Done(_) => []
    case MoveUnlocked(_, _, _) => []
    case Move(s, t, _) => Bracket(NotHeld([s.bucket, t.bucket], active), [])
    case Then(first, rest) => Expected(first, active) + Expected(rest, active)
    case Undo(first, rest) => Expected(first, active)
    case Locked(buckets, body) => Bracket(NotHeld(buckets, active), Expected(body, active + ToSet(buckets)))
  }

  function Bracket(missing: seq<string>, inner: seq<LockRequest>): seq<LockRequest> {
    Creates(missing) + inner + Releases(missing)
  }

  function Buckets(p: Program): set<string> {
    match p
    case Done(_) => {}
    case MoveUnlocked(s, t, _) => {s.bucket, t.bucket}
    case Move(s, t, _) => {s.bucket, t.bucket}
    case Then(first, rest) => Buckets(first) + Buckets(rest)
    case Undo(first, rest) => Buckets(first) + Buckets(rest)
    case Locked(buckets, body) => ToSet(buckets) + Buckets(body)
  }

  // The contents of the objects that are no locks.
  type Data = map<ObjectPath, Content>

  function DataOf(live: Objects): Data {
    map p | p in live && !StorageApi.Reserved(p) :: live[p].content
  }

  // What a run amounts to when nothing fails, and without regard to any lock: its
  // result, what it leaves behind, and whether its moves are possible.
  function Outcome(p: Program): Result<(), AppError> {
    match p
    case Done(result) => result
    case MoveUnlocked(_, _, _) => Ok(())
    case Move(_, _, _) => Ok(())
    case Then(first, rest) => if Outcome(first).Ok? then Outcome(rest) else Outcome(first)
    case Undo(first, rest) =>
      if Outcome(first).Ok? then Outcome(first)
      else Err(WithRollback(Outcome(first).error, if Outcome(rest).Err? then [Outcome(rest).error] else []))
    case Locked(_, body) => Outcome(body)
  }

  function After(p: Program, data: Data): Data {
    match p
    case Done(_) => data
    case MoveUnlocked(s, t, _) => Renamed(data, s, t)
    case Move(s, t, _) => Renamed(data, s, t)
    case Then(first, rest) => if Outcome(first).Ok? then After(rest, After(first, data)) else After(first, data)
    case Undo(first, rest) => if Outcome(first).Ok? then After(first, data) else After(rest, After(first, data))
    case Locked(_, body) => After(body, data)
  }

  function Renamed(data: Data, source: ObjectPath, target: ObjectPath): Data {
    if source in data then (data - {source})[target := data[source]] else data
  }

  predicate Feasible(p: Program, data: Data) {
    match p
    case Done(_) => true
    case MoveUnlocked(s, t, expected) => CanMove(data, s, t, expected)
    case Move(s, t, expected) => CanMove(data, s, t, expected)
    case Then(first, rest) => Feasible(first, data) && (Outcome(first).Ok? ==> Feasible(rest, After(first, data)))
    case Undo(first, rest) => Feasible(first, data) && (Outcome(first).Err? ==> Feasible(rest, After(first, data)))
    case Locked(_, body) => Feasible(body, data)
  }

  predicate CanMove(data: Data, source: ObjectPath, target: ObjectPath, expected: Option<nat>) {
    && expected.None? && source in data && target !in data
    && !StorageApi.Reserved(source) && !StorageApi.Reserved(target)
  }

  // Locking has no influence on what a feasible program does.
  predicate Independent(p: Program, before: Objects, after: Objects, r: Result<(), AppError>) {
    Feasible(p, DataOf(before)) ==> r == Outcome(p) && DataOf(after) == After(p, DataOf(before))
  }

  lemma MoveIsIndependent(before: Objects, after: Objects, p: Program, generation: nat)
    requires p.MoveUnlocked? && Feasible(p, DataOf(before)) && Moved(before, after, p.source, p.target, generation)
    ensures DataOf(after) == After(p, DataOf(before))
  {
  }

  // A lock object is created and its creator is not told.
  predicate LeavesLock(turn: Turn) {
    turn.delivery.Lost? && turn.delivery.applied && !turn.signal
  }

  // Nobody else holds a lock that the program needs.
  predicate Free(buckets: set<string>, live: Objects, active: set<string>) {
    forall b :: b in buckets && b !in active ==> LockPath(b) !in live
  }

  // Replays lock requests on a stack of held buckets: a bucket is never taken
  // twice, and only the one taken last is dropped.
  function Replay(stack: seq<string>, requests: seq<LockRequest>): Option<seq<string>>
    decreases requests
  {
    if requests == [] then Some(stack)
    else
      match requests[0]
      case TakeLock(b) => if b in stack then None else Replay(stack + [b], requests[1..])
      case DropLock(b) =>
        if stack == [] || stack[|stack| - 1] != b then None else Replay(stack[..|stack| - 1], requests[1..])
  }

  lemma {:induction false} ReplayConcat(stack: seq<string>, a: seq<LockRequest>, b: seq<LockRequest>)
    ensures Replay(stack, a + b) == match Replay(stack, a) { case None => None case Some(middle) => Replay(middle, b) }
    decreases a
  {
    if a == [] {
      assert a + b == b;
    } else {
      assert (a + b)[1..] == a[1..] + b;
      match a[0]
      case TakeLock(x) => if x !in stack { ReplayConcat(stack + [x], a[1..], b); }
      case DropLock(x) => if stack != [] { ReplayConcat(stack[..|stack| - 1], a[1..], b); }
    }
  }

  lemma {:induction false} ReplayCreates(stack: seq<string>, missing: seq<string>)
    requires NoRepeats(missing) && forall i :: 0 <= i < |missing| ==> missing[i] !in stack
    ensures Replay(stack, Creates(missing)) == Some(stack + missing)
    decreases missing
  {
    if missing == [] {
      assert stack + missing == stack;
    } else {
      assert Creates(missing)[1..] == Creates(missing[1..]);
      ReplayCreates(stack + [missing[0]], missing[1..]);
      assert stack + [missing[0]] + missing[1..] == stack + missing;
    }
  }

  lemma {:induction false} ReplayReleases(stack: seq<string>, missing: seq<string>, i: nat)
    requires i <= |missing|
    ensures Replay(stack + missing, ReleasesDownTo(missing, i)) == Some(stack + missing[..i])
    decreases |missing| - i
  {
    if i == |missing| {
      assert missing[..i] == missing;
    } else {
      ReplayReleases(stack, missing, i + 1);
      ReplayConcat(stack + missing, ReleasesDownTo(missing, i + 1), [DropLock(missing[i])]);
      var top := stack + missing[..i + 1];
      assert top[..|top| - 1] == stack + missing[..i];
    }
  }

  // The requests of a successful run are well nested: they end with the stack
  // they began with, whatever the nesting of brackets was.
  lemma {:induction false} ExpectedIsBracketed(p: Program, stack: seq<string>)
    ensures Replay(stack, Expected(p, ToSet(stack))) == Some(stack)
    decreases Size(p)
  {
    match p
    case Done(_) =>
    case MoveUnlocked(_, _, _) =>
    case Move(s, t, _) => BracketReplays([s.bucket, t.bucket], stack, []);
    case Undo(first, rest) => ExpectedIsBracketed(first, stack);
    case Then(first, rest) =>
      ExpectedIsBracketed(first, stack);
      ExpectedIsBracketed(rest, stack);
      ReplayConcat(stack, Expected(first, ToSet(stack)), Expected(rest, ToSet(stack)));
    case Locked(buckets, body) =>
      var missing := NotHeld(buckets, ToSet(stack));
      NotHeldIsExact(buckets, ToSet(stack));
      ExpectedIsBracketed(body, stack + missing);
      assert ToSet(stack + missing) == ToSet(stack) + ToSet(buckets);
      BracketReplays(buckets, stack, Expected(body, ToSet(stack) + ToSet(buckets)));
  }

  lemma BracketReplays(buckets: seq<string>, stack: seq<string>, inner: seq<LockRequest>)
    requires Replay(stack + NotHeld(buckets, ToSet(stack)), inner) == Some(stack + NotHeld(buckets, ToSet(stack)))
    ensures Replay(stack, Bracket(NotHeld(buckets, ToSet(stack)), inner)) == Some(stack)
  {
    var missing := NotHeld(buckets, ToSet(stack));
    NotHeldIsExact(buckets, ToSet(stack));
    assert forall b :: b in stack ==> b in ToSet(stack);
    assert forall i :: 0 <= i < |missing| ==> missing[i] in missing;
    ReplayCreates(stack, missing);
    ReplayConcat(stack, Creates(missing), inner);
    ReplayConcat(stack, Creates(missing) + inner, Releases(missing));
    ReplayReleases(stack, missing, 0);
    assert stack + missing[..0] == stack;
  }

  lemma OnlyReleasedStep(before: Objects, middle: Objects, after: Objects, locks: seq<BucketLock>, i: nat)
    requires OnlyReleased(before, middle, locks) && i < |locks|
    requires after == middle || after == middle - {LockPath(locks[i].bucket)}
    ensures OnlyReleased(before, after, locks)
  {
    assert LockPath(locks[i].bucket) in LockPaths(locks);
  }

  // A bracket whose buckets are all held sends nothing of its own.
  lemma BracketCases(buckets: seq<string>, body: Program, active: set<string>)
    ensures var missing := NotHeld(buckets, active);
      && active + ToSet(missing) == active + ToSet(buckets)
      && NoRepeats(missing) && (forall i :: 0 <= i < |missing| ==> missing[i] !in active)
      && (missing == [] <==> ToSet(buckets) <= active)
      && (missing == [] ==> active + ToSet(buckets) == active && Expected(Locked(buckets, body), active) == Expected(body, active))
      && Expected(Locked(buckets, body), active) == Bracket(missing, Expected(body, active + ToSet(missing)))
  {
    var missing := NotHeld(buckets, active);
    NotHeldIsExact(buckets, active);
    assert active + ToSet(missing) == active + ToSet(buckets);
    if missing == [] {
      assert Bracket([], Expected(body, active)) == Expected(body, active);
    } else {
      assert missing[0] in buckets && missing[0] !in active;
    }
  }

  class LockingClient {
    const api: StorageApi
    const tokens: nat -> Content
    var drawn: nat
    var active: set<string>
    ghost var requests: seq<LockRequest>

    constructor (api: StorageApi, tokens: nat -> Content)
      requires api.Valid() && api.Exclusive()
      requires forall i, j {:trigger tokens(i), tokens(j)} :: i != j ==> tokens(i) != tokens(j)
      requires forall i, p :: p in api.live && StorageApi.Reserved(p) ==> api.live[p].content != tokens(i)
      ensures Valid() && this.api == api && active == {} && requests == []
    {
      this.api := api;
      this.tokens := tokens;
      drawn, active, requests := 0, {}, [];
    }

    // Tokens are never drawn twice and nobody else's lock carries one.
    ghost predicate Valid()
      reads this, api
    {
      && api.Valid() && api.Exclusive()
      && (forall i, j {:trigger tokens(i), tokens(j)} :: i != j ==> tokens(i) != tokens(j))
      && Unused(api.live)
      && (forall b :: b in active ==> LockPath(b) in api.live)
    }

    ghost predicate Unused(live: Objects)
      reads this
    {
      forall i, p {:trigger tokens(i), live[p]} :: drawn <= i && p in live && StorageApi.Reserved(p) ==> live[p].content != tokens(i)
    }

    method AcquireBucketLock(bucket: string) returns (r: Result<BucketLock, AppError>)
      requires Valid()
      modifies this`drawn, this`requests, api
      ensures Valid() && api.Progress()
      ensures requests == old(requests) + [TakeLock(bucket)] || (r.Err? && requests == old(requests) + [TakeLock(bucket), DropLock(bucket)])
      ensures r.Ok? ==> requests == old(requests) + [TakeLock(bucket)]
      ensures r.Ok? ==> r.value.bucket == bucket && LockPath(bucket) !in old(api.live)
      ensures r.Ok? ==> (LockPath(bucket), r.value.generation) in api.earned && Matches(api.live, LockPath(bucket), Some(r.value.generation))
      ensures forall p :: p != LockPath(bucket) || p in old(api.live) ==>
        (p in api.live <==> p in old(api.live)) && (p in api.live ==> api.live[p] == old(api.live)[p])
      ensures r.Err? && !NeedsRecovery(r.error) ==> api.live == old(api.live)
      ensures r.Err? && r.error.BucketLockConflict? ==> LockPath(bucket) in old(api.live)
      ensures old(api.Calm()) && LockPath(bucket) !in old(api.live) ==> r.Ok?
      ensures OneFlaw(api.turns) && !old(api.interrupted) && LockPath(bucket) !in old(api.live) ==>
        r.Ok? || (api.Past() && api.live == old(api.live) && (LeavesLock(api.turns(Flaw(api.turns))) ==> !NeedsRecovery(r.error)))
      ensures r.Ok? && !old(api.interrupted) ==> !api.interrupted
    {
      var path, token := LockPath(bucket), tokens(drawn);
      drawn := drawn + 1;
      requests := requests + [TakeLock(bucket)];
      var created := CreateLock(path, token);
      if created.Ok? {
        return Ok(BucketLock(bucket, created.value));
      }
      var error := NotGranted(bucket, token, created.error, old(api.live));
      r := Err(error);
    }

    // The lock object, created only where none is.
    method CreateLock(path: ObjectPath, token: Content) returns (r: Result<nat, AppError>)
      requires api.Valid() && api.Exclusive()
      modifies api
      ensures api.Progress()
      ensures api.live == old(api.live) || StorageApi.Created(old(api.live), api.live, path, token)
      ensures r.Ok? ==> path !in old(api.live) && (path, r.value) in api.earned && Matches(api.live, path, Some(r.value))
      ensures api.live != old(api.live) ==> (path, api.live[path].generation) in api.earned
      ensures r.Err? ==> RequestError(r.error)
      ensures r.Err? && (HasStatus(r.error, 412) || !MayHaveReachedStorage(r.error)) ==> api.live == old(api.live)
      ensures r.Err? && HasStatus(r.error, 412) ==> path in old(api.live)
      ensures old(api.Calm()) && path !in old(api.live) ==> r.Ok?
      ensures r.Ok? && !old(api.interrupted) ==> !api.interrupted
      ensures OneFlaw(api.turns) && !old(api.interrupted) && path !in old(api.live) ==>
        r.Ok? || (api.Past() && (LeavesLock(api.turns(Flaw(api.turns))) ==> api.live != old(api.live)))
    {
      r := api.CreateObject(path, token);
    }

    // Why a lock was not granted, once nothing of the attempt is left.
    method NotGranted(bucket: string, token: Content, failure: AppError, ghost start: Objects) returns (error: AppError)
      requires api.Valid() && api.Exclusive() && RequestError(failure)
      requires api.live == start || StorageApi.Created(start, api.live, LockPath(bucket), token)
      requires LockPath(bucket) in start ==> start[LockPath(bucket)].content != token
      requires api.live != start ==> (LockPath(bucket), api.live[LockPath(bucket)].generation) in api.earned
      requires HasStatus(failure, 412) || !MayHaveReachedStorage(failure) ==> api.live == start
      requires HasStatus(failure, 412) ==> LockPath(bucket) in start
      modifies this`requests, api
      ensures api.Progress()
      ensures requests == old(requests) || requests == old(requests) + [DropLock(bucket)]
      ensures api.live == start || api.live == old(api.live)
      ensures !NeedsRecovery(error) ==> api.live == start
      ensures error.BucketLockConflict? ==> LockPath(bucket) in start
      ensures old(api.Past()) ==> api.live == start
      ensures old(api.Past()) && old(api.live) != start ==> error == failure
    {
      if HasStatus(failure, 412) {
        return BucketLockConflict(failure);
      }
      if !MayHaveReachedStorage(failure) {
        return failure;
      }
      error := RecoverAfter(bucket, token, failure, start);
    }

    method RecoverAfter(bucket: string, token: Content, failure: AppError, ghost start: Objects) returns (error: AppError)
      requires api.Valid() && api.Exclusive() && RequestError(failure)
      requires api.live == start || StorageApi.Created(start, api.live, LockPath(bucket), token)
      requires LockPath(bucket) in start ==> start[LockPath(bucket)].content != token
      requires api.live != start ==> (LockPath(bucket), api.live[LockPath(bucket)].generation) in api.earned
      modifies this`requests, api
      ensures api.Progress()
      ensures requests == old(requests) || requests == old(requests) + [DropLock(bucket)]
      ensures api.live == start || api.live == old(api.live)
      ensures !NeedsRecovery(error) ==> api.live == start
      ensures !error.BucketLockConflict?
      ensures old(api.Past()) ==> api.live == start
      ensures old(api.Past()) && old(api.live) != start ==> error == failure && api.live == start
    {
      api.ClearInterruptForRollback();
      var recovered := RecoverUnacknowledgedBucketLock(bucket, token);
      error := if recovered.Ok? then failure else WithRollback(failure, [recovered.error]);
    }

    // Deletes the lock only when its token proves that this run created it.
    method RecoverUnacknowledgedBucketLock(bucket: string, token: Content) returns (r: Result<(), AppError>)
      requires api.Valid() && api.Exclusive()
      requires LockPath(bucket) in api.live && api.live[LockPath(bucket)].content == token
        ==> (LockPath(bucket), api.live[LockPath(bucket)].generation) in api.earned
      modifies this`requests, api
      ensures api.Progress()
      ensures requests == old(requests) || requests == old(requests) + [DropLock(bucket)]
      ensures api.live == old(api.live) ||
        (LockPath(bucket) in old(api.live) && old(api.live)[LockPath(bucket)].content == token && api.live == old(api.live) - {LockPath(bucket)})
      ensures r.Ok? ==> !(LockPath(bucket) in api.live && api.live[LockPath(bucket)].content == token)
      ensures old(api.Calm()) && LockPath(bucket) in old(api.live) ==> r.Ok?
    {
      var path := LockPath(bucket);
      var body := api.ReadBody(path);
      if body.Err? {
        return Err(body.error);
      }
      if body.value != token {
        return Ok(());
      }
      var generation := api.ObjectGeneration(path, None);
      if generation.Err? {
        return Err(generation.error);
      }
      requests := requests + [DropLock(bucket)];
      r := api.DeleteObject(path, generation.value);
    }

    // Release is rollback work: a signal that arrived before does not stop it.
    method ReleaseOne(lock: BucketLock) returns (failure: Option<AppError>)
      requires Valid() && Matches(api.live, LockPath(lock.bucket), Some(lock.generation))
      requires (LockPath(lock.bucket), lock.generation) in api.earned && lock.bucket !in active
      modifies this`requests, api
      ensures Valid() && api.Progress() && api.clock == old(api.clock) + 1
      ensures requests == old(requests) + [DropLock(lock.bucket)]
      ensures api.live == old(api.live) || api.live == old(api.live) - {LockPath(lock.bucket)}
      ensures failure.None? ==> api.live == old(api.live) - {LockPath(lock.bucket)}
      ensures Smooth(api.turns(old(api.clock))) ==> failure.None?
    {
      api.ClearInterruptForRollback();
      requests := requests + [DropLock(lock.bucket)];
      var deleted := api.DeleteObject(LockPath(lock.bucket), lock.generation);
      failure := if deleted.Ok? then None else Some(deleted.error);
    }

    // The state in which the locks from i on have been asked back.
    ghost predicate Releasing(locks: seq<BucketLock>, i: nat, start: Objects, sent: seq<LockRequest>, since: nat, errors: seq<AppError>)
      reads this, api
    {
      && i <= |locks| && requests == sent + ReleasesDownTo(BucketsOf(locks), i)
      && OnlyReleased(start, api.live, locks) && LiveBelow(locks, i, api.live)
      && (errors == [] ==> GoneFrom(locks, i, api.live))
      && (SmoothFrom(since, api.clock) ==> errors == [])
    }

    // In reverse order; every release is tried, whatever became of the others.
    method ReleaseBucketLocks(locks: seq<BucketLock>) returns (errors: seq<AppError>)
      requires Valid() && Live(locks, api.live) && OwnLocks(locks, api.earned) && DistinctBuckets(locks)
      requires forall i :: 0 <= i < |locks| ==> locks[i].bucket !in active
      modifies this`requests, api
      ensures Valid() && api.Progress()
      ensures requests == old(requests) + Releases(BucketsOf(locks))
      ensures OnlyReleased(old(api.live), api.live, locks)
      ensures errors == [] ==> GoneFrom(locks, 0, api.live)
      ensures SmoothFrom(old(api.clock), api.clock) ==> errors == []
    {
      errors := [];
      var i := |locks|;
      NothingReleased(locks, api.live);
      while i > 0
        invariant 0 <= i <= |locks| && Valid() && api.Progress()
        invariant Releasing(locks, i, old(api.live), old(requests), old(api.clock), errors)
      {
        i := i - 1;
        errors := ReleaseNext(locks, i, old(api.live), old(requests), old(api.clock), errors);
      }
    }

    method ReleaseNext(locks: seq<BucketLock>, i: nat, ghost start: Objects, ghost sent: seq<LockRequest>, ghost since: nat,
                       before: seq<AppError>) returns (errors: seq<AppError>)
      requires Valid() && OwnLocks(locks, api.earned) && DistinctBuckets(locks)
      requires i < |locks| && locks[i].bucket !in active && since <= api.clock
      requires Releasing(locks, i + 1, start, sent, since, before)
      modifies this`requests, api
      ensures Valid() && api.Progress()
      ensures Releasing(locks, i, start, sent, since, errors)
    {
      ghost var was, at, down := api.live, api.clock, ReleasesDownTo(BucketsOf(locks), i + 1);
      var failure := ReleaseOne(locks[i]);
      assert requests == sent + (down + [DropLock(locks[i].bucket)]);
      OnlyReleasedStep(start, was, api.live, locks, i);
      StillLive(locks, i, was, api.live);
      assert SmoothFrom(since, api.clock) ==> Smooth(api.turns(at)) && SmoothFrom(since, at);
      errors := if failure.Some? then before + [failure.value] else before;
    }

    // All or nothing: a lock that cannot be had releases the ones already taken.
    method AcquireBucketLocks(missing: seq<string>) returns (r: Result<seq<BucketLock>, AppError>)
      requires Valid() && NoRepeats(missing) && forall i :: 0 <= i < |missing| ==> missing[i] !in active
      modifies this`drawn, this`requests, api
      ensures Valid() && api.Progress()
      ensures r.Ok? ==> requests == old(requests) + Creates(missing)
      ensures r.Ok? ==> Taken(old(api.live), api.live, api.earned, r.value, missing)
      ensures r.Err? ==> LocksKept(old(api.live), api.live)
      ensures r.Err? && !NeedsRecovery(r.error) ==> api.live == old(api.live)
      ensures old(api.Calm()) && (forall i :: 0 <= i < |missing| ==> LockPath(missing[i]) !in old(api.live)) ==> r.Ok?
      ensures OneFlaw(api.turns) && !old(api.interrupted) && (forall i :: 0 <= i < |missing| ==> LockPath(missing[i]) !in old(api.live)) ==>
        r.Ok? || api.live == old(api.live)
    {
      var locks: seq<BucketLock> := [];
      for k := 0 to |missing|
        invariant Valid() && api.Progress()
        invariant requests == old(requests) + Creates(missing[..k])
        invariant Taken(old(api.live), api.live, api.earned, locks, missing[..k])
        invariant !old(api.interrupted) ==> !api.interrupted
      {
        assert missing[..k + 1] == missing[..k] + [missing[k]];
        CreatesPush(missing[..k], missing[k]);
        var lock := AcquireNext(missing[k], old(api.live), locks, missing[..k]);
        if lock.Err? {
          return Err(lock.error);
        }
        locks := locks + [lock.value];
      }
      assert missing[..|missing|] == missing;
      r := Ok(locks);
    }

    method AcquireNext(bucket: string, ghost start: Objects, locks: seq<BucketLock>, ghost taken: seq<string>)
      returns (r: Result<BucketLock, AppError>)
      requires Valid() && Taken(start, api.live, api.earned, locks, taken) && NoRepeats(taken + [bucket])
      requires forall i :: 0 <= i < |taken| ==> taken[i] !in active
      modifies this`drawn, this`requests, api
      ensures Valid() && api.Progress()
      ensures r.Ok? ==> requests == old(requests) + [TakeLock(bucket)]
      ensures r.Ok? ==> Taken(start, api.live, api.earned, locks + [r.value], taken + [bucket])
      ensures r.Err? ==> LocksKept(start, api.live)
      ensures r.Err? && !NeedsRecovery(r.error) ==> api.live == start
      ensures old(api.Calm()) && LockPath(bucket) !in start ==> r.Ok?
      ensures OneFlaw(api.turns) && !old(api.interrupted) && LockPath(bucket) !in start ==> r.Ok? || api.live == start
      ensures r.Ok? && !old(api.interrupted) ==> !api.interrupted
    {
      OthersAreFree(start, api.live, locks, taken, bucket);
      r := AcquireBucketLock(bucket);
      if r.Ok? {
        TakenPush(start, old(api.live), api.live, old(api.earned), api.earned, locks, taken, r.value);
        return;
      }
      ghost var failed := api.live;
      LiveAcross(locks, taken, bucket, old(api.live), failed);
      api.ClearInterruptForRollback();
      var errors := ReleaseBucketLocks(locks);
      ReleaseUndoes(start, old(api.live), failed, api.live, locks, bucket);
      r := Err(WithRollback(r.error, errors));
    }

    // Takes the missing locks, runs the body, and gives them back.
    method WithBucketLocks(buckets: seq<string>, body: Program) returns (r: Result<(), AppError>)
      requires Valid() && Permitted(body, active + ToSet(buckets))
      modifies this, api
      ensures Valid() && api.Progress() && active == old(active)
      ensures LocksKept(old(api.live), api.live)
      ensures Plain(r) ==> LocksEqual(old(api.live), api.live)
      ensures r.Ok? ==> requests == old(requests) + Expected(Locked(buckets, body), old(active))
      ensures ToSet(buckets) + Buckets(body) <= old(active) ==> requests == old(requests)
      ensures old(api.Calm()) && Free(ToSet(buckets) + Buckets(body), old(api.live), old(active)) ==>
        LocksEqual(old(api.live), api.live) && Independent(body, old(api.live), api.live, r)
      decreases Size(body), 4
    {
      var missing := NotHeld(buckets, active);
      BracketCases(buckets, body, active);
      if missing == [] {
        r := Run(body);
      } else {
        r := TakeAndRun(missing, body);
      }
    }

    method TakeAndRun(missing: seq<string>, body: Program) returns (r: Result<(), AppError>)
      requires Valid() && Permitted(body, active + ToSet(missing))
      requires NoRepeats(missing) && forall i :: 0 <= i < |missing| ==> missing[i] !in active
      modifies this, api
      ensures Valid() && api.Progress() && active == old(active)
      ensures LocksKept(old(api.live), api.live)
      ensures Plain(r) ==> LocksEqual(old(api.live), api.live)
      ensures r.Ok? ==> requests == old(requests) + Bracket(missing, Expected(body, old(active) + ToSet(missing)))
      ensures old(api.Calm()) && Free(ToSet(missing) + Buckets(body), old(api.live), old(active)) ==>
        LocksEqual(old(api.live), api.live) && Independent(body, old(api.live), api.live, r)
      decreases Size(body), 3
    {
      var locks := AcquireBucketLocks(missing);
      if locks.Err? {
        return Err(locks.error);
      }
      ghost var taken := api.live;
      AddingKeepsData(old(api.live), taken, locks.value);
      StillFree(missing, Buckets(body), old(api.live), taken, locks.value, active);
      r := RunHeld(missing, body, locks.value, old(api.live));
      if r.Ok? {
        SentInBrackets(old(requests), missing, Expected(body, old(active) + ToSet(missing)));
      }
    }

    // Registers the locks while the body runs.
    method RunHeld(missing: seq<string>, body: Program, locks: seq<BucketLock>, ghost start: Objects)
      returns (r: Result<(), AppError>)
      requires Valid() && Permitted(body, active + ToSet(missing)) && Taken(start, api.live, api.earned, locks, missing)
      requires forall i :: 0 <= i < |missing| ==> missing[i] !in active
      modifies this, api
      ensures Valid() && api.Progress() && active == old(active)
      ensures LocksKept(start, api.live) && (Plain(r) ==> LocksEqual(start, api.live))
      ensures r.Ok? ==> requests == old(requests) + Expected(body, old(active) + ToSet(missing)) + Releases(missing)
      ensures old(api.Calm()) && Free(Buckets(body), old(api.live), old(active) + ToSet(missing)) ==>
        LocksEqual(start, api.live) && Independent(body, old(api.live), api.live, r)
      decreases Size(body), 2
    {
      active := active + ToSet(missing);
      var result := Run(body);
      active := active - ToSet(missing);
      r := Conclude(locks, missing, start, old(api.live), result);
    }

    lemma SentInBrackets(sent: seq<LockRequest>, missing: seq<string>, inner: seq<LockRequest>)
      ensures sent + Creates(missing) + inner + Releases(missing) == sent + Bracket(missing, inner)
    {
    }

    // Release and report. A success is final once it is reported: a signal that
    // came late does not make it an error, only a failed release does.
    method Conclude(locks: seq<BucketLock>, ghost missing: seq<string>, ghost start: Objects, ghost taken: Objects,
                    result: Result<(), AppError>) returns (r: Result<(), AppError>)
      requires Valid() && Taken(start, taken, api.earned, locks, missing)
      requires LocksKept(taken, api.live) && (Plain(result) ==> LocksEqual(taken, api.live))
      requires forall i :: 0 <= i < |missing| ==> missing[i] !in active
      modifies this`requests, api
      ensures Valid() && api.Progress()
      ensures requests == old(requests) + Releases(missing)
      ensures LocksKept(start, api.live) && (Plain(r) ==> LocksEqual(start, api.live))
      ensures result.Err? ==> r.Err?
      ensures DataOf(api.live) == DataOf(old(api.live))
      ensures SmoothFrom(old(api.clock), api.clock) ==> r == result
      ensures SmoothFrom(old(api.clock), api.clock) && LocksEqual(taken, old(api.live)) ==> LocksEqual(start, api.live)
    {
      LocksOutlive(start, taken, api.live, locks, missing);
      var errors := ReleaseBucketLocks(locks);
      assert BucketsOf(locks) == missing;
      ReleaseKeepsData(old(api.live), api.live, locks);
      BracketKeeps(start, taken, old(api.live), api.live, locks);
      match result
      case Ok(_) => r := if errors == [] then result else Err(Recovery);
      case Err(error) => r := Err(WithRollback(error, errors));
    }

    method Run(p: Program) returns (r: Result<(), AppError>)
      requires Valid() && Permitted(p, active)
      modifies this, api
      ensures Valid() && api.Progress() && active == old(active)
      ensures LocksKept(old(api.live), api.live)
      ensures Plain(r) ==> LocksEqual(old(api.live), api.live)
      ensures r.Ok? ==> requests == old(requests) + Expected(p, old(active))
      ensures Buckets(p) <= old(active) ==> requests == old(requests)
      ensures old(api.Calm()) && Free(Buckets(p), old(api.live), old(active)) ==>
        LocksEqual(old(api.live), api.live) && Independent(p, old(api.live), api.live, r)
      decreases Size(p), 1
    {
      match p
      case Done(result) =>
        r := result;
      case MoveUnlocked(_, _, _) =>
        r := RunMoveUnlocked(p);
      case Move(source, target, expected) =>
        if StorageApi.Reserved(source) || StorageApi.Reserved(target) {
          return Err(Message);
        }
        r := WithBucketLocks([source.bucket, target.bucket], MoveUnlocked(source, target, expected));
      case Then(_, _) =>
        r := RunThen(p);
      case Undo(_, _) =>
        r := RunUndo(p);
      case Locked(buckets, body) =>
        r := WithBucketLocks(buckets, body);
    }

    method RunMoveUnlocked(p: Program) returns (r: Result<(), AppError>)
      requires Valid() && Permitted(p, active) && p.MoveUnlocked?
      modifies this, api
      ensures Valid() && api.Progress() && active == old(active)
      ensures LocksKept(old(api.live), api.live)
      ensures Plain(r) ==> LocksEqual(old(api.live), api.live)
      ensures r.Ok? ==> requests == old(requests) + Expected(p, old(active))
      ensures Buckets(p) <= old(active) ==> requests == old(requests)
      ensures old(api.Calm()) && Free(Buckets(p), old(api.live), old(active)) ==>
        LocksEqual(old(api.live), api.live) && Independent(p, old(api.live), api.live, r)
    {
      var moved := api.MoveObjectUnlocked(p.source, p.target, p.expected);
      MoveKeepsLocks(old(api.live), api.live, p.source, p.target);
      if moved.Ok? && Feasible(p, DataOf(old(api.live))) { MoveIsIndependent(old(api.live), api.live, p, moved.value); }
      r := if moved.Ok? then Ok(()) else Err(moved.error);
    }

    method RunThen(p: Program) returns (r: Result<(), AppError>)
      requires Valid() && Permitted(p, active) && p.Then?
      modifies this, api
      ensures Valid() && api.Progress() && active == old(active)
      ensures LocksKept(old(api.live), api.live)
      ensures Plain(r) ==> LocksEqual(old(api.live), api.live)
      ensures r.Ok? ==> requests == old(requests) + Expected(p, old(active))
      ensures Buckets(p) <= old(active) ==> requests == old(requests)
      ensures old(api.Calm()) && Free(Buckets(p), old(api.live), old(active)) ==>
        LocksEqual(old(api.live), api.live) && Independent(p, old(api.live), api.live, r)
      decreases Size(p), 0
    {
      r := Run(p.first);
      if r.Ok? {
        ghost var middle := api.live;
        FreeStays(Buckets(p), Buckets(p.rest), old(api.live), middle, active);
        r := Run(p.rest);
        LocksKeptTwice(old(api.live), middle, api.live);
        SentInSequence(old(requests), p, active);
      }
    }

    lemma SentInSequence(sent: seq<LockRequest>, p: Program, active: set<string>)
      requires p.Then?
      ensures sent + Expected(p.first, active) + Expected(p.rest, active) == sent + Expected(p, active)
    {
    }

    method RunUndo(p: Program) returns (r: Result<(), AppError>)
      requires Valid() && Permitted(p, active) && p.Undo?
      modifies this, api
      ensures Valid() && api.Progress() && active == old(active)
      ensures LocksKept(old(api.live), api.live)
      ensures Plain(r) ==> LocksEqual(old(api.live), api.live)
      ensures r.Ok? ==> requests == old(requests) + Expected(p, old(active))
      ensures Buckets(p) <= old(active) ==> requests == old(requests)
      ensures old(api.Calm()) && Free(Buckets(p), old(api.live), old(active)) ==>
        LocksEqual(old(api.live), api.live) && Independent(p, old(api.live), api.live, r)
      decreases Size(p), 0
    {
      r := Run(p.first);
      if r.Err? {
        var undone := Run(p.rest);
        r := Err(WithRollback(r.error, if undone.Err? then [undone.error] else []));
      }
    }

    ghost predicate SmoothFrom(start: nat, end: nat) {
      forall c :: start <= c < end ==> Smooth(api.turns(c))
    }
  }

  lemma MoveKeepsLocks(before: Objects, after: Objects, a: ObjectPath, b: ObjectPath)
    requires Relocates(before, after, a, b) && !StorageApi.Reserved(a) && !StorageApi.Reserved(b)
    ensures LocksEqual(before, after)
  {
    RelocatesNothingElse(before, after, a, b);
  }

  lemma LocksOutlive(start: Objects, taken: Objects, worked: Objects, locks: seq<BucketLock>, missing: seq<string>)
    requires Added(start, taken, locks) && Live(locks, taken) && LocksKept(taken, worked) && NoRepeats(missing)
    requires |locks| == |missing| && forall i :: 0 <= i < |locks| ==> locks[i].bucket == missing[i]
    ensures Live(locks, worked) && DistinctBuckets(locks)
  {
    forall i | 0 <= i < |locks| ensures Matches(worked, LockPath(locks[i].bucket), Some(locks[i].generation)) {
      assert StorageApi.Reserved(LockPath(locks[i].bucket));
    }
  }

  // Taking the bracket's own locks leaves the others free.
  lemma StillFree(missing: seq<string>, inner: set<string>, start: Objects, taken: Objects, locks: seq<BucketLock>, active: set<string>)
    requires Added(start, taken, locks) && |locks| == |missing| && forall i :: 0 <= i < |locks| ==> locks[i].bucket == missing[i]
    ensures Free(ToSet(missing) + inner, start, active) ==> Free(inner, taken, active + ToSet(missing))
    ensures Free(ToSet(missing) + inner, start, active) ==>
      forall i :: 0 <= i < |missing| && missing[i] !in active ==> LockPath(missing[i]) !in start
  {
    if Free(ToSet(missing) + inner, start, active) {
      forall b | b in inner && b !in active + ToSet(missing) ensures LockPath(b) !in taken {
        assert b in ToSet(missing) + inner;
        assert forall i :: 0 <= i < |locks| ==> locks[i].bucket in missing;
      }
    }
  }

  lemma FreeStays(all: set<string>, some: set<string>, before: Objects, after: Objects, active: set<string>)
    requires LocksEqual(before, after) && some <= all
    ensures Free(all, before, active) ==> Free(some, after, active)
  {
    assert forall b :: StorageApi.Reserved(LockPath(b));
  }

  lemma LocksKeptTwice(before: Objects, middle: Objects, after: Objects)
    requires LocksKept(before, middle) && LocksKept(middle, after)
    ensures LocksKept(before, after)
    ensures LocksEqual(before, middle) && LocksEqual(middle, after) ==> LocksEqual(before, after)
  {
  }

  lemma ReleaseKeepsData(before: Objects, after: Objects, locks: seq<BucketLock>)
    requires OnlyReleased(before, after, locks)
    ensures DataOf(after) == DataOf(before)
  {
    forall p | p in before && !StorageApi.Reserved(p) ensures p in after {
      assert p !in LockPaths(locks);
    }
  }

  lemma AddingKeepsData(before: Objects, after: Objects, locks: seq<BucketLock>)
    requires Added(before, after, locks)
    ensures DataOf(after) == DataOf(before)
  {
    forall p | p in after && !StorageApi.Reserved(p) ensures p in before {
      assert p !in LockPaths(locks);
    }
  }

  lemma BracketKeeps(start: Objects, taken: Objects, worked: Objects, after: Objects, locks: seq<BucketLock>)
    requires Added(start, taken, locks) && LocksKept(taken, worked) && OnlyReleased(worked, after, locks)
    ensures LocksKept(start, after)
    ensures LocksEqual(taken, worked) && GoneFrom(locks, 0, after) ==> LocksEqual(start, after)
  {
    forall p | p in start && StorageApi.Reserved(p) ensures p in after && after[p] == start[p] {
      assert p in worked;
    }
  }

  // The given locks are new and nothing else changed.
  predicate Added(before: Objects, after: Objects, locks: seq<BucketLock>) {
    && (forall p :: p in before ==> p in after && after[p] == before[p])
    && after.Keys <= before.Keys + LockPaths(locks)
    && (forall i :: 0 <= i < |locks| ==> LockPath(locks[i].bucket) !in before)
  }

  predicate NoRepeats(s: seq<string>) {
    forall i, j :: 0 <= i < j < |s| ==> s[i] != s[j]
  }

  // The locks of exactly these buckets, held in addition to those of before.
  predicate Taken(before: Objects, live: Objects, earned: set<(ObjectPath, nat)>, locks: seq<BucketLock>, buckets: seq<string>) {
    && |locks| == |buckets| && (forall i :: 0 <= i < |locks| ==> locks[i].bucket == buckets[i])
    && NoRepeats(buckets) && OwnLocks(locks, earned) && Live(locks, live) && Added(before, live, locks)
  }

  lemma CreatesPush(buckets: seq<string>, bucket: string)
    ensures Creates(buckets + [bucket]) == Creates(buckets) + [TakeLock(bucket)]
  {
  }

  lemma OthersAreFree(before: Objects, middle: Objects, locks: seq<BucketLock>, taken: seq<string>, bucket: string)
    requires Added(before, middle, locks) && |locks| == |taken| && forall i :: 0 <= i < |locks| ==> locks[i].bucket == taken[i]
    requires NoRepeats(taken + [bucket])
    ensures LockPath(bucket) in middle <==> LockPath(bucket) in before
  {
    var all := taken + [bucket];
    forall i | 0 <= i < |locks| ensures locks[i].bucket != bucket {
      assert all[i] != all[|taken|];
    }
  }

  // A failed acquisition leaves the locks taken before it alone.
  lemma LiveAcross(locks: seq<BucketLock>, taken: seq<string>, bucket: string, middle: Objects, after: Objects)
    requires Live(locks, middle) && |locks| == |taken| && NoRepeats(taken)
    requires forall i :: 0 <= i < |locks| ==> locks[i].bucket == taken[i]
    requires forall p :: p != LockPath(bucket) || p in middle ==> (p in after <==> p in middle) && (p in after ==> after[p] == middle[p])
    ensures Live(locks, after) && DistinctBuckets(locks)
  {
  }

  lemma TakenPush(before: Objects, middle: Objects, after: Objects, earned0: set<(ObjectPath, nat)>, earned: set<(ObjectPath, nat)>,
                  locks: seq<BucketLock>, taken: seq<string>, lock: BucketLock)
    requires Taken(before, middle, earned0, locks, taken) && earned0 <= earned && NoRepeats(taken + [lock.bucket])
    requires LockPath(lock.bucket) !in middle && Matches(after, LockPath(lock.bucket), Some(lock.generation))
    requires (LockPath(lock.bucket), lock.generation) in earned
    requires forall p :: p != LockPath(lock.bucket) ==> (p in after <==> p in middle) && (p in after ==> after[p] == middle[p])
    ensures Taken(before, after, earned, locks + [lock], taken + [lock.bucket])
  {
    LockPathsPush(locks, lock);
  }

  lemma LockPathsPush(locks: seq<BucketLock>, lock: BucketLock)
    ensures LockPaths(locks + [lock]) == LockPaths(locks) + {LockPath(lock.bucket)}
  {
    var more := locks + [lock];
    assert more[|locks|] == lock;
    forall p | p in LockPaths(locks) ensures p in LockPaths(more) {
      var i :| 0 <= i < |locks| && LockPath(locks[i].bucket) == p;
      assert more[i] == locks[i];
    }
  }

  // Releasing what was added leads back, except for what a failed recovery of
  // the last acquisition may have left.
  lemma ReleaseUndoes(before: Objects, middle: Objects, failed: Objects, after: Objects, locks: seq<BucketLock>, bucket: string)
    requires Added(before, middle, locks) && OnlyReleased(failed, after, locks)
    requires forall p :: p != LockPath(bucket) || p in middle ==> (p in failed <==> p in middle) && (p in failed ==> failed[p] == middle[p])
    ensures LocksKept(before, after)
    ensures failed == middle && GoneFrom(locks, 0, after) ==> after == before
  {
    forall p | p in before ensures p in after && after[p] == before[p] {
      assert p in failed;
    }
    if failed == middle && GoneFrom(locks, 0, after) {
      forall p | p in after ensures p in before {
        assert p in middle;
      }
    }
  }

  predicate LiveBelow(locks: seq<BucketLock>, i: nat, live: Objects)
    requires i <= |locks|
  {
    forall k :: 0 <= k < i ==> Matches(live, LockPath(locks[k].bucket), Some(locks[k].generation))
  }

  predicate GoneFrom(locks: seq<BucketLock>, i: nat, live: Objects)
    requires i <= |locks|
  {
    forall k :: i <= k < |locks| ==> LockPath(locks[k].bucket) !in live
  }

  lemma NothingReleased(locks: seq<BucketLock>, live: Objects)
    requires Live(locks, live)
    ensures OnlyReleased(live, live, locks) && LiveBelow(locks, |locks|, live) && GoneFrom(locks, |locks|, live)
  {
  }

  lemma StillLive(locks: seq<BucketLock>, i: nat, before: Objects, after: Objects)
    requires i < |locks| && DistinctBuckets(locks) && LiveBelow(locks, i + 1, before)
    requires after == before || after == before - {LockPath(locks[i].bucket)}
    ensures LiveBelow(locks, i, after)
    ensures GoneFrom(locks, i + 1, before) && after == before - {LockPath(locks[i].bucket)} ==> GoneFrom(locks, i, after)
  {
  }
}
