// src/storage.rs:774-1290: small uploads that are retried as a whole, and large
// ones that continue a resumable session from its committed offset. The bytes of
// the file do not change while it is uploaded.
module FileUploads {
  import opened Wrappers
  import opened Errors
  import opened ObjectPaths
  import opened ObjectStore
  import opened StorageClient
  import opened ByteRanges
  import opened FlakySchedules

  const RESUMABLE_UPLOAD_THRESHOLD: nat := 64 * 1024 * 1024
  const RESUMABLE_CHUNK_SIZE: nat := 8 * 1024 * 1024
  const UPLOAD_ATTEMPTS: nat := 10

  // Nothing keeps an open session from being finished.
  ghost predicate Unobstructed(api: StorageApi, session: Session) {
    api.Exclusive() && session.finished.None?
  }

  // How things stood when a session was started.
  datatype Base = Base(objects: Objects, log: seq<Event>, posts: nat)

  // The server's side of an upload session.
  datatype Session = Session(target: ObjectPath, size: nat, data: Content, finished: Option<nat>)

  datatype Answer = Finished(generation: nat) | Resume(range: Option<string>) | Refused

  datatype ResumableProgress = Offset(next: nat) | Complete(generation: nat)

  // Errors an upload can end with.
  predicate UploadError(e: AppError) {
    RequestError(e) || e.UploadSource? || e.UploadSourceChanged? || e.Rollback? || e.Message?
  }

  // The server keeps a contiguous prefix: bytes it has are skipped, a gap is not
  // accepted, and of the new bytes it persists as many as it likes.
  function Persist(data: Content, offset: nat, bytes: Content, persisted: nat): Content {
    if offset > |data| || |bytes| <= |data| - offset then data
    else
      var rest := bytes[|data| - offset..];
      data + (if persisted < |rest| then rest[..persisted] else rest)
  }

  // Whatever is resent and however much is kept, a session fed with slices of one
  // file holds a prefix of that file, never shrinks and never runs ahead of it.
  lemma PersistKeepsPrefix(data: Content, file: Content, offset: nat, end: nat, persisted: nat)
    requires data <= file && offset <= end <= |file|
    ensures data <= Persist(data, offset, file[offset..end], persisted) <= file
    ensures |Persist(data, offset, file[offset..end], persisted)| <= if end < |data| then |data| else end
  {
    var bytes := file[offset..end];
    if offset <= |data| && |bytes| > |data| - offset {
      var rest := bytes[|data| - offset..];
      assert rest == file[|data|..end];
      var kept := if persisted < |rest| then rest[..persisted] else rest;
      assert kept == file[|data|..|data| + |kept|];
      assert data + kept == file[..|data| + |kept|];
    }
  }

  // The session holds a prefix of the file, all of it once it has finished.
  predicate Sound(session: Session, file: Content) {
    && session.data <= file && session.size == |file|
    && (session.finished.Some? ==> session.data == file)
  }

  // The bucket shows the object exactly when the session has finished.
  predicate Visible(before: Objects, after: Objects, session: Session, file: Content) {
    if session.finished.None? then after == before
    else StorageApi.Created(before, after, session.target, file) && after[session.target].generation == session.finished.value
  }

  ghost predicate Consistent(api: StorageApi, base: Base, session: Session, file: Content)
    reads api
  {
    && api.Valid() && Sound(session, file)
    && (session.finished.Some? ==> (session.target, session.finished.value) in api.earned)
    && (api.Exclusive() ==>
          && session.target !in base.objects
          && Visible(base.objects, api.live, session, file) && base.log <= api.log
          && |api.log| == |base.log| + (if session.finished.Some? then 1 else 0))
  }

  // Until the client hears of it, a session has finished exactly when a request
  // completed it whose answer was lost.
  ghost predicate Unheard(api: StorageApi, base: Base, session: Session)
    reads api
  {
    && base.posts <= |api.posts|
    && (session.finished.None? ==> forall i :: base.posts <= i < |api.posts| ==> !TookEffect(api.turns, api.posts[i]))
    && (session.finished.Some? ==> Orphaned(api.turns, api.posts, base.posts))
  }

  lemma UnheardStep(turns: nat -> Turn, posts: seq<Post>, p: Post, base: nat, finished: bool)
    requires base <= |posts| && !Met(turns, p).Answered?
    requires !finished ==> forall i :: base <= i < |posts| ==> !TookEffect(turns, posts[i])
    requires finished ==> Orphaned(turns, posts, base)
    ensures !finished && !LostEffect(turns, p) ==> forall i :: base <= i < |posts| + 1 ==> !TookEffect(turns, (posts + [p])[i])
    ensures finished || LostEffect(turns, p) ==> Orphaned(turns, posts + [p], base)
  {
    OrphanedPush(turns, posts, p, base);
  }

  function ParseResumableProgress(answer: Answer, total: nat, requireRange: bool): Result<ResumableProgress, AppError> {
    match answer
    case Finished(g) => Ok(Complete(g))
    case Refused => Err(Storage(412))
    case Resume(None) => if requireRange then Err(StorageResponse(MissingRange)) else Ok(Offset(0))
    case Resume(Some(range)) =>
      match ParseResumableRange(range)
      case Err(e) => Err(e)
      case Ok(offset) => if offset > total then Err(StorageResponse(BeyondTotal)) else Ok(Offset(offset))
  }

  // What the client learns is what the server holds: never more, never less.
  lemma ProgressRoundTrip(committed: nat, total: nat, requireRange: bool)
    requires committed <= total <= U64_MAX
    ensures ParseResumableProgress(Resume(RangeHeader(committed)), total, requireRange)
         == if committed == 0 && requireRange then Err(StorageResponse(MissingRange)) else Ok(Offset(committed))
  {
    if committed > 0 { RangeRoundTrip(committed); }
  }

  method ReadProgress(answer: Answer, total: nat, requireRange: bool, ghost committed: nat)
    returns (r: Result<ResumableProgress, AppError>)
    requires committed <= total <= U64_MAX
    requires answer.Resume? ==> answer.range == RangeHeader(committed)
    ensures answer.Finished? ==> r == Ok(Complete(answer.generation))
    ensures answer.Refused? ==> r == Err(Storage(412))
    ensures answer.Resume? ==>
      r == if committed == 0 && requireRange then Err(StorageResponse(MissingRange)) else Ok(Offset(committed))
  {
    if answer.Resume? { ProgressRoundTrip(committed, total, requireRange); }
    r := ParseResumableProgress(answer, total, requireRange);
  }

  // One PUT to the session. A status query sends no bytes.
  method Put(api: StorageApi, session: Session, file: Content, offset: nat, end: nat, requireRange: bool,
             ghost base: Base)
    returns (next: Session, r: Result<ResumableProgress, AppError>)
    requires Consistent(api, base, session, file)
    requires api.Exclusive() ==> Unheard(api, base, session)
    requires offset <= |session.data| && offset <= end <= |file| <= U64_MAX && base.posts <= |api.posts|
    modifies api
    ensures api.Progress() && api.deletions == old(api.deletions) && Consistent(api, base, next, file)
    ensures next.target == session.target && session.data <= next.data
    ensures |next.data| <= if end < |session.data| then |session.data| else end
    ensures r.Ok? && r.value.Complete? ==> next.finished == Some(r.value.generation)
    ensures r.Ok? && r.value.Complete? ==> !Orphaned(api.turns, api.posts, base.posts)
    ensures api.Exclusive() && !(r.Ok? && r.value.Complete?) ==> Unheard(api, base, next)
    ensures r.Ok? && r.value.Offset? ==> next.finished.None? && r.value.next == |next.data|
    ensures r.Err? ==> RequestError(r.error) && !r.error.Token? && r.error != StorageResponse(BeyondTotal)
    ensures r.Err? ==> r.error != StorageResponse(InvalidRange) && r.error != StorageResponse(InvalidOffset)
    ensures session.finished.Some? ==> next == session
    ensures old(api.Clean()) && Unobstructed(api, session) ==>
      && (r.Ok? || (requireRange && next.data == []))
      && (|session.data| < end ==> |session.data| < |next.data|)
      && (|next.data| == |file| ==> r.Ok? && r.value.Complete?)
    ensures old(api.Clean()) && api.Exclusive() ==>
      !api.interrupted && (session.finished.Some? || !requireRange ==> r.Ok? && (session.finished.Some? ==> r.value.Complete?))
    ensures !old(api.interrupted) && Rough(api.turns(old(api.clock))) ==> r.Err? && IsRetried(r.error) && !api.interrupted
    ensures Unobstructed(api, session) && |session.data| < |file| && next.finished.None? ==> |next.data| < |file|
    ensures api.clock == old(api.clock) + 1
    ensures !old(api.interrupted) && Signals(api.turns(old(api.clock))) ==> r == Err(Interrupted)
  {
    var persisted := api.turns(api.clock).persisted;
    ghost var posts := api.posts;
    var d := Transmit(api, Completes(session, file, offset, end, persisted));
    next := session;
    if d.Answered? {
      OrphanedPush(api.turns, posts, api.posts[|posts|], base.posts);
      next, r := Respond(api, session, file, offset, end, persisted, requireRange, base);
    } else {
      if d.Unanswered? {
        next := Lose(api, session, file, offset, end, if d.applied then Some(persisted) else None, base);
      }
      r := Err(d.error);
      if api.Exclusive() { UnheardStep(api.turns, posts, api.posts[|posts|], base.posts, session.finished.Some?); }
    }
  }

  // What the chunk loop tries again.
  predicate IsRetried(e: AppError) {
    HasStatus(e, 401) || IsRetryableResumableFailure(e)
  }

  // A request that carries the session's token, on record.
  method Transmit(api: StorageApi, ghost completes: bool) returns (d: Dispatched)
    requires api.Valid()
    modifies api
    ensures api.Progress() && api.deletions == old(api.deletions) && api.earned == old(api.earned)
    ensures api.posts == old(api.posts) + [Post(old(api.clock), old(api.interrupted), true, completes)]
    ensures d == Met(api.turns, api.posts[|old(api.posts)|])
    ensures api.Exclusive() ==> api.Unchanged()
    ensures old(api.Clean()) ==> d.Answered? && api.turns(old(api.clock)).persisted > 0 && !api.interrupted
    ensures !old(api.interrupted) && Rough(api.turns(old(api.clock))) ==> !d.Answered? && IsRetried(d.error) && !api.interrupted
    ensures !old(api.interrupted) && Signals(api.turns(old(api.clock))) ==> d == NotSent(Interrupted)
    ensures api.clock == old(api.clock) + 1
    ensures !d.Answered? ==> RequestError(d.error) && !d.error.Token?
    ensures d.Unanswered? ==> d.error != StorageResponse(BeyondTotal) && d.error != StorageResponse(InvalidRange)
    ensures d.Unanswered? ==> d.error != StorageResponse(InvalidOffset)
  {
    api.posts := api.posts + [Post(api.clock, api.interrupted, true, completes)];
    d := api.Send(true);
  }

  // The request reaches the server or not; its answer is lost.
  method Lose(api: StorageApi, session: Session, file: Content, offset: nat, end: nat, persisted: Option<nat>, ghost base: Base)
    returns (next: Session)
    requires Consistent(api, base, session, file)
    requires offset <= |session.data| && offset <= end <= |file|
    modifies api
    ensures api.Progress() && api.deletions == old(api.deletions) && api.posts == old(api.posts)
    ensures Consistent(api, base, next, file)
    ensures next.target == session.target && session.data <= next.data
    ensures |next.data| <= if end < |session.data| then |session.data| else end
    ensures session.finished.Some? ==> next == session
    ensures Unobstructed(api, session) ==>
      (next.finished.Some? <==> persisted.Some? && Completes(session, file, offset, end, persisted.value))
    ensures api.clock == old(api.clock) && api.interrupted == old(api.interrupted)
    ensures Unobstructed(api, session) && |session.data| < |file| && next.finished.None? ==> |next.data| < |file|
  {
    next := session;
    if persisted.Some? {
      PersistKeepsPrefix(session.data, file, offset, end, persisted.value);
      var lost: Answer;
      next, lost := Commit(api, session, file, offset, end, persisted.value, base);
    }
  }

  // Taking effect, the request leaves the session with the whole file.
  function Completes(session: Session, file: Content, offset: nat, end: nat, persisted: nat): bool
    requires offset <= end <= |file|
  {
    |Persist(session.data, offset, file[offset..end], persisted)| == |file|
  }

  method Respond(api: StorageApi, session: Session, file: Content, offset: nat, end: nat, persisted: nat, requireRange: bool,
                 ghost base: Base)
    returns (next: Session, r: Result<ResumableProgress, AppError>)
    requires Consistent(api, base, session, file)
    requires offset <= |session.data| && offset <= end <= |file| <= U64_MAX
    modifies api
    ensures api.Progress() && api.deletions == old(api.deletions) && api.posts == old(api.posts) && Consistent(api, base, next, file)
    ensures next.target == session.target && session.data <= next.data
    ensures |next.data| <= if end < |session.data| then |session.data| else end
    ensures r.Ok? && r.value.Complete? ==> next.finished == Some(r.value.generation)
    ensures r.Ok? && r.value.Offset? ==> next.finished.None? && r.value.next == |next.data|
    ensures r.Err? ==> r.error == Storage(412) || r.error == StorageResponse(MissingRange)
    ensures session.finished.Some? ==> next == session && r.Ok? && r.value.Complete?
    ensures Unobstructed(api, session) ==> (next.finished.Some? <==> Completes(session, file, offset, end, persisted))
    ensures Unobstructed(api, session) && next.finished.Some? ==> r.Ok? && r.value.Complete?
    ensures Unobstructed(api, session) && persisted > 0 ==>
      && (r.Ok? || (requireRange && next.data == []))
      && (|session.data| < end ==> |session.data| < |next.data|)
      && (|next.data| == |file| ==> r.Ok? && r.value.Complete?)
    ensures api.clock == old(api.clock) && api.interrupted == old(api.interrupted)
    ensures Unobstructed(api, session) && |session.data| < |file| && next.finished.None? ==> |next.data| < |file|
  {
    PersistKeepsPrefix(session.data, file, offset, end, persisted);
    PersistGrows(session.data, file, offset, end, persisted);
    var answer: Answer;
    next, answer := Commit(api, session, file, offset, end, persisted, base);
    r := ReadProgress(answer, |file|, requireRange, |next.data|);
  }

  lemma PersistGrows(data: Content, file: Content, offset: nat, end: nat, persisted: nat)
    requires offset <= |data| && offset <= end <= |file|
    ensures persisted > 0 && |data| < end ==> |data| < |Persist(data, offset, file[offset..end], persisted)|
  {
  }

  // The server takes the bytes and, holding all of them, creates the object.
  method Commit(api: StorageApi, session: Session, file: Content, offset: nat, end: nat, persisted: nat,
                ghost base: Base)
    returns (next: Session, answer: Answer)
    requires Consistent(api, base, session, file)
    requires offset <= end <= |file|
    modifies api
    ensures api.Progress() && api.deletions == old(api.deletions) && api.posts == old(api.posts) && Consistent(api, base, next, file)
    ensures next.target == session.target
    ensures session.finished.Some? ==> next == session && answer == Finished(session.finished.value)
    ensures session.finished.None? ==> next.data == Persist(session.data, offset, file[offset..end], persisted)
    ensures answer.Finished? ==> next.finished == Some(answer.generation)
    ensures answer.Resume? ==> next.finished.None? && answer.range == RangeHeader(|next.data|) && |next.data| < |file|
    ensures answer.Refused? ==> session.target in old(api.live)
    ensures Unobstructed(api, session) ==> (next.finished.Some? <==> Completes(session, file, offset, end, persisted))
    ensures Unobstructed(api, session) && next.finished.Some? ==> answer.Finished?
    ensures api.clock == old(api.clock) && api.interrupted == old(api.interrupted)
    ensures Unobstructed(api, session) && |session.data| < |file| && next.finished.None? ==> |next.data| < |file|
  {
    if session.finished.Some? {
      return session, Finished(session.finished.value);
    }
    PersistKeepsPrefix(session.data, file, offset, end, persisted);
    next := session.(data := Persist(session.data, offset, file[offset..end], persisted));
    if |next.data| < |file| {
      answer := Resume(RangeHeader(|next.data|));
    } else if next.target in api.live {
      answer := Refused;
    } else {
      var g := api.StoreObject(next.target, next.data);
      next := next.(finished := Some(g));
      answer := Finished(g);
    }
  }

  method QueryResumableProgress(api: StorageApi, session: Session, file: Content,
                                ghost base: Base)
    returns (next: Session, r: Result<ResumableProgress, AppError>)
    requires Consistent(api, base, session, file) && |file| <= U64_MAX
    requires base.posts <= |api.posts| && (api.Exclusive() ==> Unheard(api, base, session))
    modifies api
    ensures api.Progress() && api.deletions == old(api.deletions) && Consistent(api, base, next, file)
    ensures next.target == session.target && next.data == session.data
    ensures r.Ok? && r.value.Complete? ==> next.finished == Some(r.value.generation)
    ensures r.Ok? && r.value.Offset? ==> next.finished.None? && r.value.next == |next.data|
    ensures r.Err? ==> RequestError(r.error) && Expected(r.error)
    ensures old(api.Calm()) && Unobstructed(api, session) && |session.data| == |file| ==> r.Ok? && r.value.Complete?
    ensures r.Ok? && r.value.Complete? ==> !Orphaned(api.turns, api.posts, base.posts)
    ensures api.Exclusive() && !(r.Ok? && r.value.Complete?) ==> Unheard(api, base, next)
    ensures old(api.Clean()) && api.Exclusive() ==> r.Ok? && !api.interrupted && api.clock == old(api.clock) + 1
    ensures old(api.Clean()) && api.Exclusive() && session.finished.Some? ==> r.value.Complete?
    ensures Unobstructed(api, session) && |session.data| < |file| ==> next.finished.None?
  {
    next, r := Put(api, session, file, 0, 0, false, base);
    if r.Err? && HasStatus(r.error, 401) {
      var token := api.Token();
      if token.Err? {
        r := Err(token.error);
      }
    }
  }

  // A session that keeps to the protocol never triggers these checks, and nothing
  // is undone inside it.
  predicate Expected(e: AppError) {
    !e.Rollback? && !(e.StorageResponse? && (e.detail.BeyondTotal? || e.detail.InvalidRange? || e.detail.InvalidOffset?))
  }

  // One chunk, retried until the session's offset moves. After a failure the
  // session is asked where it stands instead of being sent the bytes blindly.
  method UploadResumableChunk(api: StorageApi, session: Session, file: Content, offset: nat, chunkSize: nat,
                              ghost base: Base)
    returns (next: Session, r: Result<ResumableProgress, AppError>, ghost puts: nat)
    requires Consistent(api, base, session, file) && session.finished.None?
    requires offset == |session.data| && 0 < chunkSize && offset + chunkSize <= |file| <= U64_MAX
    requires base.posts <= |api.posts| && (api.Exclusive() ==> Unheard(api, base, session))
    modifies api
    ensures api.Progress() && api.deletions == old(api.deletions) && Consistent(api, base, next, file)
    ensures next.target == session.target
    ensures r.Ok? && r.value.Complete? ==> next.finished == Some(r.value.generation)
    ensures r.Ok? && r.value.Offset? ==> next.finished.None? && r.value.next == |next.data|
    ensures r.Ok? && r.value.Offset? ==> offset <= r.value.next <= offset + chunkSize
    ensures r.Err? ==> UploadError(r.error) && Expected(r.error)
    ensures puts <= UPLOAD_ATTEMPTS
    ensures old(api.Calm()) && Unobstructed(api, session) ==> Advanced(r, offset)
    ensures Flaky(api.turns, old(api.clock)) && !old(api.interrupted) && Unobstructed(api, session) ==>
      !api.interrupted && Advanced(r, offset)
    ensures Unobstructed(api, session) && |session.data| < |file| && next.finished.None? ==> |next.data| < |file|
    ensures r.Ok? && r.value.Complete? ==> !Orphaned(api.turns, api.posts, base.posts)
    ensures api.Exclusive() && !(r.Ok? && r.value.Complete?) ==> Unheard(api, base, next)
    ensures Heeds(api.turns, old(api.clock)) && !old(api.interrupted) && Unobstructed(api, session) ==>
      Heeded(api.turns, old(api.clock), api.interrupted, r, offset) && api.clock == old(api.clock) + 2
  {
    next := session;
    puts := 0;
    var attempt := 1;
    while true
      invariant 1 <= attempt <= UPLOAD_ATTEMPTS && puts < attempt
      invariant api.Progress() && api.deletions == old(api.deletions) && Consistent(api, base, next, file)
      invariant api.Exclusive() ==> Unheard(api, base, next)
      invariant next.target == session.target && offset <= |next.data| <= offset + chunkSize
      invariant old(api.Calm()) && Unobstructed(api, session) ==> attempt == 1 && next == session
      invariant Flaky(api.turns, old(api.clock)) && !old(api.interrupted) && Unobstructed(api, session) ==>
        !api.interrupted && |next.data| == offset && next.finished.None?
        && api.clock <= old(api.clock) + 4 * (attempt - 1) && RoughSteps(api.turns, old(api.clock), api.clock) >= attempt - 1
      invariant Unobstructed(api, session) && next.finished.None? ==> |next.data| < |file|
      invariant Heeds(api.turns, old(api.clock)) && !old(api.interrupted) && Unobstructed(api, session) ==>
        attempt == 1 && next == session && api.clock == old(api.clock) && !api.interrupted
      decreases UPLOAD_ATTEMPTS - attempt
    {
      ghost var before := api.clock;
      puts := puts + 1;
      var settled: Option<Result<ResumableProgress, AppError>>;
      next, settled := AttemptChunk(api, next, file, offset, chunkSize, attempt == UPLOAD_ATTEMPTS, base);
      if Flaky(api.turns, old(api.clock)) && !old(api.interrupted) && Unobstructed(api, session) {
        FlakyBears(api.turns, old(api.clock), before);
        ChunkAttempted(api.turns, old(api.clock), before, api.clock, attempt, next, settled, offset);
      }
      if settled.Some? {
        return next, settled.value, puts;
      }
      attempt := attempt + 1;
    }
  }

  // Nine attempts in a row may have met a rough step, the tenth does not.
  lemma ChunkAttempted(turns: nat -> Turn, start: nat, before: nat, after: nat, attempt: nat, session: Session,
                       settled: Option<Result<ResumableProgress, AppError>>, offset: nat)
    requires Flaky(turns, start) && 1 <= attempt <= UPLOAD_ATTEMPTS && start <= before <= start + 4 * (attempt - 1)
    requires RoughSteps(turns, start, before) >= attempt - 1
    requires AttemptEnds(turns, before, after, attempt == UPLOAD_ATTEMPTS, session, settled, offset)
    ensures Reconciled(session, settled, offset)
    ensures settled.None? ==> RoughSteps(turns, start, after) >= attempt
  {
    MoreSteps(turns, start, before, before + 1);
    if attempt == UPLOAD_ATTEMPTS { NotATenth(turns, start, before + 1); }
    if settled.None? { OneMoreRough(turns, start, before + 1, after); }
  }

  // The source can be read at step c, and the request after it succeeds, or a
  // signal comes first.
  predicate Heeds(turns: nat -> Turn, c: nat) {
    turns(c).localRead.Readable? && (Smooth(turns(c + 1)) || Signals(turns(c + 1)))
  }

  predicate Heeded(turns: nat -> Turn, c: nat, interrupted: bool, r: Result<ResumableProgress, AppError>, offset: nat) {
    if Smooth(turns(c + 1)) then Advanced(r, offset) && !interrupted else r == Err(Interrupted)
  }

  // A single signal makes an upload end with just that, if it comes in time.
  ghost predicate Told<T>(api: StorageApi, r: Result<T, AppError>)
    reads api
  {
    if r.Ok? then !api.interrupted else r.error == Interrupted && api.Over()
  }

  lemma SignalIsHeeded(turns: nat -> Turn, c: nat)
    requires SignalOnce(turns)
    ensures Heeds(turns, c) && (!Smooth(turns(c + 1)) ==> Flaw(turns) == c + 1)
  {
    assert SmoothOrStruck(turns, c);
    assert SmoothOrStruck(turns, c + 1);
  }

  // On a flaky schedule only a rough request, and not the last one, leaves a chunk
  // unsettled.
  predicate AttemptEnds(turns: nat -> Turn, from: nat, to: nat, last: bool, session: Session,
                        settled: Option<Result<ResumableProgress, AppError>>, offset: nat) {
    && from + 2 <= to <= from + 4
    && (Smooth(turns(from + 1)) || !last ==> Reconciled(session, settled, offset))
    && (settled.None? ==> !Smooth(turns(from + 1)))
  }

  // One request for a chunk. Nothing settled means that it is worth another.
  method AttemptChunk(api: StorageApi, session: Session, file: Content, offset: nat, chunkSize: nat, last: bool, ghost base: Base)
    returns (next: Session, settled: Option<Result<ResumableProgress, AppError>>)
    requires Consistent(api, base, session, file)
    requires 0 < chunkSize && offset <= |session.data| <= offset + chunkSize <= |file| <= U64_MAX
    requires base.posts <= |api.posts| && (api.Exclusive() ==> Unheard(api, base, session))
    modifies api
    ensures api.Progress() && api.deletions == old(api.deletions) && Consistent(api, base, next, file)
    ensures next.target == session.target && offset <= |next.data| <= offset + chunkSize
    ensures last ==> settled.Some?
    ensures settled.Some? && settled.value.Err? ==> UploadError(settled.value.error) && Expected(settled.value.error)
    ensures settled.Some? && settled.value.Ok? ==>
      match settled.value.value
      case Complete(g) => next.finished == Some(g)
      case Offset(n) => next.finished.None? && n == |next.data|
    ensures HasCompleted(settled) ==> !Orphaned(api.turns, api.posts, base.posts)
    ensures api.Exclusive() && !HasCompleted(settled) ==> Unheard(api, base, next)
    ensures old(api.Calm()) && Unobstructed(api, session) && |session.data| == offset ==>
      settled.Some? && settled.value.Ok? && (settled.value.value.Offset? ==> offset < settled.value.value.next)
    ensures Bears(api.turns, old(api.clock)) && !old(api.interrupted) && Unobstructed(api, session) && |session.data| == offset ==>
      !api.interrupted && AttemptEnds(api.turns, old(api.clock), api.clock, last, next, settled, offset)
    ensures Unobstructed(api, session) && |session.data| < |file| && next.finished.None? ==> |next.data| < |file|
    ensures Heeds(api.turns, old(api.clock)) && !old(api.interrupted) && Unobstructed(api, session) && |session.data| == offset ==>
      settled.Some? && Heeded(api.turns, old(api.clock), api.interrupted, settled.value, offset) && api.clock == old(api.clock) + 2
  {
    var sent: Result<ResumableProgress, AppError>;
    next, sent := SendResumableChunk(api, session, file, offset, chunkSize, base);
    match sent
    case Ok(progress) =>
      settled := if progress.Complete? || progress.next != offset || last then Some(sent) else None;
    case Err(error) =>
      if (HasStatus(error, 401) || IsRetryableResumableFailure(error)) && !last {
        next, settled := ReconcileChunk(api, next, file, offset, error, base);
      } else {
        settled := Some(sent);
      }
  }

  predicate HasCompleted(settled: Option<Result<ResumableProgress, AppError>>) {
    settled.Some? && settled.value.Ok? && settled.value.value.Complete?
  }

  // What a retried chunk comes to: it is sent again from where it began, or the
  // session has moved on.
  predicate Reconciled(session: Session, settled: Option<Result<ResumableProgress, AppError>>, offset: nat) {
    if settled.None? then |session.data| == offset && session.finished.None?
    else Advanced(settled.value, offset)
  }

  predicate Advanced(r: Result<ResumableProgress, AppError>, offset: nat) {
    r.Ok? && (r.value.Offset? ==> offset < r.value.next)
  }

  // After a failed chunk: where does the session stand? Nothing settled means
  // that its offset has not moved and the chunk may be sent again.
  method ReconcileChunk(api: StorageApi, session: Session, file: Content, offset: nat, failure: AppError,
                        ghost base: Base)
    returns (next: Session, settled: Option<Result<ResumableProgress, AppError>>)
    requires Consistent(api, base, session, file) && |file| <= U64_MAX
    requires base.posts <= |api.posts| && (api.Exclusive() ==> Unheard(api, base, session))
    modifies api
    ensures api.Progress() && api.deletions == old(api.deletions) && Consistent(api, base, next, file)
    ensures next.target == session.target && next.data == session.data
    ensures settled.Some? && settled.value.Err? ==> UploadError(settled.value.error) && Expected(settled.value.error)
    ensures settled.Some? && settled.value.Ok? ==>
      match settled.value.value
      case Complete(g) => next.finished == Some(g)
      case Offset(n) => next.finished.None? && n == |next.data|
    ensures HasCompleted(settled) ==> !Orphaned(api.turns, api.posts, base.posts)
    ensures api.Exclusive() && !HasCompleted(settled) ==> Unheard(api, base, next)
    ensures old(api.Clean()) && Smooth(api.turns(old(api.clock) + 1)) && api.Exclusive() && offset <= |session.data| ==>
      !api.interrupted && api.clock <= old(api.clock) + 2 && Reconciled(next, settled, offset)
    ensures Unobstructed(api, session) && |session.data| < |file| ==> next.finished.None?
  {
    next := session;
    var renewal := RenewToken(api, failure);
    if renewal.Some? {
      return next, Some(Err(renewal.value));
    }
    var query: Result<ResumableProgress, AppError>;
    next, query := QueryResumableProgress(api, next, file, base);
    match query
    case Ok(Complete(_)) => settled := Some(query);
    case Ok(Offset(n)) => settled := if n != offset then Some(query) else None;
    case Err(error) =>
      renewal := RenewToken(api, error);
      settled :=
        if renewal.Some? then Some(Err(renewal.value))
        else if HasStatus(error, 401) || IsRetryableResumableFailure(error) then None
        else Some(query);
  }

  // A rejected token is fetched anew.
  method RenewToken(api: StorageApi, failure: AppError) returns (error: Option<AppError>)
    requires api.Valid()
    modifies api
    ensures api.Progress() && api.Unchanged() && api.Looking()
    ensures error.Some? ==> HasStatus(failure, 401) && error.value.Token? && !error.value.reached
    ensures api.clock == (if HasStatus(failure, 401) then old(api.clock) + 1 else old(api.clock))
    ensures api.interrupted == old(api.interrupted) && (Smooth(api.turns(old(api.clock))) ==> error.None?)
  {
    error := None;
    if HasStatus(failure, 401) {
      var token := api.Token();
      error := if token.Err? then Some(token.error) else None;
    }
  }

  method SendResumableChunk(api: StorageApi, session: Session, file: Content, offset: nat, chunkSize: nat,
                            ghost base: Base)
    returns (next: Session, r: Result<ResumableProgress, AppError>)
    requires Consistent(api, base, session, file)
    requires 0 < chunkSize && offset <= |session.data| <= offset + chunkSize <= |file| <= U64_MAX
    requires base.posts <= |api.posts| && (api.Exclusive() ==> Unheard(api, base, session))
    modifies api
    ensures api.Progress() && api.deletions == old(api.deletions) && Consistent(api, base, next, file)
    ensures next.target == session.target && offset <= |next.data| <= offset + chunkSize
    ensures r.Ok? && r.value.Complete? ==> next.finished == Some(r.value.generation)
    ensures r.Ok? && r.value.Offset? ==> next.finished.None? && r.value.next == |next.data|
    ensures r.Err? ==> UploadError(r.error) && Expected(r.error)
    ensures old(api.Calm()) && Unobstructed(api, session) && |session.data| == offset ==>
      r.Ok? && (r.value.Offset? ==> offset < r.value.next)
    ensures r.Ok? && r.value.Complete? ==> !Orphaned(api.turns, api.posts, base.posts)
    ensures api.Exclusive() && !(r.Ok? && r.value.Complete?) ==> Unheard(api, base, next)
    ensures api.turns(old(api.clock)).localRead.Readable? ==> api.clock == old(api.clock) + 2
    ensures api.turns(old(api.clock)).localRead.Readable? && !old(api.interrupted) && Smooth(api.turns(old(api.clock) + 1)) ==>
      Unobstructed(api, session) ==> !api.interrupted && (|session.data| == offset ==> Advanced(r, offset))
    ensures api.turns(old(api.clock)).localRead.Readable? && !old(api.interrupted) && Rough(api.turns(old(api.clock) + 1)) ==>
      !api.interrupted && r.Err? && IsRetried(r.error)
    ensures Unobstructed(api, session) && |session.data| < |file| && next.finished.None? ==> |next.data| < |file|
    ensures api.turns(old(api.clock)).localRead.Readable? && !old(api.interrupted) && Signals(api.turns(old(api.clock) + 1)) ==>
      r == Err(Interrupted)
  {
    var look := api.ReadSource();
    if look.Unreadable? {
      return session, Err(UploadSource);
    }
    // The inclusive end of the Content-Range header fits into 64 bits.
    var last := offset + chunkSize - 1;
    assert offset <= last < |file| <= U64_MAX;
    next, r := Put(api, session, file, offset, last + 1, true, base);
  }

  // One chunk of a session that began at step start.
  method NextChunk(api: StorageApi, session: Session, file: Content, offset: nat, chunkSize: nat,
                   ghost base: Base, ghost start: nat)
    returns (next: Session, r: Result<ResumableProgress, AppError>, ghost puts: nat)
    requires Consistent(api, base, session, file) && session.finished.None?
    requires offset == |session.data| && 0 < chunkSize && offset + chunkSize <= |file| <= U64_MAX
    requires base.posts <= |api.posts| && (api.Exclusive() ==> Unheard(api, base, session))
    modifies api
    ensures api.Progress() && api.deletions == old(api.deletions) && Consistent(api, base, next, file)
    ensures next.target == session.target
    ensures r.Ok? && r.value.Complete? ==> next.finished == Some(r.value.generation)
    ensures r.Ok? && r.value.Offset? ==> next.finished.None? && r.value.next == |next.data|
    ensures r.Ok? && r.value.Offset? ==> offset <= r.value.next <= offset + chunkSize
    ensures r.Err? ==> UploadError(r.error) && Expected(r.error)
    ensures puts <= UPLOAD_ATTEMPTS
    ensures old(api.Calm()) && Unobstructed(api, session) ==> Advanced(r, offset)
    ensures Flaky(api.turns, start) && start <= old(api.clock) && !old(api.interrupted) && Unobstructed(api, session) ==>
      !api.interrupted && Advanced(r, offset)
    ensures Unobstructed(api, session) && |session.data| < |file| && next.finished.None? ==> |next.data| < |file|
    ensures r.Ok? && r.value.Complete? ==> !Orphaned(api.turns, api.posts, base.posts)
    ensures api.Exclusive() && !(r.Ok? && r.value.Complete?) ==> Unheard(api, base, next)
    ensures SignalOnce(api.turns) && !old(api.interrupted) && Unobstructed(api, session) ==>
      Told(api, r) && (r.Ok? ==> Advanced(r, offset))
  {
    if Flaky(api.turns, start) && start <= api.clock { FlakyLater(api.turns, start, api.clock); }
    if SignalOnce(api.turns) { SignalIsHeeded(api.turns, api.clock); }
    next, r, puts := UploadResumableChunk(api, session, file, offset, chunkSize, base);
  }

  // The offset loop. It ends because every pass returns or moves the offset.
  method RunSession(api: StorageApi, session: Session, file: Content, ghost base: Base)
    returns (next: Session, r: Result<nat, AppError>, ghost passes: nat, ghost puts: nat)
    requires Consistent(api, base, session, file) && session.finished.None? && session.data == []
    requires |file| <= U64_MAX
    requires base.posts <= |api.posts| && (api.Exclusive() ==> Unheard(api, base, session))
    modifies api
    ensures api.Progress() && api.deletions == old(api.deletions) && Consistent(api, base, next, file)
    ensures next.target == session.target
    ensures r.Ok? ==> next.finished == Some(r.value)
    ensures r.Err? ==> UploadError(r.error) && Expected(r.error)
    ensures passes <= |file| && puts <= UPLOAD_ATTEMPTS * passes
    ensures old(api.Calm()) && Unobstructed(api, session) ==> r.Ok?
    ensures r.Ok? ==> !Orphaned(api.turns, api.posts, base.posts)
    ensures api.Exclusive() && r.Err? ==> Unheard(api, base, next)
    ensures Flaky(api.turns, old(api.clock)) && !old(api.interrupted) && Unobstructed(api, session) && file != [] ==> r.Ok? && !api.interrupted
    ensures SignalOnce(api.turns) && !old(api.interrupted) && Unobstructed(api, session) && file != [] ==> Told(api, r)
  {
    next := session;
    passes, puts := 0, 0;
    var offset := 0;
    while offset < |file|
      invariant api.Progress() && api.deletions == old(api.deletions) && Consistent(api, base, next, file)
      invariant api.Exclusive() ==> Unheard(api, base, next)
      invariant next.target == session.target && next.finished.None?
      invariant passes <= offset == |next.data| && puts <= UPLOAD_ATTEMPTS * passes
      invariant Unobstructed(api, session) && file != [] ==> |next.data| < |file|
      invariant (Flaky(api.turns, old(api.clock)) || SignalOnce(api.turns)) && !old(api.interrupted) && Unobstructed(api, session) ==>
        !api.interrupted
      decreases |file| - offset
    {
      var chunkSize := if |file| - offset < RESUMABLE_CHUNK_SIZE then |file| - offset else RESUMABLE_CHUNK_SIZE;
      ghost var sent: nat;
      var chunk: Result<ResumableProgress, AppError>;
      next, chunk, sent := NextChunk(api, next, file, offset, chunkSize, base, old(api.clock));
      passes, puts := passes + 1, puts + sent;
      match chunk
      case Err(error) =>
        return next, Err(error), passes, puts;
      case Ok(Complete(generation)) =>
        return next, Ok(generation), passes, puts;
      case Ok(Offset(nextOffset)) =>
        if nextOffset > offset + chunkSize {
          return next, Err(StorageResponse(InvalidOffset)), passes, puts;
        }
        if nextOffset == offset {
          return next, Err(StorageResponse(NoProgress)), passes, puts;
        }
        offset := nextOffset;
    }
    var query: Result<ResumableProgress, AppError>;
    next, query := QueryResumableProgress(api, next, file, base);
    match query
    case Err(error) => r := Err(error);
    case Ok(Complete(generation)) => r := Ok(generation);
    case Ok(Offset(_)) => r := Err(StorageResponse(StoppedShort));
  }

  // Starting a session changes no object; an existing target refuses it.
  method StartResumableSession(api: StorageApi, target: ObjectPath, file: Content)
    returns (r: Result<Session, AppError>)
    requires api.Valid()
    modifies api
    ensures api.Progress() && api.Looking()
    ensures api.Exclusive() ==> api.Unchanged()
    ensures r.Ok? ==> r.value == Session(target, |file|, [], None)
    ensures r.Err? ==> RequestError(r.error) && Expected(r.error)
    ensures old(api.Calm()) && target !in old(api.live) ==> r.Ok?
    ensures r.Ok? ==> target !in api.live
    ensures BearsOpening(api.turns, old(api.clock)) && !old(api.interrupted) && api.Exclusive() && target !in old(api.live) ==>
      r.Ok? && !api.interrupted
    ensures SignalOnce(api.turns) && !old(api.interrupted) && api.Exclusive() && target !in old(api.live) ==> Told(api, r)
  {
    var attempt := 1;
    while true
      invariant 1 <= attempt <= UPLOAD_ATTEMPTS
      invariant api.Progress() && api.Looking()
      invariant api.Exclusive() || old(api.Calm()) ==> api.Unchanged()
      invariant BearsOpening(api.turns, old(api.clock)) && !old(api.interrupted) && api.Exclusive() && target !in old(api.live) ==>
        !api.interrupted && (if attempt == 1 then api.clock == old(api.clock) else attempt == 2 && Smooth(api.turns(api.clock)))
      invariant SignalOnce(api.turns) && !old(api.interrupted) && api.Exclusive() && target !in old(api.live) ==> attempt == 1 && !api.interrupted
      decreases UPLOAD_ATTEMPTS - attempt
    {
      r := RequestSession(api, target, file);
      if r.Ok? {
        return;
      }
      var error := r.error;
      if HasStatus(error, 401) && attempt < UPLOAD_ATTEMPTS {
        var token := api.Token();
        if token.Err? {
          return Err(token.error);
        }
      } else if IsRetryableResumableFailure(error) && !error.StorageResponse? && attempt < UPLOAD_ATTEMPTS {
        // wait and try again
      } else {
        return;
      }
      attempt := attempt + 1;
    }
  }

  method RequestSession(api: StorageApi, target: ObjectPath, file: Content) returns (r: Result<Session, AppError>)
    requires api.Valid()
    modifies api
    ensures api.Progress() && api.Looking() && api.clock == old(api.clock) + 1
    ensures api.Exclusive() || old(api.Calm()) ==> api.Unchanged()
    ensures r.Ok? ==> r.value == Session(target, |file|, [], None) && target !in api.live
    ensures r.Err? ==> RequestError(r.error) && Expected(r.error)
    ensures old(api.Clean()) && target !in old(api.live) ==> r.Ok? && !api.interrupted
    ensures !old(api.interrupted) && Rough(api.turns(old(api.clock))) && !Garbled(api.turns(old(api.clock)).delivery) ==>
      r.Err? && IsRetried(r.error) && !r.error.StorageResponse? && !api.interrupted
    ensures SignalOnce(api.turns) && !old(api.interrupted) && api.Exclusive() && target !in old(api.live) ==> Told(api, r)
  {
    if SignalOnce(api.turns) { assert SmoothOrStruck(api.turns, api.clock); }
    var d := api.Send(true);
    r := if d.Answered? && target !in api.live then Ok(Session(target, |file|, [], None))
         else Err(if d.Answered? then Storage(412) else d.error);
  }

  // How an upload leaves the objects: at most one version was created, an
  // existing object was not replaced, and a returned generation is the whole file.
  predicate UploadEnds(before: Objects, after: Objects, target: ObjectPath, file: Content, r: Result<nat, AppError>) {
    && (after == before || StorageApi.Created(before, after, target, file))
    && (r.Ok? ==> StorageApi.Created(before, after, target, file) && after[target].generation == r.value)
  }

  method UploadResumableLocked(api: StorageApi, target: ObjectPath, file: Content)
    returns (r: Result<nat, AppError>)
    requires api.Valid() && |file| <= U64_MAX
    modifies api
    ensures api.Progress() && api.deletions == old(api.deletions)
    ensures api.Exclusive() ==> api.OneStep() && UploadEnds(old(api.live), api.live, target, file, r)
    ensures r.Ok? ==> (target, r.value) in api.earned
    ensures r.Err? ==> UploadError(r.error)
    ensures old(api.Calm()) && api.Exclusive() && target !in old(api.live) ==> r.Ok?
    ensures r.Ok? ==> !api.OrphanedHere()
    ensures api.Exclusive() && r.Err? ==> (api.live == old(api.live) <==> !api.OrphanedHere())
    ensures api.Exclusive() && target in old(api.live) ==> api.live == old(api.live)
    ensures Flaky(api.turns, old(api.clock)) && Legible(api.turns, old(api.clock)) && !old(api.interrupted) && api.Exclusive() && target !in old(api.live) && file != [] ==> r.Ok?
    ensures SignalOnce(api.turns) && !old(api.interrupted) && api.Exclusive() && target !in old(api.live) && file != [] ==> Told(api, r)
  {
    var start := OpenSession(api, target, file);
    if start.Err? {
      return Err(start.error);
    }
    ghost var session;
    session, r := FinishOrCancel(api, start.value, file, Base(old(api.live), api.log, |api.posts|));
  }

  // A token, and a session opened with it.
  method OpenSession(api: StorageApi, target: ObjectPath, file: Content) returns (r: Result<Session, AppError>)
    requires api.Valid()
    modifies api
    ensures api.Progress() && api.Looking()
    ensures api.Exclusive() ==> api.Unchanged()
    ensures r.Ok? ==> r.value == Session(target, |file|, [], None) && target !in api.live
    ensures r.Err? ==> RequestError(r.error)
    ensures old(api.Calm()) && target !in old(api.live) ==> r.Ok?
    ensures Flaky(api.turns, old(api.clock)) && Legible(api.turns, old(api.clock)) && !old(api.interrupted) && api.Exclusive() && target !in old(api.live) ==>
      r.Ok? && !api.interrupted && Flaky(api.turns, api.clock)
    ensures SignalOnce(api.turns) && !old(api.interrupted) && api.Exclusive() && target !in old(api.live) ==> Told(api, r)
  {
    if Flaky(api.turns, api.clock) && Legible(api.turns, api.clock) {
      FlakyBearsOpening(api.turns, api.clock, api.clock);
      FlakyBearsOpening(api.turns, api.clock, api.clock + 1);
    }
    if SignalOnce(api.turns) { assert SmoothOrStruck(api.turns, api.clock); }
    var token := api.Token();
    if token.Err? {
      return Err(token.error);
    }
    r := StartResumableSession(api, target, file);
    if Flaky(api.turns, old(api.clock)) { FlakyLater(api.turns, old(api.clock), api.clock); }
  }

  // A failed session is cancelled. The failure keeps its own error, with that of
  // the cancellation beside it exactly when the cancellation got no answer.
  method FinishOrCancel(api: StorageApi, session: Session, file: Content, ghost base: Base)
    returns (ghost next: Session, r: Result<nat, AppError>)
    requires Consistent(api, base, session, file) && session.finished.None? && session.data == []
    requires |file| <= U64_MAX
    requires base.posts <= |api.posts| && (api.Exclusive() ==> Unheard(api, base, session))
    modifies api
    ensures api.Progress() && api.deletions == old(api.deletions) && Consistent(api, base, next, file)
    ensures next.target == session.target
    ensures r.Ok? ==> next.finished == Some(r.value)
    ensures r.Err? ==> UploadError(r.error)
    ensures r.Err? ==> api.clock > 0 && var cancel := Dispatch(Faced(api.turns(api.clock - 1), true), false);
      if cancel.Answered? then !r.error.Rollback?
      else r.error.Rollback? && !r.error.original.Rollback? && r.error.failures == [cancel.error]
    ensures old(api.Calm()) && Unobstructed(api, session) ==> r.Ok?
    ensures r.Ok? ==> !Orphaned(api.turns, api.posts, base.posts)
    ensures api.Exclusive() && r.Err? ==> Unheard(api, base, next)
    ensures Flaky(api.turns, old(api.clock)) && !old(api.interrupted) && Unobstructed(api, session) && file != [] ==> r.Ok?
    ensures SignalOnce(api.turns) && !old(api.interrupted) && Unobstructed(api, session) && file != [] ==> Told(api, r)
  {
    ghost var passes, puts;
    next, r, passes, puts := RunSession(api, session, file, base);
    if r.Err? {
      if SignalOnce(api.turns) { assert SmoothOrStruck(api.turns, api.clock); }
      var cancelled := CancelResumableSession(api);
      if cancelled.Err? {
        r := Err(WithRollback(r.error, [cancelled.error]));
      }
    }
  }

  // Cancelling frees the server's session; no object depends on it.
  method CancelResumableSession(api: StorageApi) returns (r: Result<(), AppError>)
    requires api.Valid()
    modifies api
    ensures api.Progress() && api.Looking()
    ensures api.Exclusive() ==> api.Unchanged()
    ensures api.clock == old(api.clock) + 1 && var d := Dispatch(Faced(api.turns(old(api.clock)), true), false);
      r == if d.Answered? then Ok(()) else Err(d.error)
  {
    api.ClearInterruptForRollback();
    var d := api.Send(true);
    r := if d.Answered? then Ok(()) else Err(d.error);
  }

  method LookAtSource(api: StorageApi, ghost start: nat) returns (look: LocalRead)
    requires api.Valid()
    modifies api
    ensures api.Progress() && api.Unchanged() && api.Looking()
    ensures look == api.turns(old(api.clock)).localRead && api.interrupted == old(api.interrupted) && api.clock == old(api.clock) + 1
    ensures old(api.Calm()) ==> look == Readable
    ensures Flaky(api.turns, start) && start <= old(api.clock) ==> look == Readable && LastsOn(api.turns, start, api.clock)
    ensures SignalOnce(api.turns) ==> look == Readable
  {
    if Flaky(api.turns, start) && start <= api.clock {
      FlakyRead(api.turns, start, api.clock);
      FlakyLater(api.turns, start, api.clock + 1);
    }
    if SignalOnce(api.turns) { assert SmoothOrStruck(api.turns, api.clock); }
    look := api.ReadSource();
  }

  // A flaky schedule stays so.
  ghost predicate LastsOn(turns: nat -> Turn, start: nat, now: nat) {
    && Flaky(turns, now) && (Legible(turns, start) ==> Legible(turns, now)) && (OnlyRefusals(turns, start) ==> OnlyRefusals(turns, now))
  }

  method UploadResumableFile(api: StorageApi, target: ObjectPath, file: Content) returns (r: Result<nat, AppError>)
    requires api.Valid() && |file| <= U64_MAX
    modifies api
    ensures api.Progress() && api.deletions == old(api.deletions)
    ensures api.Exclusive() ==> api.OneStep() && UploadEnds(old(api.live), api.live, target, file, r)
    ensures r.Ok? ==> (target, r.value) in api.earned
    ensures r.Err? ==> UploadError(r.error)
    ensures old(api.Calm()) && api.Exclusive() && target !in old(api.live) ==> r.Ok?
    ensures r.Ok? ==> !api.OrphanedHere()
    ensures api.Exclusive() && r.Err? && !MayHaveSentStorageRequest(r.error) ==> (api.live == old(api.live) <==> !api.OrphanedHere())
    ensures api.Exclusive() && target in old(api.live) ==> api.live == old(api.live)
    ensures r.Ok? ==> api.clock > 0 && api.turns(api.clock - 1).localRead.Readable?
    ensures Flaky(api.turns, old(api.clock)) && Legible(api.turns, old(api.clock)) && !old(api.interrupted) && api.Exclusive() && target !in old(api.live) && file != [] ==> r.Ok?
    ensures SignalOnce(api.turns) && !old(api.interrupted) && api.Exclusive() && target !in old(api.live) && file != [] ==> Told(api, r)
  {
    var look := LookAtSource(api, api.clock);
    if look.Unreadable? {
      return Err(UploadSource);
    }
    r := UploadResumableLocked(api, target, file);
    if r.Ok? {
      look := LookAtSource(api, old(api.clock));
      if !look.Readable? {
        r := Err(UploadSourceChanged);
      }
    }
  }

  // One attempt at a small upload: the source is checked before and after.
  method UploadFileChecked(api: StorageApi, target: ObjectPath, file: Content) returns (r: Result<nat, AppError>)
    requires api.Valid()
    modifies api
    ensures api.Progress() && api.deletions == old(api.deletions)
    ensures api.Exclusive() ==> api.OneStep() && UploadEnds(old(api.live), api.live, target, file, r)
    ensures api.Exclusive() && target in old(api.live) ==> r.Err? && api.Unchanged()
    ensures api.Exclusive() && target !in api.live ==> api.Unchanged()
    ensures r.Ok? ==> (target, r.value) in api.earned
    ensures r.Ok? ==> api.clock > 0 && api.turns(api.clock - 1).localRead.Readable?
    ensures r.Err? ==> UploadError(r.error)
    ensures old(api.Calm()) && api.Exclusive() && target !in old(api.live) ==> r.Ok?
    ensures if api.posts == old(api.posts) then r == Err(UploadSource) || r == Err(UploadSourceChanged)
            else Posted(api.turns, old(api.posts), api.posts, r)
    ensures api.Exclusive() ==>
      (api.live != old(api.live) <==>
        target !in old(api.live) && api.posts != old(api.posts) && TookEffect(api.turns, api.posts[|old(api.posts)|]))
    ensures api.turns(old(api.clock)).localRead.Unreadable? ==> r == Err(UploadSource) && api.posts == old(api.posts)
    ensures !old(api.interrupted) && LosesAnswer(api.turns, old(api.clock)) ==>
      r == Err(BROKEN) && api.clock == old(api.clock) + 3 && api.posts != old(api.posts) && LostEffect(api.turns, api.posts[|old(api.posts)|])
    ensures !old(api.interrupted) && api.Exclusive() && target !in old(api.live) && BearsOnce(api.turns, old(api.clock)) ==>
      if Smooth(api.turns(old(api.clock) + 2)) then r.Ok?
      else TurnedAway(r) && target !in api.live && !api.interrupted && api.clock == old(api.clock) + 3
    ensures SignalOnce(api.turns) && !old(api.interrupted) && api.Exclusive() && target !in old(api.live) ==> Told(api, r)
  {
    var failure := LookTwice(api);
    if failure.Some? {
      return Err(failure.value);
    }
    r := CreateThenLook(api, target, file);
  }

  // The source must be there and unchanged.
  method LookTwice(api: StorageApi) returns (failure: Option<AppError>)
    requires api.Valid()
    modifies api
    ensures api.Progress() && api.Unchanged() && api.Looking() && api.interrupted == old(api.interrupted)
    ensures failure.Some? ==> failure.value == UploadSource || failure.value == UploadSourceChanged
    ensures old(api.Calm()) ==> failure.None?
    ensures api.turns(old(api.clock)).localRead.Unreadable? ==> failure == Some(UploadSource)
    ensures api.turns(old(api.clock)).localRead.Readable? && api.turns(old(api.clock) + 1).localRead.Readable? ==>
      failure.None? && api.clock == old(api.clock) + 2
    ensures SignalOnce(api.turns) ==> failure.None?
  {
    if SignalOnce(api.turns) {
      assert SmoothOrStruck(api.turns, api.clock);
      assert SmoothOrStruck(api.turns, api.clock + 1);
    }
    var look := api.ReadSource();
    if look.Unreadable? {
      return Some(UploadSource);
    }
    look := api.ReadSource();
    failure :=
      if look.Readable? then None else Some(if look.Unreadable? then UploadSource else UploadSourceChanged);
  }

  // A failure that calls for another attempt.
  predicate TurnedAway(r: Result<nat, AppError>) {
    r.Err? && IsRetryableUploadFailure(r.error)
  }

  // One create, and a last look at the source.
  method CreateThenLook(api: StorageApi, target: ObjectPath, file: Content) returns (r: Result<nat, AppError>)
    requires api.Valid()
    modifies api
    ensures api.Progress() && api.deletions == old(api.deletions)
    ensures api.Exclusive() ==> api.OneStep() && UploadEnds(old(api.live), api.live, target, file, r)
    ensures api.Exclusive() && target in old(api.live) ==> r.Err? && api.Unchanged()
    ensures api.Exclusive() && target !in api.live ==> api.Unchanged()
    ensures r.Ok? ==> (target, r.value) in api.earned
    ensures r.Ok? ==> api.clock > 0 && api.turns(api.clock - 1).localRead.Readable?
    ensures r.Err? ==> UploadError(r.error)
    ensures old(api.Calm()) && api.Exclusive() && target !in old(api.live) ==> r.Ok?
    ensures Posted(api.turns, old(api.posts), api.posts, r)
    ensures api.Exclusive() ==>
      (api.live != old(api.live) <==>
        target !in old(api.live) && TookEffect(api.turns, api.posts[|old(api.posts)|]))
    ensures !old(api.interrupted) && LosesCreate(api.turns, old(api.clock)) ==>
      r == Err(BROKEN) && api.clock == old(api.clock) + 1 && LostEffect(api.turns, api.posts[|old(api.posts)|])
    ensures !old(api.interrupted) && api.Exclusive() && target !in old(api.live) ==>
      && (Smooth(api.turns(old(api.clock))) && api.turns(old(api.clock) + 1).localRead.Readable? ==> r.Ok?)
      && (Undistracted(api.turns(old(api.clock))) && Turned(api.turns(old(api.clock)).delivery) ==>
            TurnedAway(r) && target !in api.live && !api.interrupted && api.clock == old(api.clock) + 1)
    ensures SignalOnce(api.turns) && !old(api.interrupted) && api.Exclusive() && target !in old(api.live) ==> Told(api, r)
  {
    if SignalOnce(api.turns) {
      assert SmoothOrStruck(api.turns, api.clock);
      assert SmoothOrStruck(api.turns, api.clock + 1);
    }
    r := api.CreateObject(target, file);
    if r.Ok? {
      var look := api.ReadSource();
      if !look.Readable? {
        r := Err(UploadSourceChanged);
      }
    }
  }

  // One request went out: after an error that does not say so, it was not answered.
  predicate Posted(turns: nat -> Turn, before: seq<Post>, after: seq<Post>, r: Result<nat, AppError>) {
    && |after| == |before| + 1 && before == after[..|before|]
    && (r.Ok? ==> Met(turns, after[|before|]).Answered?)
    && (r.Err? && !MayHaveSentStorageRequest(r.error) ==> !Met(turns, after[|before|]).Answered?)
    && (r.Err? && IsRetryableUploadFailure(r.error) ==> !Met(turns, after[|before|]).Answered?)
  }

  const BROKEN: AppError := Http(HttpFailure(false, true, false, false))

  // The source is looked at twice, and the upload takes effect without an answer.
  predicate LosesAnswer(turns: nat -> Turn, c: nat) {
    turns(c).localRead.Readable? && turns(c + 1).localRead.Readable? && LosesCreate(turns, c + 2)
  }

  predicate LosesCreate(turns: nat -> Turn, c: nat) {
    !turns(c).signal && turns(c).foreign == map[] && turns(c).delivery == Lost(true, BrokenExchange(true, false, false))
  }

  // A schedule that lets the first attempt take effect without an answer, and
  // finds the source gone when the second begins.
  predicate Orphans(turns: nat -> Turn, c: nat) {
    LosesAnswer(turns, c) && turns(c + 3).localRead.Unreadable?
  }

  // Whole uploads are retried while no answer has come.
  method UploadFileWithRetries(api: StorageApi, target: ObjectPath, file: Content) returns (r: Result<nat, AppError>)
    requires api.Valid() && |file| <= U64_MAX
    modifies api
    ensures api.Progress() && api.deletions == old(api.deletions)
    ensures api.Exclusive() ==> api.OneStep() && UploadEnds(old(api.live), api.live, target, file, r)
    ensures r.Ok? ==> (target, r.value) in api.earned
    ensures r.Err? ==> UploadError(r.error)
    ensures old(api.Calm()) && api.Exclusive() && target !in old(api.live) && !StorageApi.Reserved(target) ==> r.Ok?
    ensures r.Ok? ==> !api.OrphanedHere()
    ensures api.Exclusive() && target in old(api.live) ==> api.live == old(api.live)
    ensures api.Exclusive() && target !in old(api.live) && r.Err? && !MayHaveSentStorageRequest(r.error) ==>
      (api.live == old(api.live) <==> !api.OrphanedHere())
    ensures !old(api.interrupted) && api.turns(old(api.clock)).localRead.Readable? && Orphans(api.turns, old(api.clock) + 1) ==>
      |file| < RESUMABLE_UPLOAD_THRESHOLD && !StorageApi.Reserved(target) ==> r == Err(UploadSource) && api.OrphanedHere()
    ensures Flaky(api.turns, old(api.clock)) && !old(api.interrupted) && api.Exclusive() && target !in old(api.live) && !StorageApi.Reserved(target) ==>
      && (|file| >= RESUMABLE_UPLOAD_THRESHOLD && Legible(api.turns, old(api.clock)) ==> r.Ok?)
      && (|file| < RESUMABLE_UPLOAD_THRESHOLD && OnlyRefusals(api.turns, old(api.clock)) ==> r.Ok?)
    ensures SignalOnce(api.turns) && !old(api.interrupted) && api.Exclusive() && target !in old(api.live) && !StorageApi.Reserved(target) ==> Told(api, r)
  {
    if StorageApi.Reserved(target) {
      return Err(Message);
    }
    var look := LookAtSource(api, api.clock);
    if look.Unreadable? {
      return Err(UploadSource);
    }
    if |file| >= RESUMABLE_UPLOAD_THRESHOLD {
      r := UploadResumableFile(api, target, file);
    } else {
      r := RetrySmallUpload(api, target, file);
    }
  }

  // A flaky schedule has turned away all attempts before this one.
  ghost predicate Endures(turns: nat -> Turn, start: nat, now: nat, attempt: nat) {
    && Flaky(turns, start) && OnlyRefusals(turns, start) && 1 <= attempt <= UPLOAD_ATTEMPTS
    && now == start + 3 * (attempt - 1) && RoughSteps(turns, start, now) >= attempt - 1
  }

  // Nine attempts may have been turned away, the tenth is not.
  lemma SmallAttempted(turns: nat -> Turn, start: nat, now: nat, attempt: nat)
    requires Endures(turns, start, now, attempt)
    ensures BearsOnce(turns, now)
    ensures !Smooth(turns(now + 2)) ==> Endures(turns, start, now + 3, attempt + 1)
  {
    FlakyBearsOnce(turns, start, now);
    MoreSteps(turns, start, now, now + 2);
    if attempt == UPLOAD_ATTEMPTS { NotATenth(turns, start, now + 2); }
    if !Smooth(turns(now + 2)) { OneMoreRough(turns, start, now + 2, now + 3); }
  }

  // One attempt, seen from the first one's beginning: an attempt that goes
  // unanswered leaves the upload orphaned exactly when it was or has just become so.
  method AttemptUpload(api: StorageApi, target: ObjectPath, file: Content, ghost sent: nat,
                       ghost start: nat, ghost attempt: nat) returns (r: Result<nat, AppError>)
    requires api.Valid() && sent <= |api.posts|
    modifies api
    ensures api.Progress() && api.deletions == old(api.deletions)
    ensures api.Exclusive() ==> api.OneStep() && UploadEnds(old(api.live), api.live, target, file, r)
    ensures api.Exclusive() && target in old(api.live) ==> r.Err? && api.Unchanged()
    ensures api.Exclusive() && target !in api.live ==> api.Unchanged()
    ensures r.Ok? ==> (target, r.value) in api.earned && !Orphaned(api.turns, api.posts, sent)
    ensures r.Err? ==> UploadError(r.error)
    ensures old(api.Calm()) && api.Exclusive() && target !in old(api.live) ==> r.Ok?
    ensures Unheeded(r) && old(Orphaned(api.turns, api.posts, sent)) ==> Orphaned(api.turns, api.posts, sent)
    ensures Unheeded(r) && api.Exclusive() && target !in old(api.live) ==>
      (Orphaned(api.turns, api.posts, sent) <==> old(Orphaned(api.turns, api.posts, sent)) || api.live != old(api.live))
    ensures api.turns(old(api.clock)).localRead.Unreadable? ==> r == Err(UploadSource) && api.posts == old(api.posts)
    ensures !old(api.interrupted) && LosesAnswer(api.turns, old(api.clock)) ==>
      r == Err(BROKEN) && api.clock == old(api.clock) + 3 && Orphaned(api.turns, api.posts, sent)
    ensures !old(api.interrupted) && api.Exclusive() && target !in old(api.live) && Endures(api.turns, start, old(api.clock), attempt) ==>
      r.Ok? || (TurnedAway(r) && target !in api.live && !api.interrupted && Endures(api.turns, start, api.clock, attempt + 1))
    ensures SignalOnce(api.turns) && !old(api.interrupted) && api.Exclusive() && target !in old(api.live) ==> Told(api, r)
  {
    if Endures(api.turns, start, api.clock, attempt) { SmallAttempted(api.turns, start, api.clock, attempt); }
    r := UploadFileChecked(api, target, file);
    if api.posts != old(api.posts) {
      OrphanedOneMore(api.turns, old(api.posts), api.posts, sent);
    }
  }

  predicate Unheeded(r: Result<nat, AppError>) {
    r.Err? && (IsRetryableUploadFailure(r.error) || !MayHaveSentStorageRequest(r.error))
  }

  method RetrySmallUpload(api: StorageApi, target: ObjectPath, file: Content) returns (r: Result<nat, AppError>)
    requires api.Valid()
    modifies api
    ensures api.Progress() && api.deletions == old(api.deletions)
    ensures api.Exclusive() ==> api.OneStep() && UploadEnds(old(api.live), api.live, target, file, r)
    ensures r.Ok? ==> (target, r.value) in api.earned
    ensures r.Err? ==> UploadError(r.error)
    ensures old(api.Calm()) && api.Exclusive() && target !in old(api.live) ==> r.Ok?
    ensures r.Ok? ==> !api.OrphanedHere()
    ensures api.Exclusive() && target in old(api.live) ==> api.live == old(api.live)
    ensures api.Exclusive() && target !in old(api.live) && r.Err? && !MayHaveSentStorageRequest(r.error) ==>
      (api.live == old(api.live) <==> !api.OrphanedHere())
    ensures !old(api.interrupted) && Orphans(api.turns, old(api.clock)) ==>
      r == Err(UploadSource) && api.OrphanedHere()
    ensures Flaky(api.turns, old(api.clock)) && OnlyRefusals(api.turns, old(api.clock)) && !old(api.interrupted) && api.Exclusive() && target !in old(api.live) ==> r.Ok?
    ensures SignalOnce(api.turns) && !old(api.interrupted) && api.Exclusive() && target !in old(api.live) ==> Told(api, r)
  {
    var attempt := 1;
    while true
      invariant 1 <= attempt <= UPLOAD_ATTEMPTS
      invariant api.Progress() && api.deletions == old(api.deletions)
      invariant api.Exclusive() && (target in old(api.live) || target !in api.live) ==> api.Unchanged()
      invariant api.Exclusive() ==> api.OneStep()
      invariant api.Exclusive() ==> api.live == old(api.live) || StorageApi.Created(old(api.live), api.live, target, file)
      invariant old(api.Calm()) && target !in old(api.live) && api.Exclusive() ==> attempt == 1 && target !in api.live
      invariant api.Exclusive() && target !in old(api.live) ==> (api.live == old(api.live) <==> !api.OrphanedHere())
      invariant attempt == 1 ==> api.clock == old(api.clock) && api.interrupted == old(api.interrupted)
      invariant attempt > 1 && !old(api.interrupted) && Orphans(api.turns, old(api.clock)) ==>
        api.clock == old(api.clock) + 3 && api.OrphanedHere()
      invariant Flaky(api.turns, old(api.clock)) && OnlyRefusals(api.turns, old(api.clock)) && !old(api.interrupted) && api.Exclusive() && target !in old(api.live) ==>
        !api.interrupted && target !in api.live && Endures(api.turns, old(api.clock), api.clock, attempt)
      invariant SignalOnce(api.turns) && !old(api.interrupted) && api.Exclusive() && target !in old(api.live) ==>
        attempt == 1 && !api.interrupted && target !in api.live
      decreases UPLOAD_ATTEMPTS - attempt
    {
      r := AttemptUpload(api, target, file, |old(api.posts)|, old(api.clock), attempt);
      if r.Ok? || !IsRetryableUploadFailure(r.error) || attempt == UPLOAD_ATTEMPTS {
        return;
      }
      attempt := attempt + 1;
    }
  }
}
