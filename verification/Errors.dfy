// The error algebra of src/error.rs. Human-readable texts are dropped; every
// field that a decision reads is kept.
module Errors {
  import opened Wrappers

  // What reqwest reports about a failed HTTP exchange.
  datatype HttpFailure = HttpFailure(connect: bool, request: bool, timeout: bool, body: bool)

  datatype IoKind = AlreadyExists | NotFound | OtherIo

  // Which check of an answer failed.
  datatype ResponseDetail =
    | UnreadableBody | MissingRange | InvalidRange | BeyondTotal | UnexpectedStatus
    | NoProgress | InvalidOffset | StoppedShort | MissingSession

  datatype AppError =
    | Message
    | Io(kind: IoKind)
    | UploadSource
    | UploadSourceChanged
    | Http(failure: HttpFailure)
    | Storage(status: nat)
    | StorageResponse(detail: ResponseDetail)
    | BucketLockConflict(cause: AppError)
    | Command
    | Token(inner: AppError, reached: bool)
    | Recovery
    | Collision(names: set<string>)
    | Rollback(original: AppError, failures: seq<AppError>)
    | Interrupted
    | InterruptedAfterMoveRollback(restoredGeneration: nat)
    | InterruptedAfterRequest
    | UnsupportedPlatform
    | InvalidStorageUri

  // An operation failure together with the failures met while undoing it.
  function WithRollback(original: AppError, failures: seq<AppError>): AppError {
    if failures == [] then original else Rollback(original, failures)
  }

  predicate MayHaveReachedStorage(e: AppError) {
    match e
    case Http(failure) => !failure.connect
    case UploadSource => false
    case Command => false
    case Interrupted => false
    case Token(_, reached) => reached
    case _ => true
  }

  predicate IsInterrupted(e: AppError) {
    match e
    case Interrupted => true
    case InterruptedAfterMoveRollback(_) => true
    case InterruptedAfterRequest => true
    case Token(inner, _) => IsInterrupted(inner)
    case _ => false
  }

  function RestoredMoveGeneration(e: AppError): Option<nat> {
    match e
    case InterruptedAfterMoveRollback(g) => Some(g)
    case Rollback(original, _) => RestoredMoveGeneration(original)
    case _ => None
  }

  predicate IsBucketLockConflict(e: AppError) {
    match e
    case BucketLockConflict(_) => true
    case Rollback(original, _) => IsBucketLockConflict(original)
    case _ => false
  }

  function MarkStorageReached(e: AppError): AppError {
    if e.Token? then e.(reached := true) else e
  }

  predicate IsRetryableUploadFailure(e: AppError) {
    e.Http? && !e.failure.body && (e.failure.connect || (e.failure.request && !e.failure.timeout))
  }

  predicate IsRetryableResumableFailure(e: AppError) {
    || (e.Http? && !e.failure.body && (e.failure.connect || e.failure.request || e.failure.timeout))
    || (e.Storage? && e.status in [408, 429, 500, 502, 503, 504])
    || e.StorageResponse?
  }

  predicate MayHaveSentStorageRequest(e: AppError) {
    match e
    case Http(failure) => !failure.connect
    case Storage(_) => true
    case StorageResponse(_) => true
    case UploadSourceChanged => true
    case InterruptedAfterRequest => true
    case Token(_, reached) => reached
    case Rollback(original, _) => MayHaveSentStorageRequest(original)
    case _ => false
  }

  predicate HasStatus(e: AppError, status: nat) {
    e.Storage? && e.status == status
  }

  // The outcomes after which an operator has to look at the bucket. Every other
  // error claims that the run left nothing behind.
  predicate NeedsRecovery(e: AppError) {
    e.Recovery? || e.Rollback?
  }

  // An error that admits a sent request never counts as one that stayed local,
  // however deep the failures of undoing it are nested.
  lemma {:induction false} SentImpliesReached(e: AppError)
    requires MayHaveSentStorageRequest(e)
    ensures MayHaveReachedStorage(e)
    ensures MayHaveReachedStorage(MarkStorageReached(e))
  {
    match e
    case Rollback(original, _) => SentImpliesReached(original);
    case _ =>
  }

  // Marking repairs token failures only: exactly the connection failures, local
  // read failures, command failures and early interruptions keep claiming that
  // nothing was sent, even when an earlier request already changed the bucket.
  lemma MarkingRepairsTokensOnly(e: AppError)
    ensures !MayHaveReachedStorage(MarkStorageReached(e))
       <==> e.UploadSource? || e.Command? || e.Interrupted? || (e.Http? && e.failure.connect)
    ensures e.Token? ==> MayHaveSentStorageRequest(MarkStorageReached(e))
    ensures IsInterrupted(MarkStorageReached(e)) == IsInterrupted(e)
    ensures RestoredMoveGeneration(MarkStorageReached(e)) == RestoredMoveGeneration(e)
  {
    if e.Token? { assert MarkStorageReached(e) == Token(e.inner, true); }
  }

  // Wrapping an error with rollback failures loses none of the facts its callers
  // branch on, and never turns a recoverable error into a plain one.
  lemma RollbackKeepsTheCause(e: AppError, failures: seq<AppError>)
    ensures RestoredMoveGeneration(WithRollback(e, failures)) == RestoredMoveGeneration(e)
    ensures IsBucketLockConflict(WithRollback(e, failures)) == IsBucketLockConflict(e)
    ensures MayHaveSentStorageRequest(WithRollback(e, failures)) == MayHaveSentStorageRequest(e)
    ensures !NeedsRecovery(WithRollback(e, failures)) <==> failures == [] && !NeedsRecovery(e)
  {
  }
}
