// The objects of all buckets, the events that change them, and the outcome of
// each request (src/storage_transport.rs:93-180).
module ObjectStore {
  import opened Wrappers
  import opened Errors
  import opened ObjectPaths
  import Utf8

  type Byte = Utf8.Byte
  type Content = seq<Byte>

  datatype Version = Version(generation: nat, content: Content)
  type Objects = map<ObjectPath, Version>

  const BUCKET_LOCK_OBJECT: string := ".task-googlecloud-lock"

  function Contents(objects: Objects): map<ObjectPath, Content> {
    map p | p in objects :: objects[p].content
  }

  predicate Matches(objects: Objects, path: ObjectPath, generation: Option<nat>) {
    path in objects && (generation.Some? ==> objects[path].generation == generation.value)
  }

  // ---------------------------------------------------------------- requests

  type FaultStatus = s: nat | s != 404 && s != 412 witness 500

  // Ways in which the answer to a request that was sent can be missing. Statuses
  // 404 and 412 are answers: the server sends them only when they are true.
  datatype Fault =
    | BrokenExchange(request: bool, timeout: bool, body: bool)
    | FaultyStatus(status: FaultStatus)
    | UnreadableAnswer
    | Signalled

  datatype Delivery =
    | Served
    | TokenFailed(cause: AppError)
    | NotConnected(request: bool, timeout: bool, body: bool)
    | Lost(applied: bool, fault: Fault)

  datatype LocalRead = Readable | Unreadable | Changed

  // Everything the outside world decides at one step: writes of others that
  // ignore the lock, a signal, the fate of the request, how many further calls a
  // rewrite needs, how many bytes of a chunk are kept, and what a look at the
  // local file finds.
  datatype Turn = Turn(
    foreign: map<ObjectPath, Option<Content>>,
    signal: bool,
    delivery: Delivery,
    pages: nat,
    persisted: nat,
    localRead: LocalRead)

  predicate Smooth(turn: Turn) {
    turn.foreign == map[] && !turn.signal && turn.delivery.Served? && turn.localRead.Readable? && turn.persisted > 0
  }

  const SMOOTH: Turn := Turn(map[], false, Served, 0, 1, Readable)

  // A signal that arrives before anything is sent at this step.
  predicate Signals(turn: Turn) {
    turn.foreign == map[] && turn.signal && !turn.delivery.TokenFailed? && turn.localRead.Readable?
  }

  // A signal that arrives while the request of this step runs.
  predicate CutsOff(turn: Turn) {
    turn.foreign == map[] && !turn.signal && turn.delivery.Lost? && turn.delivery.fault.Signalled?
  }

  predicate Interrupts(turn: Turn) {
    Signals(turn) || CutsOff(turn)
  }

  // The step of a schedule that does not go smoothly, if only one does not.
  ghost function Flaw(turns: nat -> Turn): nat {
    if c: nat :| !Smooth(turns(c)) then c else 0
  }

  ghost predicate OneFlaw(turns: nat -> Turn) {
    forall i {:trigger turns(i)} :: i != Flaw(turns) ==> Smooth(turns(i))
  }

  ghost predicate OneSignal(turns: nat -> Turn) {
    OneFlaw(turns) && Signals(turns(Flaw(turns)))
  }

  // The same, said of one step after the other.
  ghost predicate SignalOnce(turns: nat -> Turn) {
    forall i {:trigger SmoothOrStruck(turns, i)} :: SmoothOrStruck(turns, i)
  }

  ghost predicate SmoothOrStruck(turns: nat -> Turn, i: nat) {
    Smooth(turns(i)) || (i == Flaw(turns) && Signals(turns(i)))
  }

  lemma OneSignalInstance(c: nat) returns (turns: nat -> Turn)
    ensures OneSignal(turns) && Flaw(turns) == c && forall i :: turns(i).foreign == map[]
  {
    turns := i => if i == c then SMOOTH.(signal := true) else SMOOTH;
    assert !Smooth(turns(c));
  }

  lemma OneSignalIsOnce(turns: nat -> Turn)
    requires OneSignal(turns)
    ensures SignalOnce(turns)
  {
  }

  // What a request met on its way: it stayed here, it was answered, or it left
  // and its answer is missing.
  datatype Dispatched =
    | NotSent(error: AppError)
    | Answered
    | Unanswered(applied: bool, error: AppError)

  function FaultError(fault: Fault): AppError {
    match fault
    case BrokenExchange(request, timeout, body) => Http(HttpFailure(false, request, timeout, body))
    case FaultyStatus(status) => Storage(status)
    case UnreadableAnswer => StorageResponse(UnreadableBody)
    case Signalled => InterruptedAfterRequest
  }

  // The token is fetched before the interrupt flag is looked at; a signal that
  // arrives while the request runs makes it uncertain, answered or not.
  function Dispatch(turn: Turn, interrupted: bool): Dispatched {
    if turn.delivery.TokenFailed? then NotSent(Token(turn.delivery.cause, false))
    else if interrupted || turn.signal then NotSent(Interrupted)
    else
      match turn.delivery
      case NotConnected(request, timeout, body) => NotSent(Http(HttpFailure(true, request, timeout, body)))
      case Lost(applied, fault) => Unanswered(applied, FaultError(fault))
      case _ => Answered
  }

  // A request that carries a token fetched earlier cannot fail for want of one.
  function Faced(turn: Turn, holdsToken: bool): Turn {
    if holdsToken && turn.delivery.TokenFailed? then turn.(delivery := Served) else turn
  }

  // ------------------------------------------------- what requests ran into

  // A DELETE, or the look-up that follows one: its step, and whether a signal was
  // already pending.
  datatype Attempt = Attempt(at: nat, pending: bool)

  // The schedule refused the attempt a connection.
  predicate RefusedAt(turns: nat -> Turn, a: Attempt) {
    var turn := turns(a.at);
    turn.delivery.NotConnected? && !turn.signal && !a.pending
  }

  // Since position base, a DELETE or the look-up after it was refused.
  ghost predicate Stranded(turns: nat -> Turn, deletions: seq<Attempt>, base: nat) {
    exists i :: base <= i < |deletions| && RefusedAt(turns, deletions[i])
  }

  lemma StrandedPush(turns: nat -> Turn, deletions: seq<Attempt>, a: Attempt, base: nat)
    requires base <= |deletions|
    ensures Stranded(turns, deletions + [a], base) <==> Stranded(turns, deletions, base) || RefusedAt(turns, a)
  {
    var more := deletions + [a];
    assert more[|deletions|] == a;
    if i :| base <= i < |deletions| && RefusedAt(turns, deletions[i]) {
      assert RefusedAt(turns, more[i]);
    }
  }

  lemma StrandedConcat(turns: nat -> Turn, first: seq<Attempt>, all: seq<Attempt>, base: nat)
    requires base <= |first| && first <= all
    ensures Stranded(turns, all, base) <==> Stranded(turns, first, base) || Stranded(turns, all, |first|)
  {
    if i :| base <= i < |first| && RefusedAt(turns, first[i]) {
      assert RefusedAt(turns, all[i]);
    }
  }

  // A request of an upload: a POST or a PUT to a session. It completes if, taking
  // effect, it creates the object.
  datatype Post = Post(at: nat, pending: bool, holdsToken: bool, completes: bool)

  function Met(turns: nat -> Turn, p: Post): Dispatched {
    Dispatch(Faced(turns(p.at), p.holdsToken), p.pending)
  }

  // The schedule let a completing request take effect and lost its answer.
  predicate LostEffect(turns: nat -> Turn, p: Post) {
    p.completes && Met(turns, p).Unanswered? && Met(turns, p).applied
  }

  predicate TookEffect(turns: nat -> Turn, p: Post) {
    p.completes && (Met(turns, p).Answered? || LostEffect(turns, p))
  }

  // Since position base, a completing request took effect, its answer was lost,
  // and no request after it was answered.
  ghost predicate Orphaned(turns: nat -> Turn, posts: seq<Post>, base: nat) {
    exists i :: base <= i < |posts| && LostEffect(turns, posts[i]) && Silent(turns, posts, i + 1)
  }

  ghost predicate Silent(turns: nat -> Turn, posts: seq<Post>, from: nat) {
    forall j :: from <= j < |posts| ==> !Met(turns, posts[j]).Answered?
  }

  lemma OrphanedOneMore(turns: nat -> Turn, before: seq<Post>, after: seq<Post>, base: nat)
    requires base <= |before| && |after| == |before| + 1 && before == after[..|before|]
    ensures var p := after[|before|];
      && (Met(turns, p).Answered? ==> !Orphaned(turns, after, base))
      && (!Met(turns, p).Answered? ==>
            (Orphaned(turns, after, base) <==> Orphaned(turns, before, base) || LostEffect(turns, p)))
  {
    OrphanedPush(turns, before, after[|before|], base);
    assert after == before + [after[|before|]];
  }

  lemma OrphanedPush(turns: nat -> Turn, posts: seq<Post>, p: Post, base: nat)
    requires base <= |posts|
    ensures Met(turns, p).Answered? ==> !Orphaned(turns, posts + [p], base)
    ensures !Met(turns, p).Answered? ==>
      (Orphaned(turns, posts + [p], base) <==> Orphaned(turns, posts, base) || LostEffect(turns, p))
  {
    var more := posts + [p];
    assert more[|posts|] == p;
    if i :| base <= i < |posts| && LostEffect(turns, posts[i]) && Silent(turns, posts, i + 1) {
      assert LostEffect(turns, more[i]);
      if !Met(turns, p).Answered? { assert Silent(turns, more, i + 1); }
    }
    if i :| base <= i < |more| && LostEffect(turns, more[i]) && Silent(turns, more, i + 1) {
      if i < |posts| {
        assert LostEffect(turns, posts[i]);
        forall j | i + 1 <= j < |posts| ensures !Met(turns, posts[j]).Answered? { assert more[j] == posts[j]; }
      }
    }
    if LostEffect(turns, p) { assert Silent(turns, more, |posts| + 1); }
  }

  // What was heard of stays heard of.
  lemma OrphanedConcat(turns: nat -> Turn, first: seq<Post>, all: seq<Post>, base: nat)
    requires base <= |first| && first <= all && !Orphaned(turns, first, base)
    ensures Orphaned(turns, all, base) <==> Orphaned(turns, all, |first|)
  {
    forall i | base <= i < |first| && LostEffect(turns, all[i]) ensures !Silent(turns, all, i + 1) {
      assert LostEffect(turns, first[i]);
      var j :| i + 1 <= j < |first| && Met(turns, first[j]).Answered?;
      assert all[j] == first[j];
    }
  }

  // A signal alone neither strands a move nor orphans an upload.
  lemma SignalLosesNothing(turns: nat -> Turn, deletions: seq<Attempt>, posts: seq<Post>, base: nat)
    requires SignalOnce(turns)
    ensures !Stranded(turns, deletions, base) && !Orphaned(turns, posts, base)
  {
    forall i | base <= i < |deletions| ensures !RefusedAt(turns, deletions[i]) {
      assert SmoothOrStruck(turns, deletions[i].at);
    }
    forall i | base <= i < |posts| ensures !LostEffect(turns, posts[i]) {
      assert SmoothOrStruck(turns, posts[i].at);
    }
  }

  // Errors a single request can end with.
  predicate RequestError(e: AppError) {
    e.Interrupted? || e.InterruptedAfterRequest? || e.Http? || e.Storage? || e.StorageResponse? || e.Token?
  }

  // Another writer's uploads and deletions; all of them get fresh generations.
  function Interfere(objects: Objects, foreign: map<ObjectPath, Option<Content>>, generation: nat): Objects {
    map p | p in objects.Keys + foreign.Keys && (p in foreign ==> foreign[p].Some?)
      :: if p in foreign then Version(generation, foreign[p].value) else objects[p]
  }

  // -------------------------------------------------------------- event log

  datatype Change =
    | Foreign
    | Create(path: ObjectPath, version: Version)
    | Copy(source: ObjectPath, sourceGeneration: nat, target: ObjectPath, generation: nat)
    | Delete(path: ObjectPath, generation: nat)

  datatype Event = Event(change: Change, before: Objects, after: Objects)

  // A generation this run may delete: one it created, or one it had copied.
  ghost predicate Earned(log: seq<Event>, path: ObjectPath, generation: nat) {
    exists i :: 0 <= i < |log| && Earns(log[i].change, path, generation)
  }

  predicate Earns(change: Change, path: ObjectPath, generation: nat) {
    match change
    case Create(p, v) => p == path && v.generation == generation
    case Copy(s, sg, t, g) => (s == path && sg == generation) || (t == path && g == generation)
    case _ => false
  }

  // The rules every change made by this client obeys, whatever others write in
  // between: it writes only where nothing is, under a generation nothing live
  // has, and removes only a generation it has earned.
  ghost predicate Disciplined(log: seq<Event>, i: nat)
    requires i < |log|
  {
    var e := log[i];
    match e.change
    case Foreign => true
    case Create(p, v) =>
      p !in e.before && e.after == e.before[p := v] && FreshGeneration(e.before, v.generation)
    case Copy(s, sg, t, g) =>
      && t !in e.before && Matches(e.before, s, Some(sg)) && FreshGeneration(e.before, g)
      && e.after == e.before[t := Version(g, e.before[s].content)]
    case Delete(p, g) =>
      && Matches(e.before, p, Some(g)) && e.after == e.before - {p}
      && Earned(log[..i], p, g)
  }

  predicate FreshGeneration(objects: Objects, generation: nat) {
    forall p :: p in objects ==> objects[p].generation < generation
  }

  // The log is a chain of disciplined events ending in the current objects.
  ghost predicate WellFormed(log: seq<Event>, live: Objects) {
    && (forall i :: 0 <= i < |log| ==> Disciplined(log, i))
    && (forall i {:trigger Linked(log, i)} :: 0 <= i < |log| - 1 ==> Linked(log, i))
    && (log != [] ==> log[|log| - 1].after == live)
  }

  predicate Linked(log: seq<Event>, i: nat)
    requires i < |log| - 1
  {
    log[i].after == log[i + 1].before
  }

  lemma ExtendLog(log: seq<Event>, live: Objects, e: Event)
    requires WellFormed(log, live)
    requires e.before == live && Disciplined(log + [e], |log|)
    ensures WellFormed(log + [e], e.after)
  {
    var longer := log + [e];
    forall i | 0 <= i < |longer| ensures Disciplined(longer, i) {
      if i < |log| {
        assert longer[..i] == log[..i];
        assert Disciplined(log, i);
      }
    }
    forall i | 0 <= i < |longer| - 1 ensures Linked(longer, i) {
      if i < |log| - 1 { assert Linked(log, i); }
    }
  }

  lemma EarnedInPrefix(log: seq<Event>, n: nat, path: ObjectPath, generation: nat)
    requires n <= |log| && Earned(log[..n], path, generation)
    ensures Earned(log, path, generation)
  {
    var i :| 0 <= i < |log[..n]| && Earns(log[..n][i].change, path, generation);
    assert Earns(log[i].change, path, generation);
  }

  // What the rules buy another writer: as long as the others leave a version
  // alone, so does this client unless it created or copied it, however they interleave.
  lemma {:induction false} ForeignVersionsSurvive(log: seq<Event>, live: Objects, from: nat, path: ObjectPath)
    requires WellFormed(log, live)
    requires from < |log| && path in log[from].after
    requires !Earned(log, path, log[from].after[path].generation)
    requires forall i :: from < i < |log| && log[i].change.Foreign? && path in log[i].before
               ==> path in log[i].after && log[i].after[path] == log[i].before[path]
    ensures path in live && live[path] == log[from].after[path]
    decreases |log| - from
  {
    if from < |log| - 1 {
      var next := log[from + 1];
      assert Linked(log, from);
      assert Disciplined(log, from + 1);
      if next.change.Delete? {
        EarnedInPrefix(log, from + 1, next.change.path, next.change.generation);
      }
      ForeignVersionsSurvive(log, live, from + 1, path);
    }
  }

  // ------------------------------------------------------------ relocations

  // Every state a move from a to b may pass through or stop in, forwards or
  // backwards: the bytes are at a, at b or at both, and nothing else differs.
  predicate Relocates(before: Objects, after: Objects, a: ObjectPath, b: ObjectPath) {
    if a !in before || b in before then after == before
    else
      && after - {a, b} == before - {a, b}
      && (a in after || b in after)
      && (a in after ==> after[a].content == before[a].content)
      && (b in after ==> after[b].content == before[a].content)
  }

  lemma RelocatesNothingElse(before: Objects, after: Objects, a: ObjectPath, b: ObjectPath)
    requires Relocates(before, after, a, b)
    ensures forall p :: p != a && p != b ==> (p in after <==> p in before) && (p in after ==> after[p] == before[p])
  {
    if a in before && b !in before {
      forall p | p != a && p != b ensures (p in after <==> p in before) && (p in after ==> after[p] == before[p]) {
        assert p in after - {a, b} <==> p in before - {a, b};
        if p in after { assert (after - {a, b})[p] == after[p]; assert (before - {a, b})[p] == before[p]; }
      }
    }
  }

  // Every logged state since log0 is one that a move from a to b may pass through.
  ghost predicate Trail(log0: seq<Event>, log1: seq<Event>, before: Objects, a: ObjectPath, b: ObjectPath) {
    && log0 <= log1
    && forall i :: |log0| <= i < |log1| ==> Relocates(before, log1[i].after, a, b)
  }

  // Undoing a move that got as far as deleting its source stays inside the move.
  lemma RelocatesBack(before: Objects, middle: Objects, after: Objects, a: ObjectPath, b: ObjectPath)
    requires a in before && b !in before
    requires Relocates(before, middle, a, b) && Relocates(middle, after, b, a)
    ensures Relocates(before, after, a, b)
  {
    assert {b, a} == {a, b};
  }

  lemma TrailBack(log0: seq<Event>, log1: seq<Event>, log2: seq<Event>,
                  before: Objects, middle: Objects, a: ObjectPath, b: ObjectPath)
    requires a in before && b !in before && Relocates(before, middle, a, b)
    requires Trail(log0, log1, before, a, b) && Trail(log1, log2, middle, b, a)
    ensures Trail(log0, log2, before, a, b)
  {
    forall i | |log0| <= i < |log2| ensures Relocates(before, log2[i].after, a, b) {
      if |log1| <= i {
        RelocatesBack(before, middle, log2[i].after, a, b);
      } else {
        assert log2[i] == log1[i];
      }
    }
  }
}
