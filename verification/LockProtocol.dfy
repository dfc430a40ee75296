// src/storage.rs:246-304 and 330-414: the bucket lock as a protocol between any
// number of clients and one store. A create request carries a fresh token and is
// refused while a lock object is live; a delete request names one generation.
// Requests may take effect late, repeatedly or never, answers may be lost, and a
// client may stop anywhere. Nesting is part of the protocol: a client inside an
// operation may acquire further buckets.
module LockProtocol {
  type Client = nat
  type Token = nat
  type Bucket = string

  datatype LockVersion = LockVersion(generation: nat, token: Token)
  datatype Lock = Lock(bucket: Bucket, generation: nat)

  // How far the acquisition of the next bucket has come.
  datatype Attempt =
    | Ready
    | Creating(token: Token)                  // create sent, no answer yet
    | Reading(token: Token)                   // answer lost: whose token is stored?
    | Locating(token: Token)                  // our token: which generation is it?
    | Removing(token: Token, generation: nat) // about to delete that generation

  datatype Mode =
    | Running
    | Acquiring(todo: seq<Bucket>, base: nat, attempt: Attempt)
    | Releasing(base: nat)

  // Held locks form a stack; marks are the heights at which the running
  // operations began.
  datatype Thread = Thread(held: seq<Lock>, marks: seq<nat>, mode: Mode)

  datatype Creation = Creation(bucket: Bucket, token: Token)
  datatype Removal = Removal(client: Client, lock: Lock)

  datatype State = State(
    live: map<Bucket, LockVersion>,
    nextGeneration: nat,
    threads: map<Client, Thread>,
    creates: set<Creation>,          // create requests ever sent
    removals: set<Removal>,          // delete requests ever sent
    created: map<nat, Creation>,     // every version that ever existed
    owner: map<Token, Client>)       // who drew which token

  datatype Action =
    | Begin(c: Client, todo: seq<Bucket>)
    | SendCreate(c: Client, token: Token)
    | Granted(c: Client, generation: nat)
    | GiveUp(c: Client)
    | LoseAnswer(c: Client)
    | ReadBody(c: Client, lost: bool)
    | ReadGeneration(c: Client, lost: bool)
    | SendRemoval(c: Client)
    | Enter(c: Client)
    | Leave(c: Client)
    | ReleaseTop(c: Client, sent: bool)
    | Finish(c: Client)
    | Stop(c: Client)
    | ServeCreate(creation: Creation)
    | ServeRemoval(removal: Removal)

  const IDLE: Thread := Thread([], [], Running)

  const START: State := State(map[], 0, map[], {}, {}, map[], map[])

  function ThreadOf(s: State, c: Client): Thread {
    if c in s.threads then s.threads[c] else IDLE
  }

  function With(s: State, c: Client, mode: Mode): State {
    s.(threads := s.threads[c := ThreadOf(s, c).(mode := mode)])
  }

  // The steps of one thread in src/storage.rs. An action whose guard fails
  // changes nothing.
  function Next(s: State, a: Action): State {
    match a
    case ServeCreate(creation) => ServedCreate(s, creation)
    case ServeRemoval(removal) => ServedRemoval(s, removal)
    case Stop(c) => s.(threads := s.threads - {c})
    case _ => ThreadStep(s, a)
  }

  // Create if absent, under a new generation.
  function ServedCreate(s: State, creation: Creation): State {
    if creation in s.creates && creation.bucket !in s.live then
      s.(live := s.live[creation.bucket := LockVersion(s.nextGeneration, creation.token)],
         created := s.created[s.nextGeneration := creation],
         nextGeneration := s.nextGeneration + 1)
    else s
  }

  // Delete only the generation the request names.
  function ServedRemoval(s: State, removal: Removal): State {
    var lock := removal.lock;
    if removal in s.removals && lock.bucket in s.live && s.live[lock.bucket].generation == lock.generation then
      s.(live := s.live - {lock.bucket})
    else s
  }

  function ThreadStep(s: State, a: Action): State
    requires !a.ServeCreate? && !a.ServeRemoval? && !a.Stop?
  {
    var t := ThreadOf(s, a.c);
    match t.mode
    case Running => RunningStep(s, a, t)
    case Releasing(base) => ReleasingStep(s, a, t)
    case Acquiring(todo, base, attempt) => AcquiringStep(s, a, t)
  }

  function RunningStep(s: State, a: Action, t: Thread): State
    requires !a.ServeCreate? && !a.ServeRemoval? && !a.Stop? && t == ThreadOf(s, a.c) && t.mode.Running?
  {
    match a
    case Begin(c, todo) =>
      // Buckets this thread already holds are not asked for again.
      if forall i :: 0 <= i < |t.held| ==> t.held[i].bucket !in todo then With(s, c, Acquiring(todo, |t.held|, Ready)) else s
    case Leave(c) =>
      if t.marks != [] then
        s.(threads := s.threads[c := Thread(t.held, t.marks[..|t.marks| - 1], Releasing(t.marks[|t.marks| - 1]))])
      else s
    case _ => s
  }

  function ReleasingStep(s: State, a: Action, t: Thread): State
    requires !a.ServeCreate? && !a.ServeRemoval? && !a.Stop? && t == ThreadOf(s, a.c) && t.mode.Releasing?
  {
    match a
    case ReleaseTop(c, sent) =>
      // In reverse order; a request that cannot be sent leaves its lock behind.
      if |t.held| > t.mode.base then
        var top := t.held[|t.held| - 1];
        s.(threads := s.threads[c := t.(held := t.held[..|t.held| - 1])],
           removals := if sent then s.removals + {Removal(c, top)} else s.removals)
      else s
    case Finish(c) => if |t.held| <= t.mode.base then With(s, c, Running) else s
    case _ => s
  }

  function AcquiringStep(s: State, a: Action, t: Thread): State
    requires !a.ServeCreate? && !a.ServeRemoval? && !a.Stop? && t == ThreadOf(s, a.c) && t.mode.Acquiring?
  {
    var todo, base, attempt := t.mode.todo, t.mode.base, t.mode.attempt;
    if todo == [] then
      if a.Enter? then s.(threads := s.threads[a.c := Thread(t.held, t.marks + [base], Running)]) else s
    else
      var b := todo[0];
      match a
      case SendCreate(c, token) =>
        if attempt.Ready? && token !in s.owner then
          With(s, c, Acquiring(todo, base, Creating(token)))
            .(creates := s.creates + {Creation(b, token)}, owner := s.owner[token := c])
        else s
      case Granted(c, g) =>
        // The answer to a create names the generation that this very request made.
        if attempt.Creating? && g in s.created && s.created[g] == Creation(b, attempt.token) then
          s.(threads := s.threads[c := Thread(t.held + [Lock(b, g)], t.marks, Acquiring(todo[1..], base, Ready))])
        else s
      case LoseAnswer(c) =>
        if attempt.Creating? then With(s, c, Acquiring(todo, base, Reading(attempt.token))) else s
      case ReadBody(c, lost) =>
        if !attempt.Reading? then s
        else if !lost && b in s.live && s.live[b].token == attempt.token then
          With(s, c, Acquiring(todo, base, Locating(attempt.token)))
        else With(s, c, Releasing(base))
      case ReadGeneration(c, lost) =>
        if !attempt.Locating? then s
        else if !lost && b in s.live then
          With(s, c, Acquiring(todo, base, Removing(attempt.token, s.live[b].generation)))
        else With(s, c, Releasing(base))
      case SendRemoval(c) =>
        if attempt.Removing? then
          With(s, c, Releasing(base)).(removals := s.removals + {Removal(c, Lock(b, attempt.generation))})
        else s
      // Refused, never sent, or the recovery could not go on.
      case GiveUp(c) => With(s, c, Releasing(base))
      case _ => s
  }

  function Execute(actions: seq<Action>): State {
    if actions == [] then START else Next(Execute(actions[..|actions| - 1]), actions[|actions| - 1])
  }

  // -------------------------------------------------------------- invariant

  // The locks under which an operation of the thread is running.
  function Entered(t: Thread): seq<Lock> {
    match t.mode
    case Running => t.held
    case Acquiring(_, base, _) => if base <= |t.held| then t.held[..base] else t.held
    case Releasing(base) => if base <= |t.held| then t.held[..base] else t.held
  }

  predicate Requested(s: State, g: nat) {
    exists r :: r in s.removals && r.lock.generation == g
  }

  // The server's books: generations are new, every live version is on record,
  // and a version that nobody asked to delete is live.
  ghost predicate Books(s: State) {
    && (forall g :: g in s.created ==> g < s.nextGeneration && s.created[g] in s.creates)
    && (forall n :: n in s.creates ==> n.token in s.owner)
    && (forall b :: b in s.live ==>
          s.live[b].generation in s.created && s.created[s.live[b].generation] == Creation(b, s.live[b].token))
    && (forall g :: g in s.created && !Requested(s, g) ==>
          s.created[g].bucket in s.live && s.live[s.created[g].bucket].generation == g)
  }

  // Every delete request names a version that its sender created.
  ghost predicate OwnRemovals(s: State) {
    forall r :: r in s.removals ==> Owns(s, r.client, r.lock)
  }

  predicate Owns(s: State, c: Client, lock: Lock) {
    && lock.generation in s.created && s.created[lock.generation].bucket == lock.bucket
    && s.created[lock.generation].token in s.owner && s.owner[s.created[lock.generation].token] == c
  }

  // Held locks are owned, distinct, and nobody asked to delete them.
  ghost predicate Holding(s: State, c: Client, t: Thread) {
    && (forall i :: 0 <= i < |t.held| ==> Owns(s, c, t.held[i]) && !Requested(s, t.held[i].generation))
    && (forall i, j :: 0 <= i < j < |t.held| ==> t.held[i].generation != t.held[j].generation)
  }

  // A token in use is the thread's own, and no version made with it is held or
  // about to go.
  ghost predicate Attempting(s: State, c: Client, t: Thread) {
    t.mode.Acquiring? && !t.mode.attempt.Ready? ==>
      var token := t.mode.attempt.token;
      && t.mode.todo != [] && token in s.owner && s.owner[token] == c
      && (forall g :: g in s.created && s.created[g].token == token ==> !Requested(s, g) && s.created[g].bucket == t.mode.todo[0])
      && (forall n :: n in s.creates && n.token == token ==> n.bucket == t.mode.todo[0])
      && (forall i :: 0 <= i < |t.held| ==> t.held[i].generation in s.created && s.created[t.held[i].generation].token != token)
      && (t.mode.attempt.Locating? ==> exists g :: g in s.created && s.created[g].token == token)
      && (t.mode.attempt.Removing? ==> Owns(s, c, Lock(t.mode.todo[0], t.mode.attempt.generation)))
      && (t.mode.attempt.Removing? ==> s.created[t.mode.attempt.generation].token == token)
  }

  ghost predicate Inv(s: State) {
    && Books(s) && OwnRemovals(s)
    && forall c :: c in s.threads ==> Holding(s, c, s.threads[c]) && Attempting(s, c, s.threads[c])
  }

  // What any step may do to the books behind the back of thread c.
  ghost predicate Extends(s: State, n: State, c: Client) {
    && (forall g :: g in s.created ==> g in n.created && n.created[g] == s.created[g])
    && (forall k :: k in s.owner ==> k in n.owner && n.owner[k] == s.owner[k])
    && (forall r :: r in n.removals ==> r in s.removals || r.client != c)
    && (forall k :: k in n.creates ==> k in s.creates || k.token !in s.owner)
    && (forall g :: g in n.created ==> g in s.created || (n.created[g] in s.creates && !Requested(n, g)))
  }

  lemma StillUnrequested(s: State, n: State, c: Client, g: nat)
    requires Extends(s, n, c) && OwnRemovals(n)
    requires g in s.created && s.created[g].token in s.owner && s.owner[s.created[g].token] == c && !Requested(s, g)
    ensures !Requested(n, g)
  {
    forall r | r in n.removals ensures r.lock.generation != g {
      assert Owns(n, r.client, r.lock);
    }
  }

  // No step of others disturbs a thread's locks or its attempt.
  lemma Undisturbed(s: State, n: State, c: Client, t: Thread)
    requires Extends(s, n, c) && OwnRemovals(n)
    requires Holding(s, c, t) && Attempting(s, c, t)
    ensures Holding(n, c, t) && Attempting(n, c, t)
  {
    forall i | 0 <= i < |t.held| ensures Owns(n, c, t.held[i]) && !Requested(n, t.held[i].generation) {
      StillUnrequested(s, n, c, t.held[i].generation);
    }
    if t.mode.Acquiring? && !t.mode.attempt.Ready? {
      var token := t.mode.attempt.token;
      forall g | g in n.created && n.created[g].token == token
        ensures !Requested(n, g) && n.created[g].bucket == t.mode.todo[0]
      {
        if g in s.created { StillUnrequested(s, n, c, g); }
      }
    }
  }

  // ------------------------------------------------------------ server steps

  lemma CreateKeepsInv(s: State, creation: Creation)
    requires Inv(s)
    ensures Inv(ServedCreate(s, creation))
  {
    var n := ServedCreate(s, creation);
    var g := s.nextGeneration;
    forall r | r in s.removals ensures r.lock.generation != g {
      assert Owns(s, r.client, r.lock);
    }
    assert !Requested(n, g);
    forall h ensures Requested(n, h) <==> Requested(s, h) {
    }
    forall r | r in n.removals ensures Owns(n, r.client, r.lock) {
      assert Owns(s, r.client, r.lock);
    }
    forall c | c in n.threads ensures Holding(n, c, n.threads[c]) && Attempting(n, c, n.threads[c]) {
      Undisturbed(s, n, c, n.threads[c]);
    }
  }

  lemma RemovalKeepsInv(s: State, removal: Removal)
    requires Inv(s)
    ensures Inv(ServedRemoval(s, removal))
  {
    var n := ServedRemoval(s, removal);
    forall g ensures Requested(n, g) <==> Requested(s, g) {
    }
    if removal in s.removals { assert Requested(s, removal.lock.generation); }
    forall r | r in n.removals ensures Owns(n, r.client, r.lock) {
      assert Owns(s, r.client, r.lock);
    }
    forall c | c in n.threads ensures Holding(n, c, n.threads[c]) && Attempting(n, c, n.threads[c]) {
      Undisturbed(s, n, c, n.threads[c]);
    }
  }

  // ------------------------------------------------------------ thread steps

  // A step that only touches thread c and the request books.
  lemma ThreadKeepsInv(s: State, n: State, c: Client)
    requires Inv(s) && n.live == s.live && n.created == s.created && n.nextGeneration == s.nextGeneration
    requires s.creates <= n.creates && forall k :: k in n.creates ==> k.token in n.owner && (k in s.creates || k.token !in s.owner)
    requires forall k :: k in s.owner ==> k in n.owner && n.owner[k] == s.owner[k]
    requires s.removals <= n.removals && forall r :: r in n.removals - s.removals ==> r.client == c && Owns(s, c, r.lock)
    requires c in n.threads && forall d :: d in n.threads && d != c ==> d in s.threads && n.threads[d] == s.threads[d]
    requires Holding(n, c, n.threads[c]) && Attempting(n, c, n.threads[c])
    ensures Inv(n)
  {
    forall g | Requested(s, g) ensures Requested(n, g) {
      var r :| r in s.removals && r.lock.generation == g;
      assert r in n.removals;
    }
    forall r | r in n.removals ensures Owns(n, r.client, r.lock) {
      assert r in s.removals ==> Owns(s, r.client, r.lock);
    }
    forall d | d in n.threads && d != c ensures Holding(n, d, n.threads[d]) && Attempting(n, d, n.threads[d]) {
      Undisturbed(s, n, d, s.threads[d]);
    }
  }

  lemma RunningKeepsInv(s: State, a: Action)
    requires Inv(s) && !a.ServeCreate? && !a.ServeRemoval? && !a.Stop? && ThreadOf(s, a.c).mode.Running?
    ensures Inv(RunningStep(s, a, ThreadOf(s, a.c)))
  {
    var n := RunningStep(s, a, ThreadOf(s, a.c));
    if n != s {
      ThreadKeepsInv(s, n, a.c);
    }
  }

  lemma ReleasingKeepsInv(s: State, a: Action)
    requires Inv(s) && !a.ServeCreate? && !a.ServeRemoval? && !a.Stop? && ThreadOf(s, a.c).mode.Releasing?
    ensures Inv(ReleasingStep(s, a, ThreadOf(s, a.c)))
  {
    var t := ThreadOf(s, a.c);
    var n := ReleasingStep(s, a, t);
    if a.ReleaseTop? && |t.held| > t.mode.base {
      var top := t.held[|t.held| - 1];
      forall i | 0 <= i < |t.held| - 1 ensures !Requested(n, t.held[i].generation) {
        assert forall r :: r in n.removals ==> r in s.removals || r.lock == top;
      }
    }
    if n != s {
      ThreadKeepsInv(s, n, a.c);
    }
  }

  lemma AcquiringKeepsInv(s: State, a: Action)
    requires Inv(s) && !a.ServeCreate? && !a.ServeRemoval? && !a.Stop? && ThreadOf(s, a.c).mode.Acquiring?
    ensures Inv(AcquiringStep(s, a, ThreadOf(s, a.c)))
  {
    assert a.c in s.threads;
    match a
    case SendCreate(c, token) => FreshAttempt(s, c, token);
    case Granted(c, g) => GrantedLock(s, c, g);
    case SendRemoval(c) => RecoveredAttempt(s, c);
    case ReadBody(c, lost) => BodyRead(s, c, lost);
    case ReadGeneration(c, lost) => GenerationRead(s, c, lost);
    case _ => QuietStep(s, a);
  }

  // A step that only moves thread c on.
  lemma ModeKeepsInv(s: State, c: Client, t: Thread)
    requires Inv(s) && Holding(s, c, t) && Attempting(s, c, t)
    ensures Inv(s.(threads := s.threads[c := t]))
  {
    var n := s.(threads := s.threads[c := t]);
    assert forall g :: Requested(n, g) <==> Requested(s, g);
    forall d | d in n.threads ensures Holding(n, d, n.threads[d]) && Attempting(n, d, n.threads[d]) {
      Undisturbed(s, n, d, n.threads[d]);
    }
  }

  // Entering, losing an answer and giving up send nothing.
  lemma QuietStep(s: State, a: Action)
    requires Inv(s) && (a.Enter? || a.LoseAnswer? || a.GiveUp? || a.Begin? || a.Leave? || a.ReleaseTop? || a.Finish?)
    requires a.c in s.threads && s.threads[a.c].mode.Acquiring?
    ensures Inv(AcquiringStep(s, a, ThreadOf(s, a.c)))
  {
    var n := AcquiringStep(s, a, ThreadOf(s, a.c));
    if n != s {
      ModeKeepsInv(s, a.c, n.threads[a.c]);
    }
  }

  lemma BodyRead(s: State, c: Client, lost: bool)
    requires Inv(s) && c in s.threads && s.threads[c].mode.Acquiring?
    ensures Inv(AcquiringStep(s, ReadBody(c, lost), ThreadOf(s, c)))
  {
    var n := AcquiringStep(s, ReadBody(c, lost), ThreadOf(s, c));
    if n != s {
      ModeKeepsInv(s, c, n.threads[c]);
    }
  }

  // The generation that recovery finds is that of its own version: nobody else
  // can have replaced it since its token was read.
  lemma GenerationRead(s: State, c: Client, lost: bool)
    requires Inv(s) && c in s.threads && s.threads[c].mode.Acquiring?
    ensures Inv(AcquiringStep(s, ReadGeneration(c, lost), ThreadOf(s, c)))
  {
    var t := ThreadOf(s, c);
    var n := AcquiringStep(s, ReadGeneration(c, lost), t);
    if t.mode.attempt.Locating? && t.mode.todo != [] {
      var g :| g in s.created && s.created[g].token == t.mode.attempt.token;
      assert s.live[t.mode.todo[0]].generation == g;
    }
    if n != s {
      ThreadKeepsInv(s, n, c);
    }
  }

  // The granted version was not held before: none of its token's is.
  lemma GrantedLock(s: State, c: Client, g: nat)
    requires Inv(s) && c in s.threads && s.threads[c].mode.Acquiring?
    ensures Inv(AcquiringStep(s, Granted(c, g), ThreadOf(s, c)))
  {
    var n := AcquiringStep(s, Granted(c, g), ThreadOf(s, c));
    if n != s {
      assert Holding(n, c, n.threads[c]);
      ThreadKeepsInv(s, n, c);
    }
  }

  // A token that was never drawn stands for no version yet.
  lemma FreshAttempt(s: State, c: Client, token: Token)
    requires Inv(s) && c in s.threads && s.threads[c].mode.Acquiring?
    ensures Inv(AcquiringStep(s, SendCreate(c, token), ThreadOf(s, c)))
  {
    var n := AcquiringStep(s, SendCreate(c, token), ThreadOf(s, c));
    if n != s {
      assert forall g :: g in s.created ==> s.created[g].token != token;
      assert forall g :: Requested(n, g) <==> Requested(s, g);
      ThreadKeepsInv(s, n, c);
    }
  }

  // Recovery asks only for a version of its own token, which it does not hold.
  lemma RecoveredAttempt(s: State, c: Client)
    requires Inv(s) && c in s.threads && s.threads[c].mode.Acquiring?
    ensures Inv(AcquiringStep(s, SendRemoval(c), ThreadOf(s, c)))
  {
    var t := ThreadOf(s, c);
    var n := AcquiringStep(s, SendRemoval(c), t);
    if n != s && t.mode.todo != [] {
      assert forall r :: r in n.removals ==> r in s.removals || r.lock.generation == t.mode.attempt.generation;
      assert Holding(n, c, n.threads[c]);
      ThreadKeepsInv(s, n, c);
    }
  }

  lemma StopKeepsInv(s: State, c: Client)
    requires Inv(s)
    ensures Inv(Next(s, Stop(c)))
  {
    var n := Next(s, Stop(c));
    assert forall g :: Requested(n, g) <==> Requested(s, g);
    forall d | d in n.threads ensures Holding(n, d, n.threads[d]) && Attempting(n, d, n.threads[d]) {
      Undisturbed(s, n, d, s.threads[d]);
    }
  }

  lemma StepKeepsInv(s: State, a: Action)
    requires Inv(s)
    ensures Inv(Next(s, a))
  {
    match a
    case ServeCreate(creation) => CreateKeepsInv(s, creation);
    case ServeRemoval(removal) => RemovalKeepsInv(s, removal);
    case Stop(c) => StopKeepsInv(s, c);
    case _ => ThreadStepKeepsInv(s, a);
  }

  lemma ThreadStepKeepsInv(s: State, a: Action)
    requires Inv(s) && !a.ServeCreate? && !a.ServeRemoval? && !a.Stop?
    ensures Inv(ThreadStep(s, a))
  {
    match ThreadOf(s, a.c).mode
    case Running => RunningKeepsInv(s, a);
    case Releasing(_) => ReleasingKeepsInv(s, a);
    case Acquiring(_, _, _) => AcquiringKeepsInv(s, a);
  }

  lemma {:induction false} EveryRunIsSafe(actions: seq<Action>)
    ensures Inv(Execute(actions))
  {
    if actions != [] {
      EveryRunIsSafe(actions[..|actions| - 1]);
      StepKeepsInv(Execute(actions[..|actions| - 1]), actions[|actions| - 1]);
    }
  }

  // ---------------------------------------------------------------- theorems

  // The thread is inside an operation that holds this bucket.
  predicate Inside(s: State, c: Client, b: Bucket) {
    exists lock :: lock in Entered(ThreadOf(s, c)) && lock.bucket == b
  }

  // At no point of any run are two clients inside for the same bucket, and the
  // lock object of a client inside is its own.
  lemma MutualExclusion(actions: seq<Action>, c: Client, d: Client, b: Bucket)
    requires Inside(Execute(actions), c, b) && Inside(Execute(actions), d, b)
    ensures c == d
    ensures var s := Execute(actions);
      b in s.live && s.live[b].token in s.owner && s.owner[s.live[b].token] == c
  {
    EveryRunIsSafe(actions);
    InsideIsLive(Execute(actions), c, b);
    InsideIsLive(Execute(actions), d, b);
  }

  lemma InsideIsLive(s: State, c: Client, b: Bucket)
    requires Inv(s) && Inside(s, c, b)
    ensures b in s.live && s.live[b].token in s.owner && s.owner[s.live[b].token] == c
  {
    var t := ThreadOf(s, c);
    var lock :| lock in Entered(t) && lock.bucket == b;
    assert lock in t.held;
    var i :| 0 <= i < |t.held| && t.held[i] == lock;
    assert Owns(s, c, lock) && !Requested(s, lock.generation);
  }

  // A client only ever asks to delete versions of its own making, whatever was
  // lost or delayed, and so the object of a client inside is never removed.
  lemma OnlyOwnVersionsAreRemoved(actions: seq<Action>, removal: Removal)
    requires removal in Execute(actions).removals
    ensures Owns(Execute(actions), removal.client, removal.lock)
    ensures forall c :: Inside(Execute(actions), c, removal.lock.bucket) ==>
      Next(Execute(actions), ServeRemoval(removal)).live == Execute(actions).live
  {
    var s := Execute(actions);
    EveryRunIsSafe(actions);
    forall c | Inside(s, c, removal.lock.bucket)
      ensures Next(s, ServeRemoval(removal)).live == s.live
    {
      var t := ThreadOf(s, c);
      var lock :| lock in Entered(t) && lock.bucket == removal.lock.bucket;
      assert lock in t.held;
      var i :| 0 <= i < |t.held| && t.held[i] == lock;
      assert !Requested(s, lock.generation);
    }
  }

  // A free bucket is granted to whoever asks.
  lemma FreeBucketIsGranted(s: State, c: Client, token: Token)
    requires ThreadOf(s, c).mode.Acquiring? && ThreadOf(s, c).mode.attempt.Ready? && ThreadOf(s, c).mode.todo != []
    requires ThreadOf(s, c).mode.todo[0] !in s.live && token !in s.owner
    ensures var t, b := ThreadOf(s, c), ThreadOf(s, c).mode.todo[0];
      var n := Next(Next(Next(s, SendCreate(c, token)), ServeCreate(Creation(b, token))), Granted(c, s.nextGeneration));
      && n.live == s.live[b := LockVersion(s.nextGeneration, token)]
      && ThreadOf(n, c) == t.(held := t.held + [Lock(b, s.nextGeneration)],
                              mode := Acquiring(t.mode.todo[1..], t.mode.base, Ready))
  {
  }

  // After a lost acknowledgement, recovery takes exactly the unacknowledged lock
  // object away again and keeps the locks taken before it for release.
  lemma RecoveryUndoesTheCreation(s: State, c: Client)
    requires Inv(s) && ThreadOf(s, c).mode.Acquiring? && ThreadOf(s, c).mode.attempt.Creating? && ThreadOf(s, c).mode.todo != []
    requires var b := ThreadOf(s, c).mode.todo[0]; b in s.live && s.live[b].token == ThreadOf(s, c).mode.attempt.token
    ensures var t, b := ThreadOf(s, c), ThreadOf(s, c).mode.todo[0];
      var asked := Next(Next(Next(Next(s, LoseAnswer(c)), ReadBody(c, false)), ReadGeneration(c, false)), SendRemoval(c));
      var n := Next(asked, ServeRemoval(Removal(c, Lock(b, s.live[b].generation))));
      n.live == s.live - {b} && ThreadOf(n, c) == t.(mode := Releasing(t.mode.base))
  {
    var t := ThreadOf(s, c);
    var b, token := t.mode.todo[0], t.mode.attempt.token;
    var s1 := Next(s, LoseAnswer(c));
    assert ThreadOf(s1, c).mode == Acquiring(t.mode.todo, t.mode.base, Reading(token));
    var s2 := Next(s1, ReadBody(c, false));
    assert ThreadOf(s2, c).mode == Acquiring(t.mode.todo, t.mode.base, Locating(token));
    var s3 := Next(s2, ReadGeneration(c, false));
    assert ThreadOf(s3, c).mode == Acquiring(t.mode.todo, t.mode.base, Removing(token, s.live[b].generation));
  }

  // ---------------------------------------------------------------- release

  // A client that is releasing asks for its topmost lock, which is live, and the
  // request takes away exactly that.
  lemma ReleaseRemovesTheTop(s: State, c: Client)
    requires Inv(s) && ThreadOf(s, c).mode.Releasing? && |ThreadOf(s, c).held| > ThreadOf(s, c).mode.base
    ensures var t := ThreadOf(s, c);
      var rest, top := t.held[..|t.held| - 1], t.held[|t.held| - 1];
      var asked := Next(s, ReleaseTop(c, true));
      var n := Next(asked, ServeRemoval(Removal(c, top)));
      && top.bucket in s.live && s.live[top.bucket].generation == top.generation
      && asked.removals == s.removals + {Removal(c, top)}
      && n.live == s.live - {top.bucket} && ThreadOf(n, c) == t.(held := rest)
      && (forall lock :: lock in rest ==> lock.bucket != top.bucket)
  {
    var t := ThreadOf(s, c);
    var rest, top := t.held[..|t.held| - 1], t.held[|t.held| - 1];
    assert Owns(s, c, top) && !Requested(s, top.generation);
    forall lock | lock in rest ensures lock.bucket != top.bucket {
      var i :| 0 <= i < |rest| && rest[i] == lock;
      assert Owns(s, c, t.held[i]) && !Requested(s, t.held[i].generation);
    }
  }

  function Run(s: State, actions: seq<Action>): State {
    if actions == [] then s else Next(Run(s, actions[..|actions| - 1]), actions[|actions| - 1])
  }

  lemma {:induction false} RunInTwo(s: State, first: seq<Action>, second: seq<Action>)
    ensures Run(s, first + second) == Run(Run(s, first), second)
  {
    if second == [] {
      assert first + second == first;
    } else {
      var all := first + second;
      assert all[..|all| - 1] == first + second[..|second| - 1];
      RunInTwo(s, first, second[..|second| - 1]);
    }
  }

  lemma {:induction false} RunKeepsInv(s: State, actions: seq<Action>)
    requires Inv(s)
    ensures Inv(Run(s, actions))
  {
    if actions != [] {
      RunKeepsInv(s, actions[..|actions| - 1]);
      StepKeepsInv(Run(s, actions[..|actions| - 1]), actions[|actions| - 1]);
    }
  }

  // Every lock of a stack, from the top: asked for and served.
  function Dropping(c: Client, locks: seq<Lock>): seq<Action> {
    if locks == [] then []
    else
      var top := locks[|locks| - 1];
      [ReleaseTop(c, true), ServeRemoval(Removal(c, top))] + Dropping(c, locks[..|locks| - 1])
  }

  function BucketsOf(locks: seq<Lock>): set<Bucket> {
    set i | 0 <= i < |locks| :: locks[i].bucket
  }

  // Operations nest: none began above another that it runs in, nor above what
  // the thread holds.
  predicate Nested(t: Thread) {
    && (forall i, j :: 0 <= i < j < |t.marks| ==> t.marks[i] <= t.marks[j])
    && (forall i :: 0 <= i < |t.marks| ==> t.marks[i] <= Base(t))
    && Base(t) <= |t.held|
  }

  function Base(t: Thread): nat {
    match t.mode
    case Running => |t.held|
    case Acquiring(_, base, _) => base
    case Releasing(base) => base
  }

  lemma ThreadStaysNested(s: State, a: Action)
    requires !a.ServeCreate? && !a.ServeRemoval? && !a.Stop? && Nested(ThreadOf(s, a.c))
    ensures Nested(ThreadOf(ThreadStep(s, a), a.c))
  {
    match ThreadOf(s, a.c).mode
    case Running => RunningStaysNested(s, a);
    case Releasing(_) =>
    case Acquiring(_, _, _) => AcquiringStaysNested(s, a);
  }

  lemma RunningStaysNested(s: State, a: Action)
    requires !a.ServeCreate? && !a.ServeRemoval? && !a.Stop? && Nested(ThreadOf(s, a.c)) && ThreadOf(s, a.c).mode.Running?
    ensures Nested(ThreadOf(RunningStep(s, a, ThreadOf(s, a.c)), a.c))
  {
  }

  lemma AcquiringStaysNested(s: State, a: Action)
    requires !a.ServeCreate? && !a.ServeRemoval? && !a.Stop? && Nested(ThreadOf(s, a.c)) && ThreadOf(s, a.c).mode.Acquiring?
    ensures Nested(ThreadOf(AcquiringStep(s, a, ThreadOf(s, a.c)), a.c))
  {
    var t, n := ThreadOf(s, a.c), ThreadOf(AcquiringStep(s, a, ThreadOf(s, a.c)), a.c);
    assert n.marks == t.marks || n.marks == t.marks + [t.mode.base];
    assert Base(n) >= Base(t);
  }

  lemma OthersStand(s: State, a: Action, c: Client)
    requires a.ServeCreate? || a.ServeRemoval? || a.c != c
    ensures ThreadOf(Next(s, a), c) == ThreadOf(s, c)
  {
  }

  lemma {:induction false} EveryRunIsNested(actions: seq<Action>, c: Client)
    ensures Nested(ThreadOf(Execute(actions), c))
  {
    if actions != [] {
      var s, a := Execute(actions[..|actions| - 1]), actions[|actions| - 1];
      EveryRunIsNested(actions[..|actions| - 1], c);
      if a.ServeCreate? || a.ServeRemoval? || a.c != c {
        OthersStand(s, a, c);
      } else if !a.Stop? {
        ThreadStaysNested(s, a);
      }
    }
  }

  // However a client came to release, giving back all locks above its base leaves
  // none of their buckets locked, every other lock object as it was, and the
  // stack as it stood when the operation began.
  lemma {:induction false} ReleaseGivesBackAll(s: State, c: Client)
    requires Inv(s) && ThreadOf(s, c).mode.Releasing? && ThreadOf(s, c).mode.base <= |ThreadOf(s, c).held|
    ensures var t := ThreadOf(s, c);
      var n := Run(s, Dropping(c, t.held[t.mode.base..]) + [Finish(c)]);
      && n.live == s.live - BucketsOf(t.held[t.mode.base..])
      && ThreadOf(n, c) == Thread(t.held[..t.mode.base], t.marks, Running)
  {
    var t := ThreadOf(s, c);
    var base := t.mode.base;
    DroppingDrops(s, c);
    RunInTwo(s, Dropping(c, t.held[base..]), [Finish(c)]);
    OneStepRun(Run(s, Dropping(c, t.held[base..])), Finish(c));
  }

  // All locks above the base given back, if the client is about to.
  function Released(s: State, c: Client): State {
    var t := ThreadOf(s, c);
    if t.mode.Releasing? && t.mode.base <= |t.held| then Run(s, Dropping(c, t.held[t.mode.base..]) + [Finish(c)]) else s
  }

  predicate GivenBack(s: State, n: State, c: Client, base: nat) {
    var t := ThreadOf(s, c);
    && base <= |t.held| && n.live == s.live - BucketsOf(t.held[base..])
    && ThreadOf(n, c).held == t.held[..base] && ThreadOf(n, c).mode.Running?
  }

  // In any run, leaving an operation, and just as well an acquisition that is
  // refused half-way, ends with exactly the locks held when it began.
  lemma LeavingGivesBackAll(actions: seq<Action>, c: Client)
    requires ThreadOf(Execute(actions), c).mode.Running? && ThreadOf(Execute(actions), c).marks != []
    ensures var s := Execute(actions);
      var marks := ThreadOf(s, c).marks;
      GivenBack(s, Released(Next(s, Leave(c)), c), c, marks[|marks| - 1])
  {
    EveryRunIsSafe(actions);
    EveryRunIsNested(actions, c);
    var n := Left(Execute(actions), c);
    AboutToRelease(Execute(actions), n, c);
  }

  lemma RefusalGivesBackAll(actions: seq<Action>, c: Client)
    requires ThreadOf(Execute(actions), c).mode.Acquiring? && ThreadOf(Execute(actions), c).mode.todo != []
    ensures var s := Execute(actions);
      GivenBack(s, Released(Next(s, GiveUp(c)), c), c, ThreadOf(s, c).mode.base)
  {
    EveryRunIsSafe(actions);
    EveryRunIsNested(actions, c);
    var n := Refused(Execute(actions), c);
    AboutToRelease(Execute(actions), n, c);
  }

  lemma Left(s: State, c: Client) returns (n: State)
    requires Inv(s) && Nested(ThreadOf(s, c)) && ThreadOf(s, c).mode.Running? && ThreadOf(s, c).marks != []
    ensures n == Next(s, Leave(c)) && Inv(n) && n.live == s.live && ThreadOf(n, c).held == ThreadOf(s, c).held
    ensures var t := ThreadOf(s, c); ThreadOf(n, c).mode == Releasing(t.marks[|t.marks| - 1]) && Base(ThreadOf(n, c)) <= |t.held|
  {
    n := Next(s, Leave(c));
    StepKeepsInv(s, Leave(c));
  }

  lemma Refused(s: State, c: Client) returns (n: State)
    requires Inv(s) && Nested(ThreadOf(s, c)) && ThreadOf(s, c).mode.Acquiring? && ThreadOf(s, c).mode.todo != []
    ensures n == Next(s, GiveUp(c)) && Inv(n) && n.live == s.live && ThreadOf(n, c).held == ThreadOf(s, c).held
    ensures ThreadOf(n, c).mode == Releasing(ThreadOf(s, c).mode.base) && Base(ThreadOf(n, c)) <= |ThreadOf(s, c).held|
  {
    n := Next(s, GiveUp(c));
    StepKeepsInv(s, GiveUp(c));
  }

  lemma AboutToRelease(s: State, n: State, c: Client)
    requires Inv(n) && n.live == s.live && ThreadOf(n, c).held == ThreadOf(s, c).held
    requires ThreadOf(n, c).mode.Releasing? && ThreadOf(n, c).mode.base <= |ThreadOf(n, c).held|
    ensures GivenBack(s, Released(n, c), c, ThreadOf(n, c).mode.base)
  {
    ReleaseGivesBackAll(n, c);
  }

  lemma OneStepRun(s: State, a: Action)
    ensures Run(s, [a]) == Next(s, a)
  {
    assert [a][..0] == [];
  }

  lemma TwoStepRun(s: State, a: Action, b: Action)
    ensures Run(s, [a, b]) == Next(Next(s, a), b)
  {
    assert [a, b][..1] == [a];
    OneStepRun(s, a);
  }

  // The client has given back what it holds above its base, and nothing else.
  predicate Dropped(s: State, n: State, c: Client) {
    var t := ThreadOf(s, c);
    && t.mode.Releasing? && t.mode.base <= |t.held|
    && n.live == s.live - BucketsOf(t.held[t.mode.base..]) && ThreadOf(n, c) == t.(held := t.held[..t.mode.base])
  }

  lemma {:induction false} DroppingDrops(s: State, c: Client)
    requires Inv(s) && ThreadOf(s, c).mode.Releasing? && ThreadOf(s, c).mode.base <= |ThreadOf(s, c).held|
    ensures Dropped(s, Run(s, Dropping(c, ThreadOf(s, c).held[ThreadOf(s, c).mode.base..])), c)
    decreases |ThreadOf(s, c).held|
  {
    var t := ThreadOf(s, c);
    if |t.held| == t.mode.base {
      assert t.held[..t.mode.base] == t.held;
      assert BucketsOf(t.held[t.mode.base..]) == {};
    } else {
      var n := DropOne(s, c);
      DroppingDrops(n, c);
      DroppedAfterOne(s, n, Run(n, Dropping(c, ThreadOf(n, c).held[t.mode.base..])), c);
    }
  }

  lemma DroppedAfterOne(s: State, n: State, m: State, c: Client)
    requires ThreadOf(s, c).mode.Releasing? && |ThreadOf(s, c).held| > ThreadOf(s, c).mode.base
    requires var t := ThreadOf(s, c);
      n.live == s.live - {t.held[|t.held| - 1].bucket} && ThreadOf(n, c) == t.(held := t.held[..|t.held| - 1])
    requires Dropped(n, m, c)
    ensures Dropped(s, m, c)
  {
    StackWithoutTop(ThreadOf(s, c).held, ThreadOf(s, c).mode.base);
  }

  lemma DropOne(s: State, c: Client) returns (n: State)
    requires Inv(s) && ThreadOf(s, c).mode.Releasing? && |ThreadOf(s, c).held| > ThreadOf(s, c).mode.base
    ensures var t := ThreadOf(s, c);
      && Inv(n) && n.live == s.live - {t.held[|t.held| - 1].bucket} && ThreadOf(n, c) == t.(held := t.held[..|t.held| - 1])
      && Run(s, Dropping(c, t.held[t.mode.base..])) == Run(n, Dropping(c, ThreadOf(n, c).held[t.mode.base..]))
  {
    n := DropFirst(s, c);
    var held, base := ThreadOf(s, c).held, ThreadOf(s, c).mode.base;
    var above := held[base..];
    StackWithoutTop(held, base);
    DroppingInTwo(s, c, above);
    assert above[|above| - 1] == held[|held| - 1];
    assert ThreadOf(n, c).held[base..] == above[..|above| - 1];
  }

  lemma DropFirst(s: State, c: Client) returns (n: State)
    requires Inv(s) && ThreadOf(s, c).mode.Releasing? && |ThreadOf(s, c).held| > ThreadOf(s, c).mode.base
    ensures var t := ThreadOf(s, c);
      var top := t.held[|t.held| - 1];
      && n == DropSteps(s, c, top) && Inv(n)
      && n.live == s.live - {top.bucket} && ThreadOf(n, c) == t.(held := t.held[..|t.held| - 1])
  {
    var top := ThreadOf(s, c).held[|ThreadOf(s, c).held| - 1];
    n := DropSteps(s, c, top);
    ReleaseRemovesTheTop(s, c);
    StepKeepsInv(s, ReleaseTop(c, true));
    StepKeepsInv(Next(s, ReleaseTop(c, true)), ServeRemoval(Removal(c, top)));
  }

  function DropSteps(s: State, c: Client, lock: Lock): State {
    Next(Next(s, ReleaseTop(c, true)), ServeRemoval(Removal(c, lock)))
  }

  lemma DroppingInTwo(s: State, c: Client, locks: seq<Lock>)
    requires locks != []
    ensures Run(s, Dropping(c, locks)) == Run(DropSteps(s, c, locks[|locks| - 1]), Dropping(c, locks[..|locks| - 1]))
  {
    var first := [ReleaseTop(c, true), ServeRemoval(Removal(c, locks[|locks| - 1]))];
    TwoStepRun(s, first[0], first[1]);
    RunInTwo(s, first, Dropping(c, locks[..|locks| - 1]));
  }

  lemma StackWithoutTop(held: seq<Lock>, base: nat)
    requires base < |held|
    ensures held[..|held| - 1][base..] == held[base..][..|held| - base - 1]
    ensures held[..|held| - 1][..base] == held[..base]
    ensures BucketsOf(held[base..]) == BucketsOf(held[..|held| - 1][base..]) + {held[|held| - 1].bucket}
  {
    var above := held[base..];
    var last := |above| - 1;
    assert above[last] == held[|held| - 1];
    forall b ensures b in BucketsOf(above) <==> b in BucketsOf(above[..last]) + {above[last].bucket} {
      if b in BucketsOf(above) {
        var i :| 0 <= i < |above| && above[i].bucket == b;
        if i < last { assert above[..last][i].bucket == b; }
      }
      if b in BucketsOf(above[..last]) {
        var i :| 0 <= i < |above[..last]| && above[..last][i].bucket == b;
        assert above[i].bucket == b;
      }
    }
  }

  // ---------------------------------------------------------------- brackets

  // Every bucket of a list: asked for, served and acknowledged.
  function Taking(c: Client, todo: seq<Bucket>, tokens: seq<Token>, g: nat): seq<Action>
    requires |tokens| == |todo|
  {
    if todo == [] then []
    else
      [SendCreate(c, tokens[0]), ServeCreate(Creation(todo[0], tokens[0])), Granted(c, g)] +
      Taking(c, todo[1..], tokens[1..], g + 1)
  }

  function LocksOf(todo: seq<Bucket>, g: nat): seq<Lock> {
    seq(|todo|, i requires 0 <= i < |todo| => Lock(todo[i], g + i))
  }

  // The buckets are free, and the tokens have not been drawn.
  predicate Available(s: State, todo: seq<Bucket>, tokens: seq<Token>) {
    && |tokens| == |todo|
    && (forall i :: 0 <= i < |todo| ==> todo[i] !in s.live && tokens[i] !in s.owner)
    && (forall i, j :: 0 <= i < j < |todo| ==> todo[i] != todo[j] && tokens[i] != tokens[j])
  }

  // The client has taken the list, and nothing else has changed.
  predicate Taken(s: State, n: State, c: Client) {
    var t := ThreadOf(s, c);
    && t.mode.Acquiring?
    && var locks := LocksOf(t.mode.todo, s.nextGeneration);
       && n.live - BucketsOf(locks) == s.live
       && ThreadOf(n, c) == Thread(t.held + locks, t.marks, Acquiring([], t.mode.base, Ready))
  }

  lemma {:induction false} TakingTakes(s: State, c: Client, tokens: seq<Token>)
    requires ThreadOf(s, c).mode.Acquiring? && ThreadOf(s, c).mode.attempt.Ready?
    requires Available(s, ThreadOf(s, c).mode.todo, tokens)
    ensures Taken(s, Run(s, Taking(c, ThreadOf(s, c).mode.todo, tokens, s.nextGeneration)), c)
    decreases |tokens|
  {
    var t := ThreadOf(s, c);
    if t.mode.todo == [] {
      assert LocksOf(t.mode.todo, s.nextGeneration) == [] && BucketsOf([]) == {};
    } else {
      var n := TakeOne(s, c, tokens);
      TakingTakes(n, c, tokens[1..]);
      var m := Run(n, Taking(c, ThreadOf(n, c).mode.todo, tokens[1..], n.nextGeneration));
      TakenAfterOne(s, n, m, c, tokens[0]);
    }
  }

  lemma TakenAfterOne(s: State, n: State, m: State, c: Client, token: Token)
    requires ThreadOf(s, c).mode.Acquiring? && ThreadOf(s, c).mode.todo != [] && ThreadOf(s, c).mode.todo[0] !in s.live
    requires var t, g := ThreadOf(s, c), s.nextGeneration;
      var todo := t.mode.todo;
      && n.live == s.live[todo[0] := LockVersion(g, token)] && n.nextGeneration == g + 1
      && ThreadOf(n, c) == Thread(t.held + [Lock(todo[0], g)], t.marks, Acquiring(todo[1..], t.mode.base, Ready))
    requires Taken(n, m, c)
    ensures Taken(s, m, c)
  {
    var t, g := ThreadOf(s, c), s.nextGeneration;
    var todo := t.mode.todo;
    ListWithoutHead(todo, g);
    var rest := BucketsOf(LocksOf(todo[1..], g + 1));
    assert m.live - ({todo[0]} + rest) == (m.live - rest) - {todo[0]};
    assert n.live - {todo[0]} == s.live;
  }

  lemma TakeOne(s: State, c: Client, tokens: seq<Token>) returns (n: State)
    requires ThreadOf(s, c).mode.Acquiring? && ThreadOf(s, c).mode.attempt.Ready? && ThreadOf(s, c).mode.todo != []
    requires Available(s, ThreadOf(s, c).mode.todo, tokens)
    ensures var t, g := ThreadOf(s, c), s.nextGeneration;
      var todo := t.mode.todo;
      && n.live == s.live[todo[0] := LockVersion(g, tokens[0])] && n.nextGeneration == g + 1
      && ThreadOf(n, c) == Thread(t.held + [Lock(todo[0], g)], t.marks, Acquiring(todo[1..], t.mode.base, Ready))
      && Available(n, todo[1..], tokens[1..])
      && Run(s, Taking(c, todo, tokens, g)) == Run(n, Taking(c, todo[1..], tokens[1..], g + 1))
  {
    var todo := ThreadOf(s, c).mode.todo;
    TakingInTwo(s, c, todo, tokens, s.nextGeneration);
    n := TakeFirst(s, c, tokens);
  }

  function TakeSteps(s: State, c: Client, b: Bucket, token: Token, g: nat): State {
    Next(Next(Next(s, SendCreate(c, token)), ServeCreate(Creation(b, token))), Granted(c, g))
  }

  lemma TakingInTwo(s: State, c: Client, todo: seq<Bucket>, tokens: seq<Token>, g: nat)
    requires |tokens| == |todo| && todo != []
    ensures Run(s, Taking(c, todo, tokens, g)) == Run(TakeSteps(s, c, todo[0], tokens[0], g), Taking(c, todo[1..], tokens[1..], g + 1))
  {
    var first := [SendCreate(c, tokens[0]), ServeCreate(Creation(todo[0], tokens[0])), Granted(c, g)];
    assert first[..2] == [first[0], first[1]];
    TwoStepRun(s, first[0], first[1]);
    RunInTwo(s, first, Taking(c, todo[1..], tokens[1..], g + 1));
  }

  lemma TakeFirst(s: State, c: Client, tokens: seq<Token>) returns (n: State)
    requires ThreadOf(s, c).mode.Acquiring? && ThreadOf(s, c).mode.attempt.Ready? && ThreadOf(s, c).mode.todo != []
    requires Available(s, ThreadOf(s, c).mode.todo, tokens)
    ensures n == TakeSteps(s, c, ThreadOf(s, c).mode.todo[0], tokens[0], s.nextGeneration)
    ensures var t, g := ThreadOf(s, c), s.nextGeneration;
      var todo := t.mode.todo;
      && n.live == s.live[todo[0] := LockVersion(g, tokens[0])] && n.nextGeneration == g + 1
      && ThreadOf(n, c) == Thread(t.held + [Lock(todo[0], g)], t.marks, Acquiring(todo[1..], t.mode.base, Ready))
      && Available(n, todo[1..], tokens[1..])
  {
    var t := ThreadOf(s, c);
    n := TakeSteps(s, c, t.mode.todo[0], tokens[0], s.nextGeneration);
    FreeBucketIsGranted(s, c, tokens[0]);
    assert n.owner == s.owner[tokens[0] := c] && n.nextGeneration == s.nextGeneration + 1;
  }

  lemma ListWithoutHead(todo: seq<Bucket>, g: nat)
    requires todo != []
    ensures LocksOf(todo, g) == [Lock(todo[0], g)] + LocksOf(todo[1..], g + 1)
    ensures BucketsOf(LocksOf(todo, g)) == {todo[0]} + BucketsOf(LocksOf(todo[1..], g + 1))
  {
    var all, rest := LocksOf(todo, g), LocksOf(todo[1..], g + 1);
    assert all == [Lock(todo[0], g)] + rest;
    forall b ensures b in BucketsOf(all) <==> b == todo[0] || b in BucketsOf(rest) {
      if b in BucketsOf(all) {
        var i :| 0 <= i < |all| && all[i].bucket == b;
        if i > 0 { assert rest[i - 1].bucket == b; }
      }
      if b in BucketsOf(rest) {
        var i :| 0 <= i < |rest| && rest[i].bucket == b;
        assert all[i + 1].bucket == b;
      }
      assert all[0].bucket == todo[0];
    }
  }

  // A whole bracket around nothing: whatever the client holds already, taking any
  // list of free buckets, entering, leaving and giving them back leaves every lock
  // object and the client's stack as they were.
  function Bracket(c: Client, todo: seq<Bucket>, tokens: seq<Token>, g: nat): seq<Action>
    requires |tokens| == |todo|
  {
    [Begin(c, todo)] + Taking(c, todo, tokens, g) + [Enter(c), Leave(c)] + Dropping(c, LocksOf(todo, g)) + [Finish(c)]
  }

  lemma BracketIsNeutral(s: State, c: Client, todo: seq<Bucket>, tokens: seq<Token>)
    requires Inv(s) && ThreadOf(s, c).mode.Running? && Available(s, todo, tokens)
    ensures var n := Run(s, Bracket(c, todo, tokens, s.nextGeneration));
      n.live == s.live && ThreadOf(n, c) == ThreadOf(s, c)
  {
    var g := s.nextGeneration;
    var begun := Begun(s, c, todo, tokens);
    var taken := Run(begun, Taking(c, todo, tokens, g));
    TakingTakes(begun, c, tokens);
    RunKeepsInv(begun, Taking(c, todo, tokens, g));
    var left := LeftAgain(taken, c, |ThreadOf(s, c).held|);
    var held, locks := ThreadOf(s, c).held, LocksOf(todo, g);
    assert (held + locks)[|held|..] == locks && (held + locks)[..|held|] == held;
    ReleaseGivesBackAll(left, c);
    BracketInParts(s, c, todo, tokens, g);
  }

  lemma Begun(s: State, c: Client, todo: seq<Bucket>, tokens: seq<Token>) returns (n: State)
    requires Inv(s) && ThreadOf(s, c).mode.Running? && Available(s, todo, tokens)
    ensures n == Run(s, [Begin(c, todo)]) && Inv(n) && Available(n, todo, tokens)
    ensures n.live == s.live && n.nextGeneration == s.nextGeneration
    ensures ThreadOf(n, c) == ThreadOf(s, c).(mode := Acquiring(todo, |ThreadOf(s, c).held|, Ready))
  {
    HeldIsNotFree(s, c, todo, tokens);
    OneStepRun(s, Begin(c, todo));
    RunKeepsInv(s, [Begin(c, todo)]);
    n := Run(s, [Begin(c, todo)]);
  }

  lemma LeftAgain(s: State, c: Client, base: nat) returns (n: State)
    requires Inv(s) && ThreadOf(s, c).mode == Acquiring([], base, Ready)
    ensures n == Run(s, [Enter(c), Leave(c)]) && Inv(n) && n.live == s.live
    ensures ThreadOf(n, c) == ThreadOf(s, c).(mode := Releasing(base))
  {
    TwoStepRun(s, Enter(c), Leave(c));
    RunKeepsInv(s, [Enter(c), Leave(c)]);
    n := Run(s, [Enter(c), Leave(c)]);
    var marks := ThreadOf(s, c).marks + [base];
    assert marks[..|marks| - 1] == ThreadOf(s, c).marks;
  }

  lemma BracketInParts(s: State, c: Client, todo: seq<Bucket>, tokens: seq<Token>, g: nat)
    requires |tokens| == |todo|
    ensures Run(s, Bracket(c, todo, tokens, g)) ==
      Run(Run(Run(Run(s, [Begin(c, todo)]), Taking(c, todo, tokens, g)), [Enter(c), Leave(c)]), Dropping(c, LocksOf(todo, g)) + [Finish(c)])
  {
    var one, two, three := [Begin(c, todo)], Taking(c, todo, tokens, g), [Enter(c), Leave(c)];
    var four, five := Dropping(c, LocksOf(todo, g)), [Finish(c)];
    assert Bracket(c, todo, tokens, g) == one + two + three + (four + five);
    RunInTwo(s, one + two + three, four + five);
    RunInTwo(s, one + two, three);
    RunInTwo(s, one, two);
  }

  // What a client holds is live, so a free bucket is none of it.
  lemma HeldIsNotFree(s: State, c: Client, todo: seq<Bucket>, tokens: seq<Token>)
    requires Inv(s) && Available(s, todo, tokens)
    ensures forall i :: 0 <= i < |ThreadOf(s, c).held| ==> ThreadOf(s, c).held[i].bucket !in todo
  {
    var t := ThreadOf(s, c);
    forall i | 0 <= i < |t.held| ensures t.held[i].bucket in s.live {
      assert Owns(s, c, t.held[i]) && !Requested(s, t.held[i].generation);
    }
  }

  // ------------------------------------------------------------ for good

  // The version has been there and is there no more.
  predicate Gone(s: State, lock: Lock) {
    && lock.generation < s.nextGeneration
    && (lock.bucket in s.live ==> s.live[lock.bucket].generation != lock.generation)
  }

  // Once a delete request has been served, nothing that anybody does afterwards,
  // requests served late or twice included, brings that lock object back.
  lemma {:induction false} RemovedForGood(actions: seq<Action>, removal: Removal, later: seq<Action>)
    requires removal in Execute(actions).removals
    ensures Gone(Run(Next(Execute(actions), ServeRemoval(removal)), later), removal.lock)
  {
    var s := Execute(actions);
    EveryRunIsSafe(actions);
    assert Owns(s, removal.client, removal.lock);
    if later != [] {
      RemovedForGood(actions, removal, later[..|later| - 1]);
      GoneStays(Run(Next(s, ServeRemoval(removal)), later[..|later| - 1]), later[|later| - 1], removal.lock);
    }
  }

  lemma GoneStays(s: State, a: Action, lock: Lock)
    requires Gone(s, lock)
    ensures Gone(Next(s, a), lock)
  {
  }
}
