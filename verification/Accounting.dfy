// Where every byte of a running rename transaction is. Nothing here exists at
// run time: it is what src/transaction.rs and src/normalize.rs rely on.
module Accounting {
  import opened Wrappers
  import opened ObjectPaths
  import opened ObjectStore
  import opened StorageClient

  datatype PlannedMove = PlannedMove(source: ObjectPath, target: ObjectPath, temporary: ObjectPath)

  // Temporary names are private: nobody else's source or target, and distinct.
  // Nothing is asked of sources and targets: chains, cycles and repetitions are
  // for the requests themselves to refuse.
  predicate PrivateTemporaries(plan: seq<PlannedMove>) {
    forall i, j {:trigger Apart(plan, i, j)} :: 0 <= i < |plan| && 0 <= j < |plan| ==> Apart(plan, i, j)
  }

  predicate Apart(plan: seq<PlannedMove>, i: nat, j: nat)
    requires i < |plan| && j < |plan|
  {
    && plan[i].temporary != plan[j].source && plan[i].temporary != plan[j].target
    && (i != j ==> plan[i].temporary != plan[j].temporary)
  }

  // The place and generation under which a source's bytes are recorded.
  datatype Located = Located(at: ObjectPath, generation: nat)
  type Pending = map<ObjectPath, Located>

  function Places(pending: Pending): set<ObjectPath> {
    set s | s in pending :: pending[s].at
  }

  function At(pending: Pending, s: ObjectPath): ObjectPath {
    if s in pending then pending[s].at else s
  }

  // Every recorded generation is live and holds its source's initial bytes, no
  // two records share a place, and apart from the recorded moves the objects
  // are the initial ones.
  ghost predicate Accounted(initial: Objects, live: Objects, pending: Pending) {
    && (forall s :: s in pending ==>
          s in initial && pending[s].at in live && live[pending[s].at] == Version(pending[s].generation, initial[s].content))
    && (forall s, t :: s in pending && t in pending && s != t ==> pending[s].at != pending[t].at)
    && (forall p :: p in live && p !in Places(pending) <==> p in initial && p !in pending)
    && (forall p :: p in live && p !in Places(pending) ==> live[p].content == initial[p].content)
  }

  // Moving the bytes of s on, first from s itself and later from its record.
  lemma AccountMove(initial: Objects, before: Objects, after: Objects, pending: Pending,
                    s: ObjectPath, b: ObjectPath, generation: nat)
    requires Accounted(initial, before, pending)
    requires s in pending || s !in Places(pending)
    requires Moved(before, after, At(pending, s), b, generation)
    ensures Accounted(initial, after, pending[s := Located(b, generation)])
  {
    PlacesMove(pending, s, b, generation);
    RecordsMove(initial, before, after, pending, s, b, generation);
    var next := pending[s := Located(b, generation)];
    forall p ensures p in after && p !in Places(next) <==> p in initial && p !in next {
      assert p in before && p !in Places(pending) <==> p in initial && p !in pending;
    }
  }

  lemma RecordsMove(initial: Objects, before: Objects, after: Objects, pending: Pending,
                    s: ObjectPath, b: ObjectPath, generation: nat)
    requires Accounted(initial, before, pending)
    requires s in pending || s !in Places(pending)
    requires Moved(before, after, At(pending, s), b, generation)
    ensures var next := pending[s := Located(b, generation)];
      && (forall t :: t in next ==>
            t in initial && next[t].at in after && after[next[t].at] == Version(next[t].generation, initial[t].content))
      && (forall t, u :: t in next && u in next && t != u ==> next[t].at != next[u].at)
  {
    forall t | t in pending && t != s ensures pending[t].at != At(pending, s) {
      if s !in pending { assert pending[t].at in Places(pending); }
    }
  }

  lemma PlacesMove(pending: Pending, s: ObjectPath, b: ObjectPath, generation: nat)
    requires forall t, u :: t in pending && u in pending && t != u ==> pending[t].at != pending[u].at
    requires s in pending || s !in Places(pending)
    ensures Places(pending[s := Located(b, generation)]) == Places(pending) - {At(pending, s)} + {b}
  {
    var next := pending[s := Located(b, generation)];
    forall p ensures p in Places(next) <==> p == b || (p in Places(pending) && p != At(pending, s)) {
      if p in Places(pending) && p != At(pending, s) {
        var t :| t in pending && pending[t].at == p;
        assert t in next && next[t].at == p;
      }
      if p == b { assert s in next && next[s].at == b; }
    }
  }

  // Moving recorded bytes back home closes the record.
  lemma AccountRollback(initial: Objects, before: Objects, after: Objects, pending: Pending,
                        s: ObjectPath, generation: nat)
    requires Accounted(initial, before, pending) && s in pending
    requires Moved(before, after, pending[s].at, s, generation)
    ensures Accounted(initial, after, pending - {s})
  {
    var next := pending - {s};
    forall p ensures p in Places(next) <==> (p in Places(pending) && p != pending[s].at) {
      if p in Places(pending) && p != pending[s].at {
        var t :| t in pending && pending[t].at == p;
        assert t in next && next[t].at == p;
      }
    }
  }

  // An interrupted move put the bytes back where they were, under a new generation.
  lemma AccountRestore(initial: Objects, before: Objects, after: Objects, pending: Pending,
                       s: ObjectPath, generation: nat)
    requires Accounted(initial, before, pending)
    requires s in pending || s !in Places(pending)
    requires At(pending, s) in before
    requires after == before[At(pending, s) := Version(generation, before[At(pending, s)].content)]
    ensures s in pending ==> Accounted(initial, after, pending[s := pending[s].(generation := generation)])
    ensures s !in pending ==> Accounted(initial, after, pending)
  {
    if s in pending {
      AccountRenumbered(initial, before, after, pending, s, generation);
    }
  }

  lemma AccountRenumbered(initial: Objects, before: Objects, after: Objects, pending: Pending, s: ObjectPath, generation: nat)
    requires Accounted(initial, before, pending) && s in pending
    requires after == before[pending[s].at := Version(generation, before[pending[s].at].content)]
    ensures Accounted(initial, after, pending[s := pending[s].(generation := generation)])
  {
    PlacesStay(pending, s, generation);
    var next := pending[s := pending[s].(generation := generation)];
    forall t | t in next
      ensures t in initial && next[t].at in after && after[next[t].at] == Version(next[t].generation, initial[t].content)
    {
      assert t in pending && next[t].at == pending[t].at;
    }
    assert pending[s].at in Places(pending);
  }

  lemma PlacesStay(pending: Pending, s: ObjectPath, generation: nat)
    requires s in pending
    ensures Places(pending[s := pending[s].(generation := generation)]) == Places(pending)
  {
    var next := pending[s := pending[s].(generation := generation)];
    forall p ensures p in Places(next) <==> p in Places(pending) {
      if p in Places(pending) {
        var t :| t in pending && pending[t].at == p;
        assert t in next && next[t].at == p;
      }
    }
  }

  lemma AccountedEmpty(initial: Objects, live: Objects)
    requires Accounted(initial, live, map[])
    ensures Contents(live) == Contents(initial)
  {
    var none: Pending := map[];
    assert Places(none) == {};
    forall p ensures p in live <==> p in initial {
      assert p in live && p !in Places(none) <==> p in initial && p !in none;
    }
  }

  // The whole plan carried out at once, whatever its chains and cycles.
  ghost predicate Renamed(initial: Objects, live: Objects, plan: seq<PlannedMove>) {
    && (forall i :: 0 <= i < |plan| ==>
          plan[i].source in initial && plan[i].target in live && live[plan[i].target].content == initial[plan[i].source].content)
    && (forall p :: p in live && !IsTarget(plan, p) <==> p in initial && !IsSource(plan, p))
    && (forall p :: p in live && !IsTarget(plan, p) ==> live[p].content == initial[p].content)
    && (forall i, j :: 0 <= i < j < |plan| ==> plan[i].target != plan[j].target && plan[i].source != plan[j].source)
  }

  predicate IsTarget(plan: seq<PlannedMove>, p: ObjectPath) {
    exists i :: 0 <= i < |plan| && plan[i].target == p
  }

  predicate IsSource(plan: seq<PlannedMove>, p: ObjectPath) {
    exists i :: 0 <= i < |plan| && plan[i].source == p
  }

  lemma AccountedAll(initial: Objects, live: Objects, pending: Pending, plan: seq<PlannedMove>)
    requires Accounted(initial, live, pending)
    requires forall i :: 0 <= i < |plan| ==> plan[i].source in pending && pending[plan[i].source].at == plan[i].target
    requires forall i, j :: 0 <= i < j < |plan| ==> plan[i].source != plan[j].source
    requires forall s :: s in pending ==> IsSource(plan, s)
    ensures Renamed(initial, live, plan)
  {
    forall p ensures p in Places(pending) <==> IsTarget(plan, p) {
      if IsTarget(plan, p) {
        var i :| 0 <= i < |plan| && plan[i].target == p;
        assert pending[plan[i].source].at == p;
      }
      if p in Places(pending) {
        var s :| s in pending && pending[s].at == p;
        var i :| 0 <= i < |plan| && plan[i].source == s;
        assert plan[i].target == p;
      }
    }
  }

  // --------------------------------------------------------------- cut points

  // The names a planned source's bytes may be found under.
  ghost predicate Home(plan: seq<PlannedMove>, s: ObjectPath, p: ObjectPath) {
    exists i :: 0 <= i < |plan| && plan[i].source == s && (p == s || p == plan[i].temporary || p == plan[i].target)
  }

  ghost predicate Planned(plan: seq<PlannedMove>, p: ObjectPath) {
    exists s :: Home(plan, s, p)
  }

  // What an operator finds if the run stops here for good: the bytes of every
  // planned source under one of its own three names, all other objects as ever.
  ghost predicate Safe(initial: Objects, live: Objects, plan: seq<PlannedMove>) {
    && (forall i :: 0 <= i < |plan| && plan[i].source in initial ==>
          exists p :: Home(plan, plan[i].source, p) && p in live && live[p].content == initial[plan[i].source].content)
    && (forall p :: !Planned(plan, p) ==> (p in live <==> p in initial) && (p in live ==> live[p] == initial[p]))
  }

  // The same with a witness: `location` names a copy of each source, and no two
  // sources share one.
  ghost predicate Held(initial: Objects, live: Objects, location: map<ObjectPath, ObjectPath>, plan: seq<PlannedMove>) {
    && (forall i :: 0 <= i < |plan| && plan[i].source in initial ==> plan[i].source in location)
    && (forall s :: s in location ==>
          s in initial && Home(plan, s, location[s]) && location[s] in live && live[location[s]].content == initial[s].content)
    && (forall s, t :: s in location && t in location && s != t ==> location[s] != location[t])
    && (forall p :: !Planned(plan, p) ==> (p in live <==> p in initial) && (p in live ==> live[p] == initial[p]))
  }

  function Relocated(location: map<ObjectPath, ObjectPath>, before: Objects, after: Objects,
                     s: ObjectPath, a: ObjectPath, b: ObjectPath): map<ObjectPath, ObjectPath> {
    if a in before && a !in after then location[s := b] else location
  }

  lemma HeldStep(initial: Objects, before: Objects, after: Objects, location: map<ObjectPath, ObjectPath>,
                 plan: seq<PlannedMove>, s: ObjectPath, a: ObjectPath, b: ObjectPath)
    requires Held(initial, before, location, plan)
    requires Relocates(before, after, a, b)
    requires Home(plan, s, a) && Home(plan, s, b)
    requires a in before ==> s in location && location[s] == a
    ensures Held(initial, after, Relocated(location, before, after, s, a, b), plan)
  {
    if a in before && b !in before {
      RelocatesNothingElse(before, after, a, b);
      assert Planned(plan, a) && Planned(plan, b);
    }
  }

  lemma HeldIsSafe(initial: Objects, live: Objects, location: map<ObjectPath, ObjectPath>, plan: seq<PlannedMove>)
    requires Held(initial, live, location, plan)
    ensures Safe(initial, live, plan)
  {
    forall i | 0 <= i < |plan| && plan[i].source in initial
      ensures exists p :: Home(plan, plan[i].source, p) && p in live && live[p].content == initial[plan[i].source].content
    {
      var p := location[plan[i].source];
      assert Home(plan, plan[i].source, p);
    }
  }

  // Every state since the transaction began is safe.
  ghost predicate SafeSince(log0: seq<Event>, log: seq<Event>, initial: Objects, plan: seq<PlannedMove>) {
    && log0 <= log
    && forall i :: |log0| <= i < |log| ==> Safe(initial, log[i].after, plan)
  }

  lemma TrailIsSafe(log0: seq<Event>, log1: seq<Event>, log2: seq<Event>, initial: Objects, before: Objects,
                    location: map<ObjectPath, ObjectPath>, plan: seq<PlannedMove>, s: ObjectPath, a: ObjectPath, b: ObjectPath)
    requires SafeSince(log0, log1, initial, plan) && Held(initial, before, location, plan)
    requires Trail(log1, log2, before, a, b)
    requires Home(plan, s, a) && Home(plan, s, b)
    requires a in before ==> s in location && location[s] == a
    ensures SafeSince(log0, log2, initial, plan)
  {
    forall i | |log0| <= i < |log2| ensures Safe(initial, log2[i].after, plan) {
      if i < |log1| {
        assert log2[i] == log1[i];
      } else {
        HeldStep(initial, before, log2[i].after, location, plan, s, a, b);
        HeldIsSafe(initial, log2[i].after, Relocated(location, before, log2[i].after, s, a, b), plan);
      }
    }
  }
}
