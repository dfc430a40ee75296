// What a rollback achieves once the trouble that caused it is over: everything
// goes home, the move that was struck aside if it could not be undone at once.
module Undoing {
  import opened Wrappers
  import opened ObjectPaths
  import opened ObjectStore
  import opened StorageClient
  import opened Accounting

  // All places that one move has to do with.
  function Trio(m: PlannedMove): set<ObjectPath> {
    {m.source, m.temporary, m.target}
  }

  // No target exists yet; in particular none is a source.
  ghost predicate NewTargets(initial: Objects, plan: seq<PlannedMove>) {
    forall i :: 0 <= i < |plan| ==> plan[i].target !in initial
  }

  // The books are exact for everything but the holes.
  ghost predicate AccountedOutside(initial: Objects, live: Objects, pending: Pending, holes: set<ObjectPath>) {
    Accounted(initial - holes, live - holes, pending - holes)
  }

  ghost predicate RestoredOutside(initial: Objects, live: Objects, holes: set<ObjectPath>) {
    Contents(live - holes) == Contents(initial - holes)
  }

  // A record has its source among the holes exactly if it has its place there.
  ghost predicate Closed(pending: Pending, holes: set<ObjectPath>) {
    forall s :: s in pending ==> (s in holes <==> pending[s].at in holes)
  }

  // Every record outside the holes can be taken home whenever its turn comes.
  ghost predicate Undoable(initial: Objects, live: Objects, pending: Pending, holes: set<ObjectPath>) {
    && AccountedOutside(initial, live, pending, holes) && Closed(pending, holes)
    && (forall s, t :: s in pending && t in pending ==> pending[s].at != t)
    && (forall s :: s in pending ==> !StorageApi.Reserved(s) && !StorageApi.Reserved(pending[s].at))
  }

  lemma ReadyToUndo(initial: Objects, live: Objects, pending: Pending, holes: set<ObjectPath>, s: ObjectPath)
    requires Undoable(initial, live, pending, holes) && s in pending && s !in holes
    ensures Matches(live, pending[s].at, Some(pending[s].generation)) && s !in live
  {
    var rest := pending - holes;
    assert s in rest && rest[s].at in live - holes;
    forall t | t in rest ensures rest[t].at != s {
      assert t in pending;
    }
    assert s in live - holes && s !in Places(rest) <==> s in initial - holes && s !in rest;
  }

  // A record outside the holes has gone home.
  lemma UndoOne(initial: Objects, before: Objects, after: Objects, pending: Pending, holes: set<ObjectPath>,
                s: ObjectPath, generation: nat)
    requires Undoable(initial, before, pending, holes) && s in pending && s !in holes
    requires Moved(before, after, pending[s].at, s, generation)
    ensures Undoable(initial, after, pending - {s}, holes)
  {
    var a := pending[s].at;
    assert after - holes == ((before - holes) - {a})[s := Version(generation, before[a].content)];
    AccountRollback(initial - holes, before - holes, after - holes, pending - holes, s, generation);
    assert (pending - {s}) - holes == (pending - holes) - {s};
  }

  // Whatever becomes of the holes leaves the rest alone.
  lemma UndoHole(initial: Objects, before: Objects, after: Objects, pending: Pending, holes: set<ObjectPath>, s: ObjectPath)
    requires Undoable(initial, before, pending, holes) && s in pending && s in holes
    requires Relocates(before, after, pending[s].at, s)
    ensures Undoable(initial, after, pending - {s}, holes)
  {
    OnlyHolesChange(before, after, holes, pending[s].at, s);
    assert (pending - {s}) - holes == pending - holes;
  }

  lemma OnlyHolesChange(before: Objects, after: Objects, holes: set<ObjectPath>, a: ObjectPath, b: ObjectPath)
    requires Relocates(before, after, a, b) && a in holes && b in holes
    ensures after - holes == before - holes
  {
    RelocatesNothingElse(before, after, a, b);
  }

  lemma AllUndone(initial: Objects, live: Objects, holes: set<ObjectPath>)
    requires Undoable(initial, live, map[], holes)
    ensures RestoredOutside(initial, live, holes)
  {
    var none: Pending := map[];
    assert none - holes == none;
    AccountedEmpty(initial - holes, live - holes);
  }

  // A move that stopped half-way spoils no books but its own.
  lemma HolesOpen(initial: Objects, before: Objects, after: Objects, pending: Pending, holes: set<ObjectPath>,
                  a: ObjectPath, b: ObjectPath)
    requires Accounted(initial, before, pending) && Closed(pending, holes)
    requires Relocates(before, after, a, b) && a in holes && b in holes
    ensures AccountedOutside(initial, after, pending, holes)
  {
    OnlyHolesChange(before, after, holes, a, b);
    var rest := pending - holes;
    forall p | p !in holes ensures p in Places(rest) <==> p in Places(pending) {
      if p in Places(pending) {
        var s :| s in pending && pending[s].at == p;
        assert s in rest && rest[s].at == p;
      }
    }
    forall p ensures p in after - holes && p !in Places(rest) <==> p in initial - holes && p !in rest {
      if p !in holes {
        assert p in before && p !in Places(pending) <==> p in initial && p !in pending;
        assert p in after - holes <==> p in before - holes;
      }
    }
    forall p | p in after - holes && p !in Places(rest) ensures (after - holes)[p].content == (initial - holes)[p].content {
      assert p in before - holes && (before - holes)[p] == before[p];
    }
  }

  lemma ExactIsUndoable(initial: Objects, live: Objects, pending: Pending)
    requires Accounted(initial, live, pending)
    ensures AccountedOutside(initial, live, pending, {}) && Closed(pending, {})
  {
    assert initial - {} == initial && live - {} == live && pending - {} == pending;
  }
}
