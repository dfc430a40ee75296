// src/local.rs: a list of renames applied one by one and undone in reverse.
module LocalRenames {
  import opened Wrappers
  import opened Errors
  import opened AtomicRename

  datatype Rename = Rename(source: LocalPath, target: LocalPath)

  // Captured inodes by path. Without a captured root nothing is checked.
  datatype RenameContext = RenameContext(root: Option<nat>, files: map<LocalPath, nat>, directories: map<LocalPath, nat>)

  function Find(captured: map<LocalPath, nat>, path: LocalPath): Option<nat> {
    if path in captured then Some(captured[path]) else None
  }

  function ParentIdentity(context: RenameContext, path: LocalPath): Option<nat> {
    if path.components == [] then None
    else Find(context.directories, path.(components := path.components[..|path.components| - 1]))
  }

  // The same checks forwards and backwards: the file is always the one captured
  // under its original name.
  function Identity(context: RenameContext, source: LocalPath, target: LocalPath, expectedFile: LocalPath): RenameIdentity {
    if context.root.None? then RenameIdentity(None, None, None, None)
    else RenameIdentity(context.root, Find(context.files, expectedFile),
                        ParentIdentity(context, source), ParentIdentity(context, target))
  }

  // ------------------------------------------------------------------ meaning

  // One rename carried out, or nothing where both names are one entry.
  function Step(disk: Disk, at: Entries, rename: Rename): Entries {
    var from, to := disk.Locate(at, rename.source), disk.Locate(at, rename.target);
    if rename.source == rename.target || from.None? || to.None? || from == to || from.value !in at then at
    else (at - {from.value})[to.value := at[from.value]]
  }

  function Sequential(disk: Disk, at: Entries, plan: seq<Rename>): Entries {
    if plan == [] then at else Step(disk, Sequential(disk, at, plan[..|plan| - 1]), plan[|plan| - 1])
  }

  // A recorded rename: what it moved, between verified places.
  ghost predicate Hop(disk: Disk, context: RenameContext, a: Entries, b: Entries, rename: Rename) {
    && disk.Locate(a, rename.source).Some? && disk.Locate(a, rename.target).Some? && rename.source != rename.target
    && var from, to := disk.Locate(a, rename.source).value, disk.Locate(a, rename.target).value;
       && MovesEntry(a, b, from, to) && disk.kind(a[from]) != Directory
       && disk.Verified(a, Identity(context, rename.source, rename.target, rename.source), from, to)
  }

  ghost predicate Trace(disk: Disk, context: RenameContext, states: seq<Entries>, records: seq<Rename>) {
    && |states| == |records| + 1
    && forall k :: 0 <= k < |records| ==> Leg(disk, context, states[k], states[k + 1], records[k])
  }

  // Both names are one directory entry.
  predicate OneEntry(disk: Disk, at: Entries, rename: Rename) {
    disk.Locate(at, rename.source).Some? && disk.Locate(at, rename.source) == disk.Locate(at, rename.target)
  }

  predicate Idle(disk: Disk, at: Entries, rename: Rename) {
    rename.source == rename.target || OneEntry(disk, at, rename)
  }

  // Entries without a change are listed too, and do nothing; nor do those whose
  // new name the directory already takes for the old one.
  ghost predicate Leg(disk: Disk, context: RenameContext, a: Entries, b: Entries, rename: Rename) {
    if Idle(disk, a, rename) then b == a else Hop(disk, context, a, b, rename)
  }

  // Every record is between two entries, none between two spellings of one.
  ghost predicate AllMove(disk: Disk, states: seq<Entries>, records: seq<Rename>) {
    |records| < |states| && forall k :: 0 <= k < |records| ==> !OneEntry(disk, states[k], records[k])
  }

  // Renaming files moves no directory, so every path still leads to its place.
  lemma HopKeepsPlaces(disk: Disk, context: RenameContext, a: Entries, b: Entries, rename: Rename, path: LocalPath)
    requires Hop(disk, context, a, b, rename)
    ensures disk.Locate(b, path) == disk.Locate(a, path)
  {
    if WellFormed(path) {
      FilesDoNotRedirect(a, b, disk.Locate(a, rename.source).value, disk.Locate(a, rename.target).value,
                         disk.kind, disk.fold, a[disk.rootSlot], Parents(path));
    }
  }

  lemma HopIsStep(disk: Disk, context: RenameContext, a: Entries, b: Entries, rename: Rename)
    requires Hop(disk, context, a, b, rename)
    ensures Step(disk, a, rename) == b
  {
  }

  // The way back is open: the same checks pass and nothing is in the way.
  lemma HopCanBeUndone(disk: Disk, context: RenameContext, a: Entries, b: Entries, rename: Rename)
    requires Hop(disk, context, a, b, rename)
    ensures disk.Renamable(b, Identity(context, rename.target, rename.source, rename.source), rename.target, rename.source)
  {
    HopKeepsPlaces(disk, context, a, b, rename, rename.source);
    HopKeepsPlaces(disk, context, a, b, rename, rename.target);
  }

  lemma UndoneHopIsHome(disk: Disk, context: RenameContext, a: Entries, b: Entries, c: Entries, rename: Rename)
    requires Hop(disk, context, a, b, rename)
    requires disk.Locate(b, rename.target).Some? && disk.Locate(b, rename.source).Some?
    requires MovesEntry(b, c, disk.Locate(b, rename.target).value, disk.Locate(b, rename.source).value)
    ensures c == a
  {
    HopKeepsPlaces(disk, context, a, b, rename, rename.source);
    HopKeepsPlaces(disk, context, a, b, rename, rename.target);
  }

  // ----------------------------------------------------------------- rollback

  // In reverse order, going on after a failure.
  method Rollback(disk: Disk, context: RenameContext, records: seq<Rename>, ghost states: seq<Entries>, ghost tracked: bool)
    returns (errors: seq<AppError>)
    requires disk.Valid()
    requires tracked ==> disk.Quiet() && Trace(disk, context, states, records) && disk.entries == states[|records|]
    modifies disk
    ensures disk.Progress()
    ensures tracked && errors == [] ==> disk.entries == states[0]
    ensures tracked && AllMove(disk, states, records) && old(disk.Working()) ==> errors == []
  {
    errors := [];
    var i := |records|;
    while i > 0
      invariant 0 <= i <= |records| && disk.Progress()
      invariant tracked && errors == [] ==> disk.entries == states[i]
      invariant tracked && AllMove(disk, states, records) && old(disk.Working()) ==> errors == []
    {
      i := i - 1;
      var failure := RollbackOne(disk, context, records[i], if tracked then states[i] else map[], tracked && errors == []);
      if failure.Some? {
        errors := errors + [failure.value];
      }
    }
  }

  method RollbackOne(disk: Disk, context: RenameContext, rename: Rename, ghost home: Entries, ghost tracked: bool)
    returns (failure: Option<AppError>)
    requires disk.Valid()
    requires tracked ==> disk.Quiet() && Leg(disk, context, home, disk.entries, rename)
    modifies disk
    ensures disk.Progress()
    ensures tracked && failure.None? ==> disk.entries == home
    ensures tracked && !OneEntry(disk, home, rename) && old(disk.Working()) ==> failure.None?
  {
    if rename.source == rename.target {
      return None;
    }
    ghost var away := disk.entries;
    ghost var hops := tracked && !Idle(disk, home, rename);
    if hops { HopCanBeUndone(disk, context, home, away, rename); }
    var identity := Identity(context, rename.target, rename.source, rename.source);
    var r, renamed, _ := disk.RenameWithoutOverwrite(identity, rename.target, rename.source);
    if hops && renamed { UndoneHopIsHome(disk, context, home, away, disk.entries, rename); }
    failure := if r.Ok? then None else Some(r.error);
  }

  // ------------------------------------------------------------------- apply

  // Planned sources are files, as discovery lists them.
  ghost predicate FilesPlanned(disk: Disk, at: Entries, plan: seq<Rename>) {
    forall k {:trigger plan[k]} :: 0 <= k < |plan| && disk.Locate(at, plan[k].source).Some? && disk.Locate(at, plan[k].source).value in at
      ==> disk.kind(at[disk.Locate(at, plan[k].source).value]) != Directory
  }

  lemma HopKeepsFiles(disk: Disk, context: RenameContext, a: Entries, b: Entries, rename: Rename, plan: seq<Rename>)
    requires Hop(disk, context, a, b, rename) && FilesPlanned(disk, a, plan)
    ensures FilesPlanned(disk, b, plan)
  {
    forall k | 0 <= k < |plan| && disk.Locate(b, plan[k].source).Some? && disk.Locate(b, plan[k].source).value in b
      ensures disk.kind(b[disk.Locate(b, plan[k].source).value]) != Directory
    {
      HopKeepsPlaces(disk, context, a, b, rename, plan[k].source);
    }
  }

  // The entry can be renamed or needs no renaming.
  predicate Ready(disk: Disk, context: RenameContext, at: Entries, rename: Rename) {
    || rename.source == rename.target
    || disk.Renamable(at, Identity(context, rename.source, rename.target, rename.source), rename.source, rename.target)
    || Merges(disk, context, at, rename)
  }

  // Both names are one directory entry, listed under a single spelling.
  predicate Merges(disk: Disk, context: RenameContext, at: Entries, rename: Rename) {
    disk.Merged(at, Identity(context, rename.source, rename.target, rename.source), rename.source, rename.target)
  }

  // Every entry in turn was renamed or needed no renaming.
  ghost predicate Ran(disk: Disk, context: RenameContext, at: Entries, plan: seq<Rename>) {
    forall k :: 0 <= k < |plan| ==> PassedAt(disk, context, at, plan, k)
  }

  ghost predicate PassedAt(disk: Disk, context: RenameContext, at: Entries, plan: seq<Rename>, k: nat)
    requires k < |plan|
  {
    Passed(disk, context, Sequential(disk, at, plan[..k]), plan[k])
  }

  ghost predicate Passed(disk: Disk, context: RenameContext, at: Entries, rename: Rename) {
    Ready(disk, context, at, rename) || OneEntry(disk, at, rename)
  }

  ghost predicate Runnable(disk: Disk, context: RenameContext, at: Entries, plan: seq<Rename>) {
    forall k :: 0 <= k < |plan| ==> Ready(disk, context, Sequential(disk, at, plan[..k]), plan[k])
  }

  // The renames so far, each on record.
  ghost predicate OnRecord(disk: Disk, context: RenameContext, start: Entries, at: Entries, plan: seq<Rename>,
                           records: seq<Rename>, states: seq<Entries>) {
    && Trace(disk, context, states, records) && states[0] == start && states[|records|] == at
    && AllMove(disk, states, records) && FilesPlanned(disk, at, plan)
  }

  lemma RecordHop(disk: Disk, context: RenameContext, start: Entries, a: Entries, b: Entries, plan: seq<Rename>,
                  records: seq<Rename>, states: seq<Entries>, rename: Rename)
    requires OnRecord(disk, context, start, a, plan, records, states) && Hop(disk, context, a, b, rename)
    ensures OnRecord(disk, context, start, b, plan, records + [rename], states + [b])
  {
    HopKeepsFiles(disk, context, a, b, rename, plan);
  }

  // One entry of the plan, and the interrupt check behind it.
  method ApplyOne(disk: Disk, context: RenameContext, plan: seq<Rename>, k: nat, ghost files: bool, ghost start: Entries,
                  ghost records: seq<Rename>, ghost states: seq<Entries>)
    returns (failure: Option<AppError>, renamed: bool)
    requires disk.Valid() && k < |plan|
    requires files ==> disk.Quiet() && OnRecord(disk, context, start, disk.entries, plan, records, states)
    modifies disk
    ensures disk.Progress()
    ensures files && renamed ==> OnRecord(disk, context, start, disk.entries, plan, records + [plan[k]], states + [disk.entries])
    ensures files && !renamed ==> disk.entries == old(disk.entries)
    ensures files && (renamed || failure.None?) ==> disk.entries == Step(disk, old(disk.entries), plan[k])
    ensures failure.Some? ==> !failure.value.Rollback?
    ensures files && old(disk.Calm()) && Ready(disk, context, old(disk.entries), plan[k]) ==> failure.None?
    ensures files && failure.None? ==> Passed(disk, context, old(disk.entries), plan[k])
  {
    renamed := false;
    if plan[k].source == plan[k].target {
      return None, false;
    }
    var identity := Identity(context, plan[k].source, plan[k].target, plan[k].source);
    ghost var before := disk.entries;
    var result, moved, _ := disk.RenameWithoutOverwrite(identity, plan[k].source, plan[k].target);
    renamed := moved;
    if files && renamed {
      assert Hop(disk, context, before, disk.entries, plan[k]);
      HopIsStep(disk, context, before, disk.entries, plan[k]);
      RecordHop(disk, context, start, before, disk.entries, plan, records, states, plan[k]);
    }
    if result.Err? {
      return Some(result.error), renamed;
    }
    var check := disk.InterruptCheck();
    failure := if check.Err? then Some(check.error) else None;
  }

  lemma OneFurther(disk: Disk, context: RenameContext, start: Entries, before: Entries, plan: seq<Rename>, k: nat)
    requires k < |plan| && before == Sequential(disk, start, plan[..k]) && Ran(disk, context, start, plan[..k])
    requires Passed(disk, context, before, plan[k])
    ensures Sequential(disk, start, plan[..k + 1]) == Step(disk, before, plan[k]) && Ran(disk, context, start, plan[..k + 1])
  {
    var longer := plan[..k + 1];
    assert longer[..k] == plan[..k];
    forall i | 0 <= i <= k ensures PassedAt(disk, context, start, longer, i) {
      if i < k {
        assert longer[..i] == plan[..k][..i];
        assert PassedAt(disk, context, start, plan[..k], i);
      }
    }
  }

  // Success is the sequential composition of the renames. After a failure or a
  // signal the disk is as it was, unless undoing met failures of its own.
  method ApplyNormalization(disk: Disk, context: RenameContext, plan: seq<Rename>)
    returns (r: Result<map<LocalPath, LocalPath>, AppError>, ghost undoing: nat)
    requires disk.Valid()
    modifies disk
    ensures disk.Progress()
    ensures disk.Quiet() && FilesPlanned(disk, old(disk.entries), plan) ==>
      && (r.Ok? ==> disk.entries == Sequential(disk, old(disk.entries), plan) && Ran(disk, context, old(disk.entries), plan))
      && (r.Err? && !NeedsRecovery(r.error) ==> disk.entries == old(disk.entries))
      && (r.Err? && WorksFrom(disk, undoing) ==> disk.entries == old(disk.entries) && !r.error.Rollback?)
      && (old(disk.Calm()) && Runnable(disk, context, old(disk.entries), plan) ==> r.Ok?)
    ensures r.Ok? ==> forall rename :: rename in plan ==> rename.source in r.value
    ensures old(disk.clock) <= undoing <= disk.clock
  {
    var failure, records, names;
    ghost var states;
    ghost var files := disk.Quiet() && FilesPlanned(disk, disk.entries, plan);
    failure, records, states, names := ApplyAll(disk, context, plan, files);
    undoing := disk.clock;
    if failure.Some? {
      var errors := Rollback(disk, context, records, states, files);
      r := Err(WithRollback(failure.value, errors));
    } else {
      r := Ok(names);
    }
  }

  // The renames up to the first failure, with a record of those carried out.
  method ApplyAll(disk: Disk, context: RenameContext, plan: seq<Rename>, ghost files: bool)
    returns (failure: Option<AppError>, records: seq<Rename>, ghost states: seq<Entries>, names: map<LocalPath, LocalPath>)
    requires disk.Valid() && (files ==> disk.Quiet() && FilesPlanned(disk, disk.entries, plan))
    modifies disk
    ensures disk.Progress()
    ensures failure.Some? ==> !failure.value.Rollback?
    ensures files ==> OnRecord(disk, context, old(disk.entries), disk.entries, plan, records, states)
    ensures files && failure.None? ==>
      disk.entries == Sequential(disk, old(disk.entries), plan) && Ran(disk, context, old(disk.entries), plan)
    ensures files && old(disk.Calm()) && Runnable(disk, context, old(disk.entries), plan) ==> failure.None?
    ensures failure.None? ==> forall rename :: rename in plan ==> rename.source in names
  {
    records, states, names := [], [disk.entries], map[];
    for k := 0 to |plan|
      invariant disk.Progress()
      invariant files ==> OnRecord(disk, context, old(disk.entries), disk.entries, plan, records, states)
      invariant files ==> disk.entries == Sequential(disk, old(disk.entries), plan[..k]) && Ran(disk, context, old(disk.entries), plan[..k])
      invariant forall rename :: rename in plan[..k] ==> rename.source in names
    {
      ghost var before := disk.entries;
      var renamed;
      failure, renamed := ApplyOne(disk, context, plan, k, files, old(disk.entries), records, states);
      if renamed {
        records := records + [plan[k]];
        states := states + [disk.entries];
      }
      if failure.Some? {
        return;
      }
      names := names[plan[k].source := plan[k].target];
      if files { OneFurther(disk, context, old(disk.entries), before, plan, k); }
      assert plan[..k + 1] == plan[..k] + [plan[k]];
    }
    assert plan[..|plan|] == plan;
    failure := None;
  }

  ghost predicate WorksFrom(disk: Disk, start: nat) {
    forall i :: start <= i ==> disk.turns(i).failure.None?
  }

  // ---------------------------------------------------------- undo in any order

  // src/upload.rs:69-93 undoes the renames in the order of an unordered map. That
  // is sound for plans whose sources and targets do not touch each other.
  datatype Pair = Pair(from: Slot, to: Slot)

  predicate Touched(pairs: set<Pair>, p: Slot) {
    exists pair :: pair in pairs && (pair.from == p || pair.to == p)
  }

  // All renames at once: the meaning that no order can change.
  ghost predicate Simultaneous(before: Entries, after: Entries, pairs: set<Pair>) {
    && (forall pair :: pair in pairs ==>
          pair.from in before && pair.from !in after && pair.to in after && after[pair.to] == before[pair.from])
    && (forall p :: !Touched(pairs, p) ==> (p in after <==> p in before) && (p in after ==> after[p] == before[p]))
  }

  lemma SimultaneousIsUnique(before: Entries, a: Entries, b: Entries, pairs: set<Pair>)
    requires Simultaneous(before, a, pairs) && Simultaneous(before, b, pairs)
    ensures a == b
  {
    forall p ensures (p in a <==> p in b) && (p in a ==> a[p] == b[p]) {
      if Touched(pairs, p) {
        var pair :| pair in pairs && (pair.from == p || pair.to == p);
      }
    }
  }

  lemma OneMore(before: Entries, at: Entries, pairs: set<Pair>, pair: Pair) returns (next: Entries)
    requires Simultaneous(before, at, pairs) && pair.from in before && pair.to !in before
    requires !Touched(pairs, pair.from) && !Touched(pairs, pair.to)
    ensures MovesEntry(at, next, pair.from, pair.to) && at[pair.from] == before[pair.from]
    ensures Simultaneous(before, next, pairs + {pair})
  {
    next := (at - {pair.from})[pair.to := at[pair.from]];
    forall p | !Touched(pairs + {pair}, p) ensures (p in next <==> p in before) && (p in next ==> next[p] == before[p]) {
      assert pair in pairs + {pair} && p != pair.from && p != pair.to;
      forall other | other in pairs ensures other.from != p && other.to != p {
        assert other in pairs + {pair};
      }
    }
    forall other | other in pairs ensures other.from !in next && other.to in next && next[other.to] == before[other.from] {
      assert other.to != pair.from && other.from != pair.to && other.to != pair.to;
    }
  }

  // Every rename that has something to do is possible from the start, and no two
  // of them share a slot.
  ghost predicate Detached(disk: Disk, context: RenameContext, at: Entries, plan: seq<Rename>) {
    && (forall rename :: rename in plan ==> Possible(disk, context, at, rename))
    && (forall i, j :: 0 <= i < j < |plan| ==> Separate(disk, at, plan[i], plan[j]))
  }

  ghost predicate Possible(disk: Disk, context: RenameContext, at: Entries, rename: Rename) {
    !Idle(disk, at, rename) ==>
      && disk.Renamable(at, Identity(context, rename.source, rename.target, rename.source), rename.source, rename.target)
      && disk.kind(at[disk.Locate(at, rename.source).value]) != Directory
  }

  ghost predicate Separate(disk: Disk, at: Entries, a: Rename, b: Rename) {
    !Idle(disk, at, a) && !Idle(disk, at, b) ==>
      disk.Locate(at, a.source) != disk.Locate(at, b.source) && disk.Locate(at, a.target) != disk.Locate(at, b.target)
  }

  function PairOf(disk: Disk, at: Entries, rename: Rename): Pair
    requires disk.Locate(at, rename.source).Some? && disk.Locate(at, rename.target).Some?
  {
    Pair(disk.Locate(at, rename.source).value, disk.Locate(at, rename.target).value)
  }

  ghost function Pairs(disk: Disk, context: RenameContext, at: Entries, plan: seq<Rename>): set<Pair>
    requires Detached(disk, context, at, plan)
  {
    set rename | rename in plan && !Idle(disk, at, rename) :: PairOf(disk, at, rename)
  }

  // Carried out in any order, detached renames add up to the simultaneous one.
  lemma {:induction false} DetachedTrace(disk: Disk, context: RenameContext, start: Entries, plan: seq<Rename>)
    returns (states: seq<Entries>)
    requires Detached(disk, context, start, plan)
    ensures Trace(disk, context, states, plan) && states[0] == start
    ensures NoneMerged(disk, start, plan) ==> AllMove(disk, states, plan)
    ensures states[|plan|] == Sequential(disk, start, plan)
    ensures Simultaneous(start, states[|plan|], Pairs(disk, context, start, plan))
    ensures forall path :: disk.Locate(states[|plan|], path) == disk.Locate(start, path)
  {
    if plan == [] {
      states := [start];
      assert Pairs(disk, context, start, plan) == {};
    } else {
      var last := |plan| - 1;
      states := DetachedTrace(disk, context, start, plan[..last]);
      var next := DetachedLeg(disk, context, start, states[last], plan);
      TraceOneMore(disk, context, states, plan, next);
      states := states + [next];
    }
  }

  // The directories tell all old names from the new ones.
  ghost predicate NoneMerged(disk: Disk, at: Entries, plan: seq<Rename>) {
    forall k :: 0 <= k < |plan| ==> !OneEntry(disk, at, plan[k])
  }

  lemma TraceOneMore(disk: Disk, context: RenameContext, states: seq<Entries>, plan: seq<Rename>, next: Entries)
    requires plan != [] && Trace(disk, context, states, plan[..|plan| - 1])
    requires Leg(disk, context, states[|plan| - 1], next, plan[|plan| - 1])
    ensures Trace(disk, context, states + [next], plan)
    ensures AllMove(disk, states, plan[..|plan| - 1]) && !OneEntry(disk, states[|plan| - 1], plan[|plan| - 1]) ==>
      AllMove(disk, states + [next], plan)
  {
    var more := states + [next];
    forall k | 0 <= k < |plan| ensures Leg(disk, context, more[k], more[k + 1], plan[k]) {
      if k < |plan| - 1 { assert plan[..|plan| - 1][k] == plan[k]; }
    }
    if AllMove(disk, states, plan[..|plan| - 1]) && !OneEntry(disk, states[|plan| - 1], plan[|plan| - 1]) {
      forall k | 0 <= k < |plan| ensures !OneEntry(disk, more[k], plan[k]) {
        if k < |plan| - 1 { assert plan[..|plan| - 1][k] == plan[k]; }
      }
    }
  }

  // The last rename neither meets nor disturbs the earlier ones.
  lemma DetachedLeg(disk: Disk, context: RenameContext, start: Entries, at: Entries, plan: seq<Rename>) returns (next: Entries)
    requires plan != [] && Detached(disk, context, start, plan)
    requires Simultaneous(start, at, Pairs(disk, context, start, plan[..|plan| - 1]))
    requires forall path :: disk.Locate(at, path) == disk.Locate(start, path)
    ensures Leg(disk, context, at, next, plan[|plan| - 1]) && next == Step(disk, at, plan[|plan| - 1])
    ensures Simultaneous(start, next, Pairs(disk, context, start, plan))
    ensures forall path :: disk.Locate(next, path) == disk.Locate(start, path)
  {
    var rename, earlier := plan[|plan| - 1], plan[..|plan| - 1];
    assert plan == earlier + [rename];
    assert Possible(disk, context, start, rename);
    var pairs := Pairs(disk, context, start, earlier);
    if Idle(disk, start, rename) {
      next := at;
      assert Pairs(disk, context, start, plan) == pairs;
    } else {
      var pair := PairOf(disk, start, rename);
      PairsApart(disk, context, start, plan);
      next := OneMore(start, at, pairs, pair);
      assert Pairs(disk, context, start, plan) == pairs + {pair};
      forall path ensures disk.Locate(next, path) == disk.Locate(start, path) {
        HopKeepsPlaces(disk, context, at, next, rename, path);
      }
    }
  }

  lemma PairsApart(disk: Disk, context: RenameContext, start: Entries, plan: seq<Rename>)
    requires plan != [] && Detached(disk, context, start, plan) && !Idle(disk, start, plan[|plan| - 1])
    ensures var rename, earlier := plan[|plan| - 1], plan[..|plan| - 1];
      Possible(disk, context, start, rename) &&
      var pair, pairs := PairOf(disk, start, rename), Pairs(disk, context, start, earlier);
      !Touched(pairs, pair.from) && !Touched(pairs, pair.to) && !Touched(pairs, disk.rootSlot)
  {
    var rename, earlier := plan[|plan| - 1], plan[..|plan| - 1];
    assert Possible(disk, context, start, rename);
    var pair, pairs := PairOf(disk, start, rename), Pairs(disk, context, start, earlier);
    forall r | r in earlier && !Idle(disk, start, r)
      ensures Possible(disk, context, start, r)
      ensures var other := PairOf(disk, start, r);
        && other.from != pair.from && other.to != pair.to && other.from != pair.to && other.to != pair.from
        && other.from != disk.rootSlot && other.to != disk.rootSlot
    {
      var i :| 0 <= i < |earlier| && earlier[i] == r;
      assert plan[i] == r;
      assert Possible(disk, context, start, plan[i]) && Separate(disk, start, plan[i], rename);
    }
  }

  lemma DetachedOneMore(disk: Disk, context: RenameContext, at: Entries, plan: seq<Rename>, k: nat)
    requires k < |plan| && Detached(disk, context, at, plan[..k]) && Possible(disk, context, at, plan[k])
    requires forall i :: 0 <= i < k ==> Separate(disk, at, plan[i], plan[k])
    ensures Detached(disk, context, at, plan[..k + 1])
  {
    var longer := plan[..k + 1];
    assert longer == plan[..k] + [plan[k]];
    forall i, j | 0 <= i < j < |longer| ensures Separate(disk, at, longer[i], longer[j]) {
      if j < k { assert Separate(disk, at, plan[..k][i], plan[..k][j]); }
    }
  }

  lemma RootUntouched(disk: Disk, context: RenameContext, start: Entries, plan: seq<Rename>)
    requires Detached(disk, context, start, plan)
    ensures !Touched(Pairs(disk, context, start, plan), disk.rootSlot)
  {
    forall r | r in plan && !Idle(disk, start, r)
      ensures PairOf(disk, start, r).from != disk.rootSlot && PairOf(disk, start, r).to != disk.rootSlot
    {
      assert Possible(disk, context, start, r);
    }
  }

  // No rename of the plan leaves or takes a spelling of the given name.
  ghost predicate Undisturbed(disk: Disk, at: Entries, plan: seq<Rename>, directory: nat, normalized: string) {
    forall r :: r in plan && !Idle(disk, at, r) && disk.Locate(at, r.source).Some? && disk.Locate(at, r.target).Some? ==>
      !Spells(disk, PairOf(disk, at, r).from, directory, normalized) && !Spells(disk, PairOf(disk, at, r).to, directory, normalized)
  }

  predicate Spells(disk: Disk, slot: Slot, directory: nat, normalized: string) {
    slot.directory == directory && disk.nfc(slot.key) == normalized
  }

  lemma SpellingsStay(disk: Disk, context: RenameContext, start: Entries, at: Entries, plan: seq<Rename>,
                      directory: nat, normalized: string)
    requires Detached(disk, context, start, plan) && Simultaneous(start, at, Pairs(disk, context, start, plan))
    requires Undisturbed(disk, start, plan, directory, normalized)
    ensures Spellings(at, disk.nfc, directory, normalized) == Spellings(start, disk.nfc, directory, normalized)
    ensures forall s :: Spells(disk, s, directory, normalized) ==> !Touched(Pairs(disk, context, start, plan), s)
  {
    var pairs := Pairs(disk, context, start, plan);
    forall s | Spells(disk, s, directory, normalized) ensures !Touched(pairs, s) {
      forall r | r in plan && !Idle(disk, start, r) ensures PairOf(disk, start, r).from != s && PairOf(disk, start, r).to != s {
        assert Possible(disk, context, start, r);
      }
    }
    forall s ensures s in Spellings(at, disk.nfc, directory, normalized) <==> s in Spellings(start, disk.nfc, directory, normalized) {
      if Spells(disk, s, directory, normalized) { assert !Touched(pairs, s); }
    }
  }

  // An entry that is one with its target stays so while others are renamed.
  lemma MergedStays(disk: Disk, context: RenameContext, start: Entries, at: Entries, plan: seq<Rename>, rename: Rename)
    requires disk.Valid() && Merges(disk, context, start, rename)
    requires Detached(disk, context, start, plan) && Simultaneous(start, at, Pairs(disk, context, start, plan))
    requires forall path :: disk.Locate(at, path) == disk.Locate(start, path)
    requires Undisturbed(disk, start, plan, disk.Locate(start, rename.target).value.directory, disk.nfc(FileName(rename.target)))
    ensures Merges(disk, context, at, rename)
  {
    var slot, name := disk.Locate(start, rename.target).value, FileName(rename.target);
    SpellingsStay(disk, context, start, at, plan, slot.directory, disk.nfc(name));
    assert disk.nfc(disk.fold(name)) == disk.nfc(name);
    assert Spells(disk, slot, slot.directory, disk.nfc(name));
    RootUntouched(disk, context, start, plan);
    assert disk.Locate(at, rename.source) == disk.Locate(start, rename.source);
    assert disk.Locate(at, rename.target) == disk.Locate(start, rename.target);
  }

  // The merged entries of a plan are listed under one spelling, which no other
  // entry of the plan takes or leaves.
  ghost predicate Settled(disk: Disk, context: RenameContext, at: Entries, plan: seq<Rename>) {
    forall rename :: rename in plan && rename.source != rename.target && OneEntry(disk, at, rename) ==>
      Merges(disk, context, at, rename)
      && Undisturbed(disk, at, plan, disk.Locate(at, rename.target).value.directory, disk.nfc(FileName(rename.target)))
  }

  // Detached renames can be carried out one after the other.
  lemma DetachedIsRunnable(disk: Disk, context: RenameContext, start: Entries, plan: seq<Rename>)
    requires disk.Valid() && Detached(disk, context, start, plan) && Settled(disk, context, start, plan)
    ensures Runnable(disk, context, start, plan)
  {
    forall k | 0 <= k < |plan| ensures Ready(disk, context, Sequential(disk, start, plan[..k]), plan[k]) {
      var states := DetachedTrace(disk, context, start, plan[..k]);
      ReadyInTurn(disk, context, start, states[k], plan, k);
    }
  }

  lemma ReadyInTurn(disk: Disk, context: RenameContext, start: Entries, at: Entries, plan: seq<Rename>, k: nat)
    requires k < |plan| && disk.Valid() && Detached(disk, context, start, plan) && Settled(disk, context, start, plan)
    requires Simultaneous(start, at, Pairs(disk, context, start, plan[..k]))
    requires forall path :: disk.Locate(at, path) == disk.Locate(start, path)
    ensures Ready(disk, context, at, plan[k])
  {
    if plan[k].source != plan[k].target && OneEntry(disk, start, plan[k]) {
      assert Merges(disk, context, start, plan[k]);
      MergedStays(disk, context, start, at, plan[..k], plan[k]);
    } else {
      var next := DetachedNext(disk, context, start, at, plan, k);
    }
  }

  lemma DetachedNext(disk: Disk, context: RenameContext, start: Entries, at: Entries, plan: seq<Rename>, k: nat)
    returns (next: Entries)
    requires k < |plan| && Detached(disk, context, start, plan)
    requires Simultaneous(start, at, Pairs(disk, context, start, plan[..k]))
    requires forall path :: disk.Locate(at, path) == disk.Locate(start, path)
    ensures Leg(disk, context, at, next, plan[k])
  {
    assert plan[..k + 1][..k] == plan[..k];
    next := DetachedLeg(disk, context, start, at, plan[..k + 1]);
  }

  // The entries of a map in whatever order they come.
  ghost predicate Shuffled(plan: seq<Rename>, shuffled: seq<Rename>) {
    && (forall rename :: rename in plan <==> rename in shuffled)
    && (forall i, j :: 0 <= i < j < |shuffled| ==> shuffled[i] != shuffled[j])
  }

  lemma DetachedHoweverShuffled(disk: Disk, context: RenameContext, at: Entries, plan: seq<Rename>, shuffled: seq<Rename>)
    requires Detached(disk, context, at, plan) && Shuffled(plan, shuffled)
    ensures Detached(disk, context, at, shuffled)
    ensures Sequential(disk, at, shuffled) == Sequential(disk, at, plan)
    ensures NoneMerged(disk, at, plan) ==> NoneMerged(disk, at, shuffled)
  {
    if NoneMerged(disk, at, plan) { NoneMergedHoweverShuffled(disk, at, plan, shuffled); }
    forall i, j | 0 <= i < j < |shuffled| ensures Separate(disk, at, shuffled[i], shuffled[j]) {
      assert shuffled[i] in plan && shuffled[j] in plan;
      var a :| 0 <= a < |plan| && plan[a] == shuffled[i];
      var b :| 0 <= b < |plan| && plan[b] == shuffled[j];
      assert if a < b then Separate(disk, at, plan[a], plan[b]) else Separate(disk, at, plan[b], plan[a]);
    }
    var s := DetachedTrace(disk, context, at, plan);
    var t := DetachedTrace(disk, context, at, shuffled);
    assert Pairs(disk, context, at, plan) == Pairs(disk, context, at, shuffled);
    SimultaneousIsUnique(at, s[|plan|], t[|shuffled|], Pairs(disk, context, at, plan));
  }

  lemma NoneMergedHoweverShuffled(disk: Disk, at: Entries, plan: seq<Rename>, shuffled: seq<Rename>)
    requires NoneMerged(disk, at, plan) && Shuffled(plan, shuffled)
    ensures NoneMerged(disk, at, shuffled)
  {
    forall k | 0 <= k < |shuffled| ensures !OneEntry(disk, at, shuffled[k]) {
      assert shuffled[k] in plan;
    }
  }

  // So undoing an applied plan in any order brings everything back.
  method RollbackInAnyOrder(disk: Disk, context: RenameContext, ghost plan: seq<Rename>, shuffled: seq<Rename>, ghost start: Entries)
    returns (errors: seq<AppError>)
    requires disk.Valid() && Shuffled(plan, shuffled)
    modifies disk
    ensures disk.Progress()
    ensures disk.Quiet() && Detached(disk, context, start, plan) && old(disk.entries) == Sequential(disk, start, plan) ==>
      (errors == [] ==> disk.entries == start) && (NoneMerged(disk, start, plan) && old(disk.Working()) ==> errors == [])
  {
    ghost var tracked := disk.Quiet() && Detached(disk, context, start, plan) && disk.entries == Sequential(disk, start, plan);
    ghost var states: seq<Entries> := [];
    if tracked {
      DetachedHoweverShuffled(disk, context, start, plan, shuffled);
      states := DetachedTrace(disk, context, start, shuffled);
    }
    errors := Rollback(disk, context, shuffled, states, tracked);
  }
}
