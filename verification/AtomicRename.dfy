// src/atomic_rename.rs: one rename as a sequence of checks and a single
// exclusive system call, on a disk that others may change between any two steps.
module AtomicRename {
  import opened Wrappers
  import opened Errors

  datatype Kind = Directory | RegularFile | OtherKind

  // A name as its directory distinguishes it. A file system that folds Unicode
  // spellings gives several names the same key.
  datatype Slot = Slot(directory: nat, key: string)
  type Entries = map<Slot, nat>

  datatype Component = CurDir | Normal(name: string) | Unsupported
  datatype LocalPath = LocalPath(underRoot: bool, components: seq<Component>)

  // Captured inodes; what is not captured is not checked.
  datatype RenameIdentity = RenameIdentity(
    root: Option<nat>, file: Option<nat>, sourceParent: Option<nat>, targetParent: Option<nat>)

  // What the outside decides at one step: changes by others, a failing system
  // call, a signal.
  datatype DiskTurn = DiskTurn(foreign: map<Slot, Option<nat>>, failure: Option<IoKind>, signal: bool)

  datatype Author = Others | This(from: Slot, to: Slot)
  datatype DiskEvent = DiskEvent(author: Author, before: Entries, after: Entries)

  predicate MovesEntry(before: Entries, after: Entries, from: Slot, to: Slot) {
    from in before && to !in before && after == (before - {from})[to := before[from]]
  }

  predicate Mismatch(expected: Option<nat>, actual: nat) {
    expected.Some? && expected.value != actual
  }

  // ------------------------------------------------------------------- paths

  function Names(components: seq<Component>): seq<string> {
    if components == [] then []
    else
      Names(components[..|components| - 1]) +
      (match components[|components| - 1] case Normal(name) => [name] case _ => [])
  }

  predicate WellFormed(path: LocalPath) {
    path.underRoot && Unsupported !in path.components && Names(path.components) != []
  }

  function Parents(path: LocalPath): seq<string>
    requires WellFormed(path)
  {
    var names := Names(path.components);
    names[..|names| - 1]
  }

  function FileName(path: LocalPath): string
    requires WellFormed(path)
  {
    var names := Names(path.components);
    names[|names| - 1]
  }

  method SplitPath(path: LocalPath) returns (r: Result<(seq<string>, string), AppError>)
    ensures r.Ok? <==> WellFormed(path)
    ensures r.Ok? ==> r.value == (Parents(path), FileName(path))
    ensures r.Err? ==> r.error == Message
  {
    if !path.underRoot {
      return Err(Message);
    }
    var parents: seq<string>, name: Option<string> := [], None;
    for i := 0 to |path.components|
      invariant Unsupported !in path.components[..i]
      invariant Names(path.components[..i]) == parents + (if name.Some? then [name.value] else [])
      invariant name.None? ==> parents == []
    {
      assert path.components[..i + 1][..i] == path.components[..i];
      match path.components[i]
      case CurDir =>
      case Unsupported =>
        return Err(Message);
      case Normal(component) =>
        if name.Some? {
          parents := parents + [name.value];
        }
        name := Some(component);
    }
    assert path.components[..|path.components|] == path.components;
    if name.None? {
      return Err(Message);
    }
    r := Ok((parents, name.value));
  }

  // Walking directories from an open one. Links are not followed.
  function Resolve(entries: Entries, kind: nat -> Kind, fold: string -> string, start: nat, names: seq<string>): Option<nat> {
    if names == [] then Some(start)
    else
      var parent := Resolve(entries, kind, fold, start, names[..|names| - 1]);
      if parent.None? then None
      else
        var slot := Slot(parent.value, fold(names[|names| - 1]));
        if slot in entries && kind(entries[slot]) == Directory then Some(entries[slot]) else None
  }

  // Moving something that is not a directory changes no walk.
  lemma {:induction false} FilesDoNotRedirect(before: Entries, after: Entries, from: Slot, to: Slot,
                                              kind: nat -> Kind, fold: string -> string, start: nat, names: seq<string>)
    requires MovesEntry(before, after, from, to) && kind(before[from]) != Directory
    ensures Resolve(after, kind, fold, start, names) == Resolve(before, kind, fold, start, names)
  {
    if names != [] {
      FilesDoNotRedirect(before, after, from, to, kind, fold, start, names[..|names| - 1]);
    }
  }

  // The directory entries that normalize to a name.
  function Spellings(entries: Entries, nfc: string -> string, directory: nat, normalized: string): set<Slot> {
    set s | s in entries && s.directory == directory && nfc(s.key) == normalized
  }

  lemma OneSpelling(slots: set<Slot>, a: Slot, b: Slot)
    requires |slots| == 1 && a in slots && b in slots
    ensures a == b
  {
    var rest := slots - {a};
    assert |rest| == 0;
    assert b !in rest;
  }

  // The events lead to the present state, and this run's own ones overwrite
  // nothing.
  ghost predicate Recorded(log: seq<DiskEvent>, entries: Entries) {
    && (log != [] ==> log[|log| - 1].after == entries)
    && (forall i :: 0 < i < |log| ==> log[i].before == log[i - 1].after)
    && (forall i :: 0 <= i < |log| && log[i].author.This? ==>
          MovesEntry(log[i].before, log[i].after, log[i].author.from, log[i].author.to))
  }

  lemma RecordedOneMore(log: seq<DiskEvent>, e: DiskEvent)
    requires Recorded(log, e.before)
    requires e.author.This? ==> MovesEntry(e.before, e.after, e.author.from, e.author.to)
    ensures Recorded(log + [e], e.after)
    ensures OwnCount(log + [e]) == OwnCount(log) + if e.author.This? then 1 else 0
  {
    assert (log + [e])[..|log|] == log;
  }

  class Disk {
    const turns: nat -> DiskTurn
    const kind: nat -> Kind
    const fold: string -> string
    const nfc: string -> string
    const rootSlot: Slot
    var entries: Entries
    var clock: nat
    var interrupted: bool
    ghost var log: seq<DiskEvent>

    constructor (turns: nat -> DiskTurn, kind: nat -> Kind, fold: string -> string, nfc: string -> string,
                 rootSlot: Slot, entries: Entries)
      requires forall x {:trigger fold(x)} :: nfc(fold(x)) == nfc(x)
      ensures Valid() && this.entries == entries && log == [] && clock == 0 && !interrupted
      ensures this.turns == turns && this.kind == kind && this.fold == fold && this.nfc == nfc && this.rootSlot == rootSlot
    {
      this.turns, this.kind, this.fold, this.nfc, this.rootSlot := turns, kind, fold, nfc, rootSlot;
      this.entries, clock, interrupted, log := entries, 0, false, [];
    }

    // Every change of the run is on record, and its own ones overwrite nothing.
    ghost predicate Valid()
      reads this
    {
      && (forall x {:trigger fold(x)} :: nfc(fold(x)) == nfc(x))
      && Recorded(log, entries)
    }

    // Nobody else changes the disk.
    ghost predicate Quiet() {
      forall i :: turns(i).foreign == map[]
    }

    // System calls do not fail of themselves from here on.
    ghost predicate Working()
      reads this
    {
      forall i :: clock <= i ==> turns(i).failure.None?
    }

    // Neither do signals arrive.
    ghost predicate Calm()
      reads this
    {
      Working() && !interrupted && forall i :: clock <= i ==> !turns(i).signal
    }

    twostate predicate Progress()
      reads this
    {
      && Valid() && old(clock) <= clock && old(log) <= log && (old(interrupted) ==> interrupted)
      && (old(Calm()) ==> Calm())
    }

    // How many renames this run has carried out.
    ghost function Renames(): nat
      reads this
    {
      OwnCount(log)
    }

    function Locate(at: Entries, path: LocalPath): Option<Slot>
    {
      if !WellFormed(path) || rootSlot !in at || kind(at[rootSlot]) != Directory then None
      else
        match Resolve(at, kind, fold, at[rootSlot], Parents(path))
        case None => None
        case Some(directory) => Some(Slot(directory, fold(FileName(path))))
    }

    method Syscall() returns (failure: Option<IoKind>)
      requires Valid()
      modifies this
      ensures Progress() && Renames() == old(Renames()) && clock == old(clock) + 1
      ensures failure == turns(old(clock)).failure
      ensures Quiet() ==> entries == old(entries)
    {
      var turn := turns(clock);
      if turn.foreign != map[] {
        ghost var e := DiskEvent(Others, entries, Interfered(entries, turn.foreign));
        RecordedOneMore(log, e);
        entries := Interfered(entries, turn.foreign);
        log := log + [e];
      }
      clock := clock + 1;
      interrupted := interrupted || turn.signal;
      failure := turn.failure;
    }

    method InterruptCheck() returns (r: Result<(), AppError>)
      requires Valid()
      modifies this
      ensures Progress() && entries == old(entries) && log == old(log)
      ensures r.Err? ==> r.error == Interrupted
      ensures old(Calm()) ==> r.Ok?
    {
      interrupted := interrupted || turns(clock).signal;
      clock := clock + 1;
      r := if interrupted then Err(Interrupted) else Ok(());
    }

    method OpenRoot() returns (r: Result<nat, AppError>)
      requires Valid()
      modifies this
      ensures Looked() && clock == old(clock) + 1
      ensures r.Err? ==> r.error.Io?
      ensures Quiet() && r.Ok? ==> rootSlot in entries && kind(entries[rootSlot]) == Directory && r.value == entries[rootSlot]
      ensures Quiet() && old(Working()) && rootSlot in entries && kind(entries[rootSlot]) == Directory ==> r.Ok?
    {
      var failure := Syscall();
      if failure.Some? {
        return Err(Io(failure.value));
      }
      if rootSlot !in entries {
        return Err(Io(NotFound));
      }
      r := if kind(entries[rootSlot]) == Directory then Ok(entries[rootSlot]) else Err(Io(OtherIo));
    }

    method OpenDirectoryAt(directory: nat, name: string) returns (r: Result<nat, AppError>)
      requires Valid()
      modifies this
      ensures Looked() && clock == old(clock) + 1
      ensures r.Err? ==> r.error.Io?
      ensures Quiet() && r.Ok? ==>
        var slot := Slot(directory, fold(name)); slot in entries && kind(entries[slot]) == Directory && r.value == entries[slot]
      ensures Quiet() && old(Working()) ==>
        var slot := Slot(directory, fold(name)); slot in entries && kind(entries[slot]) == Directory ==> r.Ok?
    {
      var slot := Slot(directory, fold(name));
      var failure := Syscall();
      if failure.Some? {
        return Err(Io(failure.value));
      }
      if slot !in entries {
        return Err(Io(NotFound));
      }
      r := if kind(entries[slot]) == Directory then Ok(entries[slot]) else Err(Io(OtherIo));
    }

    // Steps that look without changing anything.
    twostate predicate Looked()
      reads this
    {
      Progress() && Renames() == old(Renames()) && (Quiet() ==> entries == old(entries))
    }

    // The directory that holds the last name of a path, and that name.
    method RelativeParent(root: nat, path: LocalPath) returns (r: Result<(nat, string), AppError>)
      requires Valid()
      modifies this
      ensures Looked()
      ensures r.Err? ==> r.error.Io? || r.error.Message?
      ensures r.Ok? ==> WellFormed(path) && r.value.1 == FileName(path)
      ensures Quiet() && r.Ok? ==> Resolve(entries, kind, fold, root, Parents(path)) == Some(r.value.0)
      ensures Quiet() && old(Working()) && WellFormed(path) && Resolve(entries, kind, fold, root, Parents(path)).Some? ==> r.Ok?
    {
      var split := SplitPath(path);
      if split.Err? {
        return Err(split.error);
      }
      var (parents, name) := split.value;
      var directory := root;
      for i := 0 to |parents|
        invariant Looked()
        invariant Quiet() ==> Resolve(entries, kind, fold, root, parents[..i]) == Some(directory)
      {
        assert parents[..i + 1][..i] == parents[..i];
        assert parents[..i + 1][i] == parents[i];
        var next := OpenDirectoryAt(directory, parents[i]);
        if next.Err? {
          if Quiet() && old(Working()) { ResolvePrefix(entries, kind, fold, root, parents, i + 1); }
          return Err(next.error);
        }
        directory := next.value;
      }
      assert parents[..|parents|] == parents;
      r := Ok((directory, name));
    }

    // The inode behind a name, which must be a regular file.
    method FileIdentityAt(directory: nat, name: string) returns (r: Result<nat, AppError>)
      requires Valid()
      modifies this
      ensures Looked() && clock == old(clock) + 1
      ensures r.Err? ==> r.error.Io?
      ensures r.Ok? ==> var slot := Slot(directory, fold(name));
        slot in entries && kind(entries[slot]) == RegularFile && r.value == entries[slot]
      ensures Quiet() && old(Working()) ==>
        var slot := Slot(directory, fold(name)); slot in entries && kind(entries[slot]) == RegularFile ==> r.Ok?
    {
      var slot := Slot(directory, fold(name));
      var failure := Syscall();
      if failure.Some? {
        return Err(Io(failure.value));
      }
      if slot !in entries {
        return Err(Io(NotFound));
      }
      r := if kind(entries[slot]) == RegularFile then Ok(entries[slot]) else Err(Io(OtherIo));
    }

    method EntryMetadata(directory: nat, name: string) returns (r: Result<Option<nat>, AppError>)
      requires Valid()
      modifies this
      ensures Looked() && clock == old(clock) + 1
      ensures r.Err? ==> r.error.Io?
      ensures r.Ok? && r.value.Some? ==> var slot := Slot(directory, fold(name)); slot in entries && entries[slot] == r.value.value
      ensures old(Working()) ==> r.Ok? && (r.value.None? ==> Slot(directory, fold(name)) !in entries)
    {
      var slot := Slot(directory, fold(name));
      var failure := Syscall();
      if failure.Some? {
        return if failure.value == NotFound then Ok(None) else Err(Io(failure.value));
      }
      r := Ok(if slot in entries then Some(entries[slot]) else None);
    }

    method EquivalentNameCount(directory: nat, normalized: string) returns (r: Result<nat, AppError>)
      requires Valid()
      modifies this
      ensures Looked() && clock == old(clock) + 1
      ensures r.Err? ==> r.error.Io?
      ensures r.Ok? ==> r.value == |Spellings(entries, nfc, directory, normalized)|
      ensures old(Working()) ==> r.Ok?
    {
      var failure := Syscall();
      r := if failure.Some? then Err(Io(failure.value)) else Ok(|Spellings(entries, nfc, directory, normalized)|);
    }

    // Whether both names are spellings of one directory entry. Hard links are
    // two entries, and so are not.
    method SamePathEntry(sourceParent: nat, sourceName: string, targetParent: nat, targetName: string)
      returns (r: Result<bool, AppError>)
      requires Valid()
      modifies this
      ensures Looked()
      ensures r.Err? ==> r.error.Io?
      ensures r.Ok? && r.value ==> nfc(sourceName) == nfc(targetName) && sourceParent == targetParent
      ensures r.Ok? && r.value ==> |Spellings(entries, nfc, targetParent, nfc(targetName))| == 1
      ensures Quiet() && r.Ok? && r.value ==>
        Slot(sourceParent, fold(sourceName)) == Slot(targetParent, fold(targetName)) && Slot(sourceParent, fold(sourceName)) in entries
      ensures Quiet() && old(Working()) && Slot(targetParent, fold(targetName)) !in entries ==> r == Ok(false)
      ensures Quiet() && old(Working()) && Slot(targetParent, fold(targetName)) in entries
        && Slot(sourceParent, fold(sourceName)) == Slot(targetParent, fold(targetName))
        ==> r == Ok(|Spellings(entries, nfc, targetParent, nfc(targetName))| == 1)
    {
      assert nfc(fold(sourceName)) == nfc(sourceName) && nfc(fold(targetName)) == nfc(targetName);
      var normalized := nfc(targetName);
      if nfc(sourceName) != normalized || sourceParent != targetParent {
        return Ok(false);
      }
      var source := EntryMetadata(sourceParent, sourceName);
      if source.Err? {
        return Err(source.error);
      }
      var target := EntryMetadata(targetParent, targetName);
      if target.Err? {
        return Err(target.error);
      }
      if source.value.None? || target.value.None? || source.value != target.value {
        return Ok(false);
      }
      var count := EquivalentNameCount(targetParent, normalized);
      if count.Err? {
        return Err(count.error);
      }
      r := Ok(count.value == 1);
      if Quiet() && r.value {
        OneSpelling(Spellings(entries, nfc, targetParent, normalized),
                    Slot(sourceParent, fold(sourceName)), Slot(targetParent, fold(targetName)));
      }
    }

    // The one step that changes the disk: atomic, and never over an entry.
    method RenameNoReplace(from: Slot, to: Slot) returns (r: Result<(), AppError>)
      requires Valid()
      modifies this
      ensures Progress() && clock == old(clock) + 1
      ensures Renames() == old(Renames()) + if r.Ok? then 1 else 0
      ensures r.Err? ==> r.error.Io?
      ensures Quiet() ==> if r.Ok? then MovesEntry(old(entries), entries, from, to) else entries == old(entries)
      ensures Quiet() && old(Working()) && from in old(entries) && to !in old(entries) ==> r.Ok?
    {
      var failure := Syscall();
      if failure.Some? {
        return Err(Io(failure.value));
      }
      if from !in entries {
        return Err(Io(NotFound));
      }
      if to in entries {
        return Err(Io(AlreadyExists));
      }
      Exchange(from, to);
      r := Ok(());
    }

    method Exchange(from: Slot, to: Slot)
      requires Valid() && from in entries && to !in entries
      modifies this`entries, this`log
      ensures Valid() && MovesEntry(old(entries), entries, from, to)
      ensures old(log) <= log && Renames() == old(Renames()) + 1
    {
      ghost var e := DiskEvent(This(from, to), entries, (entries - {from})[to := entries[from]]);
      RecordedOneMore(log, e);
      entries := (entries - {from})[to := entries[from]];
      log := log + [e];
    }
  
    // --------------------------------------------------------- the whole rename

    // The captured inodes are the ones the paths lead to.
    predicate Verified(at: Entries, identity: RenameIdentity, from: Slot, to: Slot)
      requires rootSlot in at
    {
      && !Mismatch(identity.root, at[rootSlot])
      && !Mismatch(identity.sourceParent, from.directory) && !Mismatch(identity.targetParent, to.directory)
      && (identity.file.Some? ==> from in at && kind(at[from]) == RegularFile && at[from] == identity.file.value)
    }

    // Nothing stands in the way of a rename.
    predicate Renamable(at: Entries, identity: RenameIdentity, source: LocalPath, target: LocalPath) {
      && source != target && Locate(at, source).Some? && Locate(at, target).Some?
      && Locate(at, source).value in at && Locate(at, target).value !in at
      && Verified(at, identity, Locate(at, source).value, Locate(at, target).value)
    }

    // Both paths lead to one entry, and the directory lists no other spelling of it.
    predicate Merged(at: Entries, identity: RenameIdentity, source: LocalPath, target: LocalPath) {
      && source != target && Locate(at, source).Some? && Locate(at, source) == Locate(at, target)
      && var slot := Locate(at, source).value;
         && slot in at && Verified(at, identity, slot, slot)
         && |Spellings(at, nfc, slot.directory, nfc(FileName(target)))| == 1
    }

    // The parents of both paths can be opened and are the captured ones.
    predicate Reachable(at: Entries, identity: RenameIdentity, source: LocalPath, target: LocalPath) {
      && Locate(at, source).Some? && Locate(at, target).Some?
      && !Mismatch(identity.root, at[rootSlot])
      && !Mismatch(identity.sourceParent, Locate(at, source).value.directory)
      && !Mismatch(identity.targetParent, Locate(at, target).value.directory)
    }

    method OpenParents(identity: RenameIdentity, source: LocalPath, target: LocalPath)
      returns (r: Result<(nat, string, nat, string), AppError>)
      requires Valid()
      modifies this
      ensures Looked()
      ensures r.Err? ==> r.error.Io? || r.error.Message?
      ensures r.Ok? ==> WellFormed(target) && r.value.3 == FileName(target)
      ensures r.Ok? ==> !Mismatch(identity.sourceParent, r.value.0) && !Mismatch(identity.targetParent, r.value.2)
      ensures Quiet() && r.Ok? ==>
        var (sp, sn, tp, tn) := r.value;
        && Locate(entries, source) == Some(Slot(sp, fold(sn))) && Locate(entries, target) == Some(Slot(tp, fold(tn)))
        && !Mismatch(identity.root, entries[rootSlot])
        && !Mismatch(identity.sourceParent, sp) && !Mismatch(identity.targetParent, tp)
      ensures Quiet() && old(Working()) && Reachable(entries, identity, source, target) ==> r.Ok?
    {
      var root := OpenRoot();
      if root.Err? {
        return Err(root.error);
      }
      if Mismatch(identity.root, root.value) {
        return Err(Message);
      }
      var from := RelativeParent(root.value, source);
      if from.Err? {
        return Err(from.error);
      }
      var to := RelativeParent(root.value, target);
      if to.Err? {
        return Err(to.error);
      }
      if Mismatch(identity.sourceParent, from.value.0) || Mismatch(identity.targetParent, to.value.0) {
        return Err(Message);
      }
      r := Ok((from.value.0, from.value.1, to.value.0, to.value.1));
    }

    // Whatever others do in between: at most one rename of this run, never over
    // an entry, reported in `renamed`; and a success with a captured file means
    // that the last check found that very file under the target name.
    method RenameWithoutOverwrite(identity: RenameIdentity, source: LocalPath, target: LocalPath)
      returns (r: Result<(), AppError>, renamed: bool, ghost parent: nat)
      requires Valid()
      modifies this
      ensures Progress() && Renames() == old(Renames()) + if renamed then 1 else 0
      ensures r.Err? ==> if renamed then r.error == Recovery else r.error.Io? || r.error.Message?
      ensures r.Ok? && renamed && identity.file.Some? ==>
        WellFormed(target) && var slot := Slot(parent, fold(FileName(target)));
        slot in entries && entries[slot] == identity.file.value && kind(entries[slot]) == RegularFile
      ensures renamed && identity.targetParent.Some? ==> parent == identity.targetParent.value
      ensures Quiet() && renamed ==> Locate(old(entries), target).Some? && parent == Locate(old(entries), target).value.directory
      ensures Quiet() && !renamed ==> entries == old(entries)
      ensures Quiet() && renamed ==>
        && Locate(old(entries), source).Some? && Locate(old(entries), target).Some?
        && MovesEntry(old(entries), entries, Locate(old(entries), source).value, Locate(old(entries), target).value)
        && Verified(old(entries), identity, Locate(old(entries), source).value, Locate(old(entries), target).value)
      ensures Quiet() && r.Ok? && !renamed && source != target ==>
        Locate(entries, source).Some? && Locate(entries, source) == Locate(entries, target) && Locate(entries, source).value in entries
      ensures Quiet() && old(Working()) && Renamable(old(entries), identity, source, target) ==> r.Ok? && renamed
      ensures Quiet() && old(Working()) && Merged(old(entries), identity, source, target) ==> r.Ok? && !renamed
    {
      renamed, parent := false, 0;
      if source == target {
        return Ok(()), false, 0;
      }
      var parents := OpenParents(identity, source, target);
      if parents.Err? {
        return Err(parents.error), false, 0;
      }
      var (sourceParent, sourceName, targetParent, targetName) := parents.value;
      parent := targetParent;
      var checked := CheckFile(sourceParent, sourceName, identity.file);
      if checked.Err? {
        return Err(checked.error), false, parent;
      }
      var same := SamePathEntry(sourceParent, sourceName, targetParent, targetName);
      if same.Err? {
        return Err(same.error), false, parent;
      }
      if same.value {
        return Ok(()), false, parent;
      }
      r, renamed := RenameAndVerify(Slot(sourceParent, fold(sourceName)), targetParent, targetName, identity.file);
    }

    // The name must lead to the captured file, if one was captured.
    method CheckFile(directory: nat, name: string, expected: Option<nat>) returns (r: Result<(), AppError>)
      requires Valid()
      modifies this
      ensures Looked()
      ensures r.Err? ==> r.error.Io? || r.error.Message?
      ensures r.Ok? ==> Holds(entries, Slot(directory, fold(name)), expected)
      ensures Quiet() && old(Working()) && Holds(entries, Slot(directory, fold(name)), expected) ==> r.Ok?
    {
      if expected.None? {
        return Ok(());
      }
      var actual := FileIdentityAt(directory, name);
      if actual.Err? {
        return Err(actual.error);
      }
      r := if Mismatch(expected, actual.value) then Err(Message) else Ok(());
    }

    predicate Holds(at: Entries, slot: Slot, expected: Option<nat>) {
      expected.Some? ==> slot in at && kind(at[slot]) == RegularFile && at[slot] == expected.value
    }

    // The rename, and the look at what has arrived under the target name.
    method RenameAndVerify(from: Slot, targetParent: nat, targetName: string, file: Option<nat>)
      returns (r: Result<(), AppError>, renamed: bool)
      requires Valid()
      modifies this
      ensures Progress() && Renames() == old(Renames()) + if renamed then 1 else 0
      ensures r.Err? ==> if renamed then r.error == Recovery else r.error.Io?
      ensures r.Ok? ==> renamed && Holds(entries, Slot(targetParent, fold(targetName)), file)
      ensures Quiet() ==> if renamed then MovesEntry(old(entries), entries, from, Slot(targetParent, fold(targetName)))
                          else entries == old(entries)
      ensures Quiet() && old(Working()) && from in old(entries) && Slot(targetParent, fold(targetName)) !in old(entries) ==>
        Holds(old(entries), from, file) ==> r.Ok?
    {
      var moved := RenameNoReplace(from, Slot(targetParent, fold(targetName)));
      if moved.Err? {
        return moved, false;
      }
      var checked := CheckFile(targetParent, targetName, file);
      r, renamed := if checked.Ok? then checked else Err(Recovery), true;
    }
  }

  lemma {:induction false} ResolvePrefix(entries: Entries, kind: nat -> Kind, fold: string -> string, start: nat,
                                         names: seq<string>, i: nat)
    requires i <= |names| && Resolve(entries, kind, fold, start, names[..i]).None?
    ensures Resolve(entries, kind, fold, start, names).None?
    decreases |names| - i
  {
    if i < |names| {
      assert names[..i + 1][..i] == names[..i];
      ResolvePrefix(entries, kind, fold, start, names, i + 1);
    } else {
      assert names[..i] == names;
    }
  }

  function Interfered(entries: Entries, foreign: map<Slot, Option<nat>>): Entries {
    map s | s in entries.Keys + foreign.Keys && (s in foreign ==> foreign[s].Some?)
      :: if s in foreign then foreign[s].value else entries[s]
  }

  function OwnCount(log: seq<DiskEvent>): nat {
    if log == [] then 0 else OwnCount(log[..|log| - 1]) + (if log[|log| - 1].author.This? then 1 else 0)
  }
}
