// src/normalize.rs: listing a bucket, planning its renames, and running them.
module Normalize {
  import opened Wrappers
  import opened Errors
  import opened ObjectPaths
  import Utf8
  import opened ObjectStore
  import opened StorageClient
  import opened NormalizationPlan
  import opened Accounting
  import opened Transactions
  import opened Undoing

  const TEMPORARY_SUFFIX_PREFIX: string := ".task-googlecloud-"
  const UUID_LENGTH: nat := 32

  function BucketPrefix(bucket: string): string {
    SCHEME + bucket + "/"
  }

  // ---------------------------------------------------------------- listing

  function Flatten(pages: seq<seq<string>>): seq<string> {
    if pages == [] then [] else Flatten(pages[..|pages| - 1]) + pages[|pages| - 1]
  }

  // The names of one answer, without the lock object.
  function Listed(bucket: string, items: seq<string>): seq<string> {
    if items == [] then []
    else
      var last := items[|items| - 1];
      Listed(bucket, items[..|items| - 1]) + (if last == BUCKET_LOCK_OBJECT then [] else [BucketPrefix(bucket) + last])
  }

  lemma {:induction false} ListedConcat(bucket: string, a: seq<string>, b: seq<string>)
    ensures Listed(bucket, a + b) == Listed(bucket, a) + Listed(bucket, b)
  {
    if b == [] {
      assert a + b == a;
    } else {
      var front := b[..|b| - 1];
      ListedConcat(bucket, a, front);
      assert (a + b)[..|a + b| - 1] == a + front;
    }
  }

  // Follows the continuation tokens until there is none. A token is the number
  // of the page it asks for; pages may be empty and split the names anyhow.
  method ListObjectsUnlocked(api: StorageApi, bucket: string, pages: seq<seq<string>>)
    returns (r: Result<seq<string>, AppError>)
    requires api.Valid() && pages != []
    modifies api
    ensures api.Progress() && api.Looking()
    ensures api.Exclusive() ==> api.Unchanged()
    ensures r.Ok? ==> r.value == Listed(bucket, Flatten(pages))
    ensures r.Err? ==> RequestError(r.error)
    ensures old(api.Calm()) ==> r.Ok?
    ensures r.Ok? && !old(api.interrupted) ==> !api.interrupted
  {
    var objects: seq<string> := [];
    var pageToken: Option<nat> := None;
    ghost var done := 0;
    while true
      invariant api.Progress() && api.Looking()
      invariant api.Exclusive() ==> api.Unchanged()
      invariant !old(api.interrupted) ==> !api.interrupted
      invariant done < |pages| && done == if pageToken.Some? then pageToken.value else 0
      invariant objects == Listed(bucket, Flatten(pages[..done]))
      decreases |pages| - done
    {
      var d := api.Send(false);
      if !d.Answered? {
        return Err(d.error);
      }
      var page := if pageToken.Some? then pageToken.value else 0;
      ListedConcat(bucket, Flatten(pages[..page]), pages[page]);
      assert pages[..page + 1][..page] == pages[..page];
      objects := objects + Listed(bucket, pages[page]);
      pageToken := if page + 1 < |pages| then Some(page + 1) else None;
      if pageToken.None? {
        assert pages[..page + 1] == pages;
        return Ok(objects);
      }
      done := page + 1;
    }
  }

  // What a listing is supposed to be: every object of the bucket, once.
  ghost predicate HonestListing(live: Objects, bucket: string, pages: seq<seq<string>>) {
    && Distinct(Flatten(pages))
    && forall n :: n in Flatten(pages) <==> ObjectPath(bucket, n) in live
  }

  ghost predicate Distinct(s: seq<string>) {
    forall i, j :: 0 <= i < j < |s| ==> s[i] != s[j]
  }

  // The planner sees exactly the bucket's objects, the lock aside, each once.
  lemma {:induction false} ListedIsExact(bucket: string, items: seq<string>)
    requires Distinct(items)
    ensures Distinct(Listed(bucket, items))
    ensures forall u :: u in Listed(bucket, items) <==>
      BucketPrefix(bucket) <= u && u[|BucketPrefix(bucket)|..] in items && u[|BucketPrefix(bucket)|..] != BUCKET_LOCK_OBJECT
  {
    if items != [] {
      var front, last := items[..|items| - 1], items[|items| - 1];
      ListedIsExact(bucket, front);
      assert last !in front;
      var p := BucketPrefix(bucket);
      assert (p + last)[|p|..] == last;
      forall u ensures u in Listed(bucket, items) <==> p <= u && u[|p|..] in items && u[|p|..] != BUCKET_LOCK_OBJECT {
        if p <= u { assert u == p + u[|p|..]; }
        assert items == front + [last];
      }
    }
  }

  // --------------------------------------------------------------- planning

  // A changed entry becomes a move through a private name of its own.
  function PlanMove(entry: Entry, token: string): Result<PlannedMove, AppError> {
    var source := Parse(entry.source);
    var target := Parse(entry.target);
    if source.Err? then Err(source.error)
    else if target.Err? then Err(target.error)
    else if !ValidNameLength(target.value) then Err(Message)
    else
      var temporary := source.value.(name := source.value.name + TEMPORARY_SUFFIX_PREFIX + token);
      if !ValidNameLength(temporary) then Err(Message)
      else Ok(PlannedMove(source.value, target.value, temporary))
  }

  predicate Changed(entry: Entry) {
    entry.source != entry.target
  }

  // The first entry that cannot be planned stops everything.
  function PlanMoves(entries: seq<Entry>, tokens: nat -> string): Result<seq<PlannedMove>, AppError> {
    if entries == [] then Ok([])
    else
      var last := |entries| - 1;
      var earlier := PlanMoves(entries[..last], tokens);
      if earlier.Err? || !Changed(entries[last]) then earlier
      else
        match PlanMove(entries[last], tokens(last))
        case Err(e) => Err(e)
        case Ok(m) => Ok(earlier.value + [m])
  }

  // What an entry needs to become a move: two object URIs, and names that fit
  // into a request, the temporary one included.
  predicate Fits(entry: Entry, token: string) {
    var source, target := Parse(entry.source), Parse(entry.target);
    && source.Ok? && target.Ok?
    && |Utf8.Encode(target.value.name)| <= MAX_OBJECT_NAME_BYTES
    && |Utf8.Encode(source.value.name + TEMPORARY_SUFFIX_PREFIX + token)| <= MAX_OBJECT_NAME_BYTES
  }

  lemma PlanMoveExact(entry: Entry, token: string)
    ensures PlanMove(entry, token).Ok? <==> Fits(entry, token)
    ensures PlanMove(entry, token).Ok? ==> var m := PlanMove(entry, token).value;
      && Uri(m.source) == entry.source && Uri(m.target) == entry.target
      && m.temporary == ObjectPath(m.source.bucket, m.source.name + TEMPORARY_SUFFIX_PREFIX + token)
  {
    var source, target := Parse(entry.source), Parse(entry.target);
    if source.Ok? && target.Ok? {
      ParsedPrintsBack(entry.source);
      ParsedPrintsBack(entry.target);
      Utf8.LengthIsBytes(target.value.name);
      Utf8.LengthIsBytes(source.value.name + TEMPORARY_SUFFIX_PREFIX + token);
    }
  }

  // Planning is refused exactly if some changed entry does not fit.
  lemma {:induction false} PlanSucceedsExactly(entries: seq<Entry>, tokens: nat -> string)
    ensures PlanMoves(entries, tokens).Ok? <==> FitAll(entries, tokens)
  {
    if entries != [] {
      var last := |entries| - 1;
      PlanSucceedsExactly(entries[..last], tokens);
      PlanMoveExact(entries[last], tokens(last));
      FitAllOneMore(entries, tokens);
    }
  }

  predicate FitAll(entries: seq<Entry>, tokens: nat -> string) {
    forall i :: 0 <= i < |entries| && Changed(entries[i]) ==> Fits(entries[i], tokens(i))
  }

  lemma FitAllOneMore(entries: seq<Entry>, tokens: nat -> string)
    requires entries != []
    ensures var last := |entries| - 1;
      FitAll(entries, tokens) <==> FitAll(entries[..last], tokens) && (Changed(entries[last]) ==> Fits(entries[last], tokens(last)))
  {
    assert forall i :: 0 <= i < |entries| - 1 ==> entries[..|entries| - 1][i] == entries[i];
  }

  // Move k stands for entry origins[k]: the changed entries in order, no others.
  ghost predicate StandsFor(plan: seq<PlannedMove>, entries: seq<Entry>, tokens: nat -> string, origins: seq<nat>) {
    && |plan| == |origins|
    && (forall k :: 0 <= k < |origins| ==>
          && origins[k] < |entries| && Changed(entries[origins[k]])
          && PlanMove(entries[origins[k]], tokens(origins[k])) == Ok(plan[k]))
    && (forall k, l :: 0 <= k < l < |origins| ==> origins[k] < origins[l])
    && (forall i :: 0 <= i < |entries| && Changed(entries[i]) ==> i in origins)
  }

  lemma {:induction false} PlanMovesExact(entries: seq<Entry>, tokens: nat -> string) returns (origins: seq<nat>)
    requires PlanMoves(entries, tokens).Ok?
    ensures StandsFor(PlanMoves(entries, tokens).value, entries, tokens, origins)
  {
    if entries == [] {
      origins := [];
    } else {
      var last := |entries| - 1;
      origins := PlanMovesExact(entries[..last], tokens);
      var earlier := PlanMoves(entries[..last], tokens).value;
      if Changed(entries[last]) {
        StandsForOneMore(earlier, entries, tokens, origins);
        origins := origins + [last];
      } else {
        StandsForNoMore(earlier, entries, tokens, origins);
      }
    }
  }

  lemma StandsForNoMore(plan: seq<PlannedMove>, entries: seq<Entry>, tokens: nat -> string, origins: seq<nat>)
    requires entries != [] && !Changed(entries[|entries| - 1])
    requires StandsFor(plan, entries[..|entries| - 1], tokens, origins)
    ensures StandsFor(plan, entries, tokens, origins)
  {
    var last := |entries| - 1;
    forall i | 0 <= i < |entries| && Changed(entries[i]) ensures i in origins {
      assert entries[..last][i] == entries[i];
    }
  }

  lemma StandsForOneMore(plan: seq<PlannedMove>, entries: seq<Entry>, tokens: nat -> string, origins: seq<nat>)
    requires entries != [] && Changed(entries[|entries| - 1])
    requires StandsFor(plan, entries[..|entries| - 1], tokens, origins)
    requires PlanMove(entries[|entries| - 1], tokens(|entries| - 1)).Ok?
    ensures StandsFor(plan + [PlanMove(entries[|entries| - 1], tokens(|entries| - 1)).value], entries, tokens, origins + [|entries| - 1])
  {
    var last := |entries| - 1;
    var more := origins + [last];
    forall i | 0 <= i < |entries| && Changed(entries[i]) ensures i in more {
      if i < last {
        assert entries[..last][i] == entries[i];
        assert i in origins;
      } else {
        assert more[|origins|] == i;
      }
    }
  }

  // ----------------------------------------------------------- private names

  predicate EndsWith(s: string, t: string) {
    |t| <= |s| && s[|s| - |t|..] == t
  }

  // What a random identifier per listed name provides.
  ghost predicate FreshTokens(tokens: nat -> string, names: seq<string>, nfc: string -> string) {
    && (forall i {:trigger tokens(i)} :: 0 <= i < |names| ==> |tokens(i)| == UUID_LENGTH)
    && (forall i, j {:trigger tokens(i), tokens(j)} :: 0 <= i < j < |names| ==> tokens(i) != tokens(j))
    && (forall i, j :: 0 <= i < |names| && 0 <= j < |names| ==>
          !EndsWith(names[j], tokens(i)) && !EndsWith(nfc(names[j]), tokens(i)))
  }

  lemma UriEndsWith(path: ObjectPath, token: string)
    requires EndsWith(path.name, token)
    ensures EndsWith(Uri(path), token)
  {
    var uri := Uri(path);
    assert uri[|uri| - |path.name|..] == path.name;
    assert uri[|uri| - |token|..] == path.name[|path.name| - |token|..];
  }

  lemma TemporaryEnds(source: ObjectPath, token: string)
    ensures EndsWith(source.name + TEMPORARY_SUFFIX_PREFIX + token, token)
    ensures |token| == UUID_LENGTH ==> source.name + TEMPORARY_SUFFIX_PREFIX + token != BUCKET_LOCK_OBJECT
  {
  }

  lemma FreshTokensGivePrivateNames(names: seq<string>, nfc: string -> string, tokens: nat -> string)
    requires FreshTokens(tokens, names, nfc) && PlanMoves(EntriesFor(names, nfc), tokens).Ok?
    ensures PrivateTemporaries(PlanMoves(EntriesFor(names, nfc), tokens).value)
  {
    var entries := EntriesFor(names, nfc);
    var plan := PlanMoves(entries, tokens).value;
    var origins := PlanMovesExact(entries, tokens);
    forall k, l | 0 <= k < |plan| && 0 <= l < |plan| ensures Apart(plan, k, l) {
      var i, j := origins[k], origins[l];
      assert k != l ==> i != j;
      PrivateName(entries, tokens, i, j, plan[k], plan[l]);
    }
  }

  lemma PrivateName(entries: seq<Entry>, tokens: nat -> string, i: nat, j: nat, m: PlannedMove, n: PlannedMove)
    requires i < |entries| && j < |entries|
    requires PlanMove(entries[i], tokens(i)) == Ok(m) && PlanMove(entries[j], tokens(j)) == Ok(n)
    requires |tokens(i)| == |tokens(j)| && (i != j ==> tokens(i) != tokens(j))
    requires !EndsWith(entries[j].source, tokens(i)) && !EndsWith(entries[j].target, tokens(i))
    ensures m.temporary != n.source && m.temporary != n.target && (i != j ==> m.temporary != n.temporary)
  {
    TemporaryEnds(m.source, tokens(i));
    TemporaryEnds(n.source, tokens(j));
    UriEndsWith(m.temporary, tokens(i));
    ParsedPrintsBack(entries[j].source);
    ParsedPrintsBack(entries[j].target);
  }

  // ------------------------------------------------------------- end to end

  predicate InScope(bucket: string, p: ObjectPath) {
    p.bucket == bucket && p.name != BUCKET_LOCK_OBJECT
  }

  // Bucket names have no slash and stay as they are when a URI is normalized.
  ghost predicate KeepsBucket(nfc: string -> string, bucket: string) {
    && bucket != "" && '/' !in bucket
    && forall p: ObjectPath {:trigger nfc(Uri(p))} :: p.bucket == bucket ==> BucketPrefix(bucket) <= nfc(Uri(p))
  }

  function NormalPath(p: ObjectPath, nfc: string -> string): ObjectPath
    requires BucketPrefix(p.bucket) <= nfc(Uri(p))
  {
    p.(name := nfc(Uri(p))[|BucketPrefix(p.bucket)|..])
  }

  // The bucket afterwards, the lock aside, is exactly the image of the bucket
  // before: every object under its normal name and nothing else anywhere.
  ghost predicate Normalized(before: Objects, after: Objects, bucket: string, nfc: string -> string)
    requires KeepsBucket(nfc, bucket)
  {
    && (forall p :: p in before && InScope(bucket, p) ==>
          var q := NormalPath(p, nfc);
          InScope(bucket, q) && q in after && after[q].content == before[p].content)
    && (forall q :: q in after && InScope(bucket, q) ==> exists p :: p in before && InScope(bucket, p) && NormalPath(p, nfc) == q)
    && (forall p, q :: p in before && q in before && InScope(bucket, p) && InScope(bucket, q) && p != q ==>
          NormalPath(p, nfc) != NormalPath(q, nfc))
    && (forall p :: !InScope(bucket, p) ==> (p in after <==> p in before) && (p in after ==> after[p].content == before[p].content))
  }

  // The listed names are the objects in scope, each once.
  ghost predicate Lists(names: seq<string>, live: Objects, bucket: string) {
    && Distinct(names)
    && (forall p :: p in live && InScope(bucket, p) ==> Uri(p) in names)
    && (forall j :: 0 <= j < |names| ==> Lives(names[j], live, bucket))
  }

  predicate Lives(name: string, live: Objects, bucket: string) {
    && BucketPrefix(bucket) <= name
    && var p := ObjectPath(bucket, name[|BucketPrefix(bucket)|..]);
       p in live && InScope(bucket, p) && Uri(p) == name
  }

  lemma HonestListingLists(live: Objects, bucket: string, pages: seq<seq<string>>)
    requires HonestListing(live, bucket, pages)
    ensures Lists(Listed(bucket, Flatten(pages)), live, bucket)
  {
    var names, prefix := Listed(bucket, Flatten(pages)), BucketPrefix(bucket);
    ListedIsExact(bucket, Flatten(pages));
    forall p | p in live && InScope(bucket, p) ensures Uri(p) in names {
      assert Uri(p) == prefix + p.name && Uri(p)[|prefix|..] == p.name;
    }
    forall j | 0 <= j < |names| ensures Lives(names[j], live, bucket) {
      assert names[j] in names;
      assert names[j] == prefix + names[j][|prefix|..];
    }
  }

  lemma ParseInBucket(bucket: string, name: string)
    requires bucket != "" && '/' !in bucket && BucketPrefix(bucket) <= name
    ensures var rest := name[|BucketPrefix(bucket)|..];
      if rest == "" then Parse(name).Err? else Parse(name) == Ok(ObjectPath(bucket, rest))
  {
    var rest := name[|BucketPrefix(bucket)|..];
    assert name[|SCHEME|..] == bucket + ['/'] + rest;
    SplitOnceAtFirst(bucket, '/', rest);
  }

  // A planned move takes a listed object to its normal name.
  lemma MoveIsNormalization(entry: Entry, token: string, m: PlannedMove, live: Objects, bucket: string, nfc: string -> string)
    requires KeepsBucket(nfc, bucket) && Lives(entry.source, live, bucket) && entry.target == nfc(entry.source)
    requires PlanMove(entry, token) == Ok(m)
    ensures Uri(m.source) == entry.source && m.source in live && InScope(bucket, m.source)
    ensures m.target == NormalPath(m.source, nfc) && m.temporary.bucket == bucket
  {
    ParseInBucket(bucket, entry.source);
    ParseInBucket(bucket, entry.target);
  }

  lemma UriInjective(p: ObjectPath, q: ObjectPath)
    requires p.bucket == q.bucket && Uri(p) == Uri(q)
    ensures p == q
  {
    var prefix := BucketPrefix(p.bucket);
    assert Uri(p)[|prefix|..] == p.name && Uri(q)[|prefix|..] == q.name;
  }

  // What is known about a plan built from an honest listing.
  ghost predicate Normalizing(plan: seq<PlannedMove>, names: seq<string>, live: Objects, bucket: string, nfc: string -> string)
    requires KeepsBucket(nfc, bucket)
  {
    && (forall k :: 0 <= k < |plan| ==>
          && plan[k].source in live && InScope(bucket, plan[k].source) && nfc(Uri(plan[k].source)) != Uri(plan[k].source)
          && plan[k].target == NormalPath(plan[k].source, nfc))
    && (forall p :: p in live && InScope(bucket, p) && nfc(Uri(p)) != Uri(p) ==> IsSource(plan, p))
  }

  lemma PlanIsNormalizing(names: seq<string>, tokens: nat -> string, live: Objects, bucket: string, nfc: string -> string)
    requires KeepsBucket(nfc, bucket) && Lists(names, live, bucket) && PlanMoves(EntriesFor(names, nfc), tokens).Ok?
    ensures Normalizing(PlanMoves(EntriesFor(names, nfc), tokens).value, names, live, bucket, nfc)
  {
    var entries := EntriesFor(names, nfc);
    var plan := PlanMoves(entries, tokens).value;
    var origins := PlanMovesExact(entries, tokens);
    forall k | 0 <= k < |plan|
      ensures plan[k].source in live && InScope(bucket, plan[k].source)
      ensures Uri(plan[k].source) == names[origins[k]] && plan[k].target == NormalPath(plan[k].source, nfc)
    {
      MoveIsNormalization(entries[origins[k]], tokens(origins[k]), plan[k], live, bucket, nfc);
    }
    forall p | p in live && InScope(bucket, p) && nfc(Uri(p)) != Uri(p) ensures IsSource(plan, p) {
      var j :| 0 <= j < |names| && names[j] == Uri(p);
      assert Changed(entries[j]);
      var k :| 0 <= k < |origins| && origins[k] == j;
      UriInjective(plan[k].source, p);
    }
  }

  // Objects whose normal names differ, and no changed one is taken.
  lemma NoNameIsTaken(names: seq<string>, live: Objects, bucket: string, nfc: string -> string, p: ObjectPath, q: ObjectPath)
    requires KeepsBucket(nfc, bucket) && Lists(names, live, bucket) && Idempotent(nfc) && CollisionFree(names, nfc)
    requires p in live && q in live && InScope(bucket, p) && InScope(bucket, q)
    ensures p != q ==> NormalPath(p, nfc) != NormalPath(q, nfc)
    ensures nfc(Uri(p)) != Uri(p) ==> NormalPath(p, nfc) != q
    ensures nfc(Uri(p)) == Uri(p) ==> NormalPath(p, nfc) == p
  {
    var prefix := BucketPrefix(bucket);
    var i :| 0 <= i < |names| && names[i] == Uri(p);
    var j :| 0 <= j < |names| && names[j] == Uri(q);
    assert Uri(NormalPath(p, nfc)) == nfc(Uri(p)) && Uri(NormalPath(q, nfc)) == nfc(Uri(q));
    if p != q && Uri(p) == Uri(q) { UriInjective(p, q); }
    if nfc(Uri(p)) != Uri(p) { ChangedTargetsAreNew(names, nfc, i, j); }
    if nfc(Uri(p)) == Uri(p) { UriInjective(NormalPath(p, nfc), p); }
  }

  lemma RenamedIsNormalized(plan: seq<PlannedMove>, names: seq<string>, before: Objects, after: Objects,
                            bucket: string, nfc: string -> string)
    requires KeepsBucket(nfc, bucket) && Lists(names, before, bucket) && Idempotent(nfc) && CollisionFree(names, nfc)
    requires Normalizing(plan, names, before, bucket, nfc) && Renamed(before, after, plan)
    requires forall k :: 0 <= k < |plan| ==> !StorageApi.Reserved(plan[k].target)
    ensures Normalized(before, after, bucket, nfc)
  {
    forall p | p in before && InScope(bucket, p)
      ensures var q := NormalPath(p, nfc); InScope(bucket, q) && q in after && after[q].content == before[p].content
    {
      if nfc(Uri(p)) != Uri(p) {
        var k :| 0 <= k < |plan| && plan[k].source == p;
      } else {
        NoNameIsTaken(names, before, bucket, nfc, p, p);
        assert !IsSource(plan, p);
        forall k | 0 <= k < |plan| ensures plan[k].target != p {
          NoNameIsTaken(names, before, bucket, nfc, plan[k].source, p);
        }
        assert !IsTarget(plan, p);
        assert p in after && !IsTarget(plan, p) <==> p in before && !IsSource(plan, p);
      }
    }
    forall q | q in after && InScope(bucket, q) ensures exists p :: p in before && InScope(bucket, p) && NormalPath(p, nfc) == q {
      if IsTarget(plan, q) {
        var k :| 0 <= k < |plan| && plan[k].target == q;
        assert NormalPath(plan[k].source, nfc) == q;
      } else {
        assert q in before && !IsSource(plan, q);
        NoNameIsTaken(names, before, bucket, nfc, q, q);
        assert NormalPath(q, nfc) == q;
      }
    }
    forall p, q | p in before && q in before && InScope(bucket, p) && InScope(bucket, q) && p != q
      ensures NormalPath(p, nfc) != NormalPath(q, nfc)
    {
      NoNameIsTaken(names, before, bucket, nfc, p, q);
    }
    forall p | !InScope(bucket, p) ensures !IsTarget(plan, p) && !IsSource(plan, p) {
    }
  }

  // Normalizing a normalized bucket: the plan is accepted and has no moves.
  lemma SecondRunPlansNothing(before: Objects, after: Objects, bucket: string, nfc: string -> string,
                              pages: seq<seq<string>>, tokens: nat -> string)
    requires KeepsBucket(nfc, bucket) && Idempotent(nfc) && Normalized(before, after, bucket, nfc)
    requires HonestListing(after, bucket, pages)
    ensures var names := Listed(bucket, Flatten(pages));
      CollisionFree(names, nfc) && PlanMoves(EntriesFor(names, nfc), tokens) == Ok([])
  {
    var names := Listed(bucket, Flatten(pages));
    HonestListingLists(after, bucket, pages);
    forall j | 0 <= j < |names| ensures nfc(names[j]) == names[j] {
      var q := ObjectPath(bucket, names[j][|BucketPrefix(bucket)|..]);
      assert Lives(names[j], after, bucket);
      var p :| p in before && InScope(bucket, p) && NormalPath(p, nfc) == q;
      assert Uri(q) == nfc(Uri(p));
      assert nfc(nfc(Uri(p))) == nfc(Uri(p));
    }
    NothingChanged(EntriesFor(names, nfc), tokens);
  }

  lemma {:induction false} NothingChanged(entries: seq<Entry>, tokens: nat -> string)
    requires forall i :: 0 <= i < |entries| ==> !Changed(entries[i])
    ensures PlanMoves(entries, tokens) == Ok([])
  {
    if entries != [] {
      NothingChanged(entries[..|entries| - 1], tokens);
    }
  }

  // What decides, before anything is sent, whether a bucket can be normalized.
  ghost predicate Plannable(names: seq<string>, nfc: string -> string, tokens: nat -> string) {
    && CollisionFree(names, nfc)
    && forall i {:trigger names[i]} :: 0 <= i < |names| && nfc(names[i]) != names[i] ==>
         Fits(Entry(names[i], nfc(names[i])), tokens(i)) && !NamesLock(nfc(names[i]))
  }

  lemma PlannableIsPlanned(names: seq<string>, nfc: string -> string, tokens: nat -> string)
    requires CollisionFree(names, nfc)
    ensures Plannable(names, nfc, tokens) <==>
      PlanMoves(EntriesFor(names, nfc), tokens).Ok? && TakesNoLock(PlanMoves(EntriesFor(names, nfc), tokens).value)
  {
    var entries := EntriesFor(names, nfc);
    PlanSucceedsExactly(entries, tokens);
    if PlanMoves(entries, tokens).Ok? {
      var origins := PlanMovesExact(entries, tokens);
      LocksTaken(entries, tokens, PlanMoves(entries, tokens).value, origins);
    }
    assert forall i :: 0 <= i < |names| ==> entries[i] == Entry(names[i], nfc(names[i]));
  }

  predicate TakesNoLock(plan: seq<PlannedMove>) {
    forall k :: 0 <= k < |plan| ==> !StorageApi.Reserved(plan[k].target)
  }

  predicate NamesLock(uri: string) {
    Parse(uri).Ok? && StorageApi.Reserved(Parse(uri).value)
  }

  lemma LocksTaken(entries: seq<Entry>, tokens: nat -> string, plan: seq<PlannedMove>, origins: seq<nat>)
    requires StandsFor(plan, entries, tokens, origins)
    ensures TakesNoLock(plan) <==> forall i :: 0 <= i < |entries| && Changed(entries[i]) ==> !NamesLock(entries[i].target)
  {
    forall k | 0 <= k < |plan| ensures NamesLock(entries[origins[k]].target) == StorageApi.Reserved(plan[k].target) {
      MoveNamesLock(entries[origins[k]], tokens(origins[k]), plan[k]);
    }
    if TakesNoLock(plan) {
      forall i | 0 <= i < |entries| && Changed(entries[i]) ensures !NamesLock(entries[i].target) {
        var k :| 0 <= k < |origins| && origins[k] == i;
      }
    } else {
      var k :| 0 <= k < |plan| && StorageApi.Reserved(plan[k].target);
      assert Changed(entries[origins[k]]);
    }
  }

  lemma MoveNamesLock(entry: Entry, token: string, m: PlannedMove)
    requires PlanMove(entry, token) == Ok(m)
    ensures NamesLock(entry.target) == StorageApi.Reserved(m.target)
  {
  }

  lemma PlannableIsExecutable(names: seq<string>, tokens: nat -> string, live: Objects, bucket: string, nfc: string -> string)
    requires KeepsBucket(nfc, bucket) && Lists(names, live, bucket) && Idempotent(nfc)
    requires FreshTokens(tokens, names, nfc) && Plannable(names, nfc, tokens)
    ensures PlanMoves(EntriesFor(names, nfc), tokens).Ok?
    ensures Regular(live, PlanMoves(EntriesFor(names, nfc), tokens).value)
  {
    var entries := EntriesFor(names, nfc);
    PlannableIsPlanned(names, nfc, tokens);
    var plan := PlanMoves(entries, tokens).value;
    PlanIsNormalizing(names, tokens, live, bucket, nfc);
    var origins := PlanMovesExact(entries, tokens);
    forall k | 0 <= k < |plan|
      ensures plan[k].source in live && plan[k].temporary !in live
      ensures plan[k].target !in live
      ensures !StorageApi.Reserved(plan[k].source) && !StorageApi.Reserved(plan[k].temporary)
      ensures names[origins[k]] == Uri(plan[k].source) && plan[k].temporary.bucket == bucket
    {
      var i := origins[k];
      assert |tokens(i)| == UUID_LENGTH;
      MoveIsNormalization(entries[i], tokens(i), plan[k], live, bucket, nfc);
      TemporaryEnds(plan[k].source, tokens(i));
      UriEndsWith(plan[k].temporary, tokens(i));
      assert Uri(plan[k].temporary) !in names;
      if plan[k].target in live {
        NoNameIsTaken(names, live, bucket, nfc, plan[k].source, plan[k].target);
        assert false;
      }
    }
    forall k, l | 0 <= k < l < |plan| ensures plan[k].source != plan[l].source && plan[k].target != plan[l].target {
      assert names[origins[k]] != names[origins[l]];
      NoNameIsTaken(names, live, bucket, nfc, plan[k].source, plan[l].source);
    }
  }

  // One flaw in the schedule costs at most one object its name, and a single signal
  // not even that.
  ghost predicate OutOfOneFlaw(turns: nat -> Turn, before: Objects, after: Objects, plan: Result<seq<PlannedMove>, AppError>,
                               r: Result<(), AppError>) {
    && (OneFlaw(turns) ==> r.Ok? || Contents(after) == Contents(before) || (plan.Ok? && AllButOne(before, after, plan.value)))
    && (OneSignal(turns) ==> r.Ok? || (!NeedsRecovery(r.error) && Contents(after) == Contents(before)))
  }

  // The workflow under the bucket's lock: list, plan, and process.
  method RunLocked(api: StorageApi, bucket: string, nfc: string -> string, pages: seq<seq<string>>, tokens: nat -> string)
    returns (r: Result<(), AppError>)
    requires api.Valid() && pages != [] && FreshTokens(tokens, Listed(bucket, Flatten(pages)), nfc)
    modifies api
    ensures api.Progress()
    ensures api.Exclusive() && r.Err? && !NeedsRecovery(r.error) ==>
      (Contents(api.live) == Contents(old(api.live)) <==> !api.StrandedHere())
    ensures r.Ok? ==> Plannable(Listed(bucket, Flatten(pages)), nfc, tokens)
    ensures api.Exclusive() && HonestListing(old(api.live), bucket, pages) && Idempotent(nfc) && KeepsBucket(nfc, bucket) ==>
      && (r.Ok? ==> Normalized(old(api.live), api.live, bucket, nfc))
      && (old(api.Calm()) && Plannable(Listed(bucket, Flatten(pages)), nfc, tokens) ==> r.Ok?)
      && (!old(api.interrupted) && Plannable(Listed(bucket, Flatten(pages)), nfc, tokens) ==>
            OutOfOneFlaw(api.turns, old(api.live), api.live, PlanMoves(EntriesFor(Listed(bucket, Flatten(pages)), nfc), tokens), r))
  {
    ghost var names := Listed(bucket, Flatten(pages));
    var moves := PlanBucket(api, bucket, nfc, pages, tokens);
    if moves.Err? {
      return Err(moves.error);
    }
    FreshTokensGivePrivateNames(names, nfc, tokens);
    ghost var before := api.live;
    ghost var honest := HonestListing(before, bucket, pages) && Idempotent(nfc) && KeepsBucket(nfc, bucket);
    if honest { PlanIsSound(names, tokens, before, bucket, nfc, pages, moves.value); }
    r := ProcessMovesUnlocked(api, moves.value);
    PlannableIsPlanned(names, nfc, tokens);
    if api.Exclusive() && r.Ok? && honest {
      RenamedIsNormalized(moves.value, names, before, api.live, bucket, nfc);
    }
  }

  // Everything that comes before the first change.
  method PlanBucket(api: StorageApi, bucket: string, nfc: string -> string, pages: seq<seq<string>>, tokens: nat -> string)
    returns (r: Result<seq<PlannedMove>, AppError>)
    requires api.Valid() && pages != []
    modifies api
    ensures api.Progress() && api.Looking()
    ensures api.Exclusive() ==> api.Unchanged()
    ensures r.Err? ==> !NeedsRecovery(r.error)
    ensures r.Ok? ==> CollisionFree(Listed(bucket, Flatten(pages)), nfc)
    ensures r.Ok? ==> PlanMoves(EntriesFor(Listed(bucket, Flatten(pages)), nfc), tokens) == r
    ensures old(api.Calm()) && Plannable(Listed(bucket, Flatten(pages)), nfc, tokens) ==> r.Ok?
    ensures r.Ok? && !old(api.interrupted) ==> !api.interrupted
  {
    var files := ListObjectsUnlocked(api, bucket, pages);
    if files.Err? {
      return Err(files.error);
    }
    var plan := Build(files.value, nfc);
    if plan.Err? {
      return Err(plan.error);
    }
    r := PlanMoves(plan.value, tokens);
    PlannableIsPlanned(files.value, nfc, tokens);
    if r.Err? { PlanErrorIsPlain(plan.value, tokens); }
  }

  lemma PlanIsSound(names: seq<string>, tokens: nat -> string, live: Objects, bucket: string, nfc: string -> string,
                    pages: seq<seq<string>>, plan: seq<PlannedMove>)
    requires names == Listed(bucket, Flatten(pages)) && CollisionFree(names, nfc) && FreshTokens(tokens, names, nfc)
    requires HonestListing(live, bucket, pages) && Idempotent(nfc) && KeepsBucket(nfc, bucket)
    requires PlanMoves(EntriesFor(names, nfc), tokens) == Ok(plan)
    ensures Lists(names, live, bucket) && Normalizing(plan, names, live, bucket, nfc)
    ensures Plannable(names, nfc, tokens) ==> Regular(live, plan)
  {
    HonestListingLists(live, bucket, pages);
    PlanIsNormalizing(names, tokens, live, bucket, nfc);
    if Plannable(names, nfc, tokens) { PlannableIsExecutable(names, tokens, live, bucket, nfc); }
  }

  lemma {:induction false} PlanErrorIsPlain(entries: seq<Entry>, tokens: nat -> string)
    requires PlanMoves(entries, tokens).Err?
    ensures !NeedsRecovery(PlanMoves(entries, tokens).error)
  {
    if PlanMoves(entries[..|entries| - 1], tokens).Err? {
      PlanErrorIsPlain(entries[..|entries| - 1], tokens);
    }
  }

  // ------------------------------------------------------------ an instance

  // A normalizer with one name to change.
  function Renaming(c: string, n: string): string -> string {
    x => if x == c then n else x
  }

  lemma RenamingIsLawful(c: string, n: string, bucket: string)
    requires BucketPrefix(bucket) <= n && bucket != "" && '/' !in bucket
    ensures Idempotent(Renaming(c, n)) && KeepsBucket(Renaming(c, n), bucket)
  {
    forall p: ObjectPath | p.bucket == bucket ensures BucketPrefix(bucket) <= Renaming(c, n)(Uri(p)) {
      assert Uri(p) == BucketPrefix(bucket) + p.name;
    }
  }

  lemma TwoObjects(a: string, b: string, live: Objects)
    requires a != b && a != BUCKET_LOCK_OBJECT && b != BUCKET_LOCK_OBJECT
    requires live.Keys == {ObjectPath("b", a), ObjectPath("b", b)}
    ensures HonestListing(live, "b", [[a, b]])
    ensures Listed("b", Flatten([[a, b]])) == [Uri(ObjectPath("b", a)), Uri(ObjectPath("b", b))]
  {
    var pages: seq<seq<string>> := [[a, b]];
    assert pages[..0] == [];
    assert Flatten(pages) == [a, b];
    assert [a, b][..1] == [a] && [a][..0] == [];
    assert Listed("b", [a]) == [Uri(ObjectPath("b", a))];
    assert Listed("b", [a, b]) == Listed("b", [a]) + [Uri(ObjectPath("b", b))];
    forall name ensures name in [a, b] <==> ObjectPath("b", name) in live {
      assert ObjectPath("b", name) in live.Keys <==> name == a || name == b;
    }
  }

  // Everything the workflow asks for can be had at once, with something to do:
  // one object to rename and one to leave alone.
  lemma RunnableInstance()
    returns (live: Objects, bucket: string, pages: seq<seq<string>>, nfc: string -> string, tokens: nat -> string)
    ensures pages != [] && HonestListing(live, bucket, pages) && Idempotent(nfc) && KeepsBucket(nfc, bucket)
    ensures FreshTokens(tokens, Listed(bucket, Flatten(pages)), nfc) && Plannable(Listed(bucket, Flatten(pages)), nfc, tokens)
    ensures PlanMoves(EntriesFor(Listed(bucket, Flatten(pages)), nfc), tokens) != Ok([])
  {
    var kept, changed, named := ObjectPath("b", "g"), ObjectPath("b", "e"), ObjectPath("b", "f");
    live := map[kept := Version(1, []), changed := Version(2, [])];
    bucket, pages := "b", [["g", "e"]];
    nfc := Renaming(Uri(changed), Uri(named));
    tokens := i => seq(UUID_LENGTH, _ => if i == 0 then '0' else '1');
    TwoObjects("g", "e", live);
    RenamingIsLawful(Uri(changed), Uri(named), "b");
    DistinctUris(kept, changed, named);
    InstanceTokens(kept, changed, named, nfc, tokens);
    InstancePlans(Uri(kept), Uri(changed), Uri(named), changed, named, nfc, tokens, [Uri(kept), Uri(changed)]);
  }

  lemma InstanceTokens(kept: ObjectPath, changed: ObjectPath, named: ObjectPath, nfc: string -> string, tokens: nat -> string)
    requires |kept.bucket| == |kept.name| == |changed.bucket| == |changed.name| == |named.bucket| == |named.name| == 1
    requires nfc(Uri(kept)) == Uri(kept) && nfc(Uri(changed)) == Uri(named)
    requires |tokens(0)| == |tokens(1)| == UUID_LENGTH && tokens(0)[0] != tokens(1)[0]
    ensures FreshTokens(tokens, [Uri(kept), Uri(changed)], nfc)
  {
    ShortUris(kept, tokens(0), tokens(1));
    ShortUris(changed, tokens(0), tokens(1));
    ShortUris(named, tokens(0), tokens(1));
  }

  lemma DistinctUris(a: ObjectPath, b: ObjectPath, c: ObjectPath)
    requires a.bucket == b.bucket == c.bucket && a != b && b != c && a != c
    ensures Uri(a) != Uri(b) && Uri(b) != Uri(c) && Uri(a) != Uri(c)
  {
    if Uri(a) == Uri(b) { UriInjective(a, b); }
    if Uri(b) == Uri(c) { UriInjective(b, c); }
    if Uri(a) == Uri(c) { UriInjective(a, c); }
  }

  lemma ShortUris(p: ObjectPath, s: string, t: string)
    requires |p.bucket| == |p.name| == 1 && |s| == |t| == UUID_LENGTH
    ensures !EndsWith(Uri(p), s) && !EndsWith(Uri(p), t)
  {
  }

  lemma InstancePlans(k: string, c: string, n: string, changed: ObjectPath, named: ObjectPath,
                      nfc: string -> string, tokens: nat -> string, names: seq<string>)
    requires names == [k, c] && nfc(k) == k && nfc(c) == n && k != c && c != n && k != n
    requires c == Uri(changed) && n == Uri(named) && changed.bucket == named.bucket == "b"
    requires |changed.name| == |named.name| == 1 && |tokens(1)| == UUID_LENGTH && !StorageApi.Reserved(named)
    ensures Plannable(names, nfc, tokens) && PlanMoves(EntriesFor(names, nfc), tokens) != Ok([])
  {
    var entries := EntriesFor(names, nfc);
    UriRoundTrip(changed);
    UriRoundTrip(named);
    Utf8.LengthIsBytes(named.name);
    Utf8.LengthIsBytes(changed.name + TEMPORARY_SUFFIX_PREFIX + tokens(1));
    PlannableIsPlanned(names, nfc, tokens);
    assert entries[..1] == [Entry(k, k)] && entries[..1][..0] == [];
    assert PlanMoves(entries[..1], tokens) == Ok([]);
    var m := PlanMove(entries[1], tokens(1)).value;
    assert PlanMoves(entries, tokens) == Ok([] + [m]) && m.target == named;
  }
}
