// src/normalization_plan.rs: the collision-free plan. Normalization itself is a
// parameter; Unicode Standard Annex #15, section 1.2, makes it idempotent.
module NormalizationPlan {
  import opened Wrappers
  import opened Errors

  datatype Entry = Entry(source: string, target: string)

  ghost predicate Idempotent(nfc: string -> string) {
    forall s {:trigger nfc(nfc(s))} :: nfc(nfc(s)) == nfc(s)
  }

  // No two listed names claim the same normalized one.
  ghost predicate CollisionFree(names: seq<string>, nfc: string -> string) {
    forall i, j :: 0 <= i < j < |names| ==> nfc(names[i]) != nfc(names[j])
  }

  ghost predicate Collides(names: seq<string>, nfc: string -> string, target: string) {
    exists i, j :: 0 <= i < j < |names| && nfc(names[i]) == target && nfc(names[j]) == target
  }

  // The positions that claim a target, in order: the groups of the source.
  function Claims(names: seq<string>, nfc: string -> string, target: string): seq<string> {
    if names == [] then []
    else Claims(names[..|names| - 1], nfc, target) +
         (if nfc(names[|names| - 1]) == target then [names[|names| - 1]] else [])
  }

  lemma {:induction false} ClaimsCount(names: seq<string>, nfc: string -> string, target: string)
    ensures |Claims(names, nfc, target)| > 0 <==> exists i :: 0 <= i < |names| && nfc(names[i]) == target
    ensures |Claims(names, nfc, target)| > 1 <==> Collides(names, nfc, target)
  {
    if names != [] {
      var shorter, last := names[..|names| - 1], |names| - 1;
      ClaimsCount(shorter, nfc, target);
      if nfc(names[last]) == target {
        if i :| 0 <= i < |shorter| && nfc(shorter[i]) == target {
          assert nfc(names[i]) == target;
        }
      }
      if Collides(shorter, nfc, target) {
        var i, j :| 0 <= i < j < |shorter| && nfc(shorter[i]) == target && nfc(shorter[j]) == target;
        assert nfc(names[i]) == target && nfc(names[j]) == target;
      }
    }
  }

  // The grouping of a list of names by normalized name.
  ghost predicate Grouped(groups: map<string, seq<string>>, names: seq<string>, nfc: string -> string) {
    forall t {:trigger Claims(names, nfc, t)} ::
      if t in groups then groups[t] == Claims(names, nfc, t) && groups[t] != [] else Claims(names, nfc, t) == []
  }

  lemma GroupedStep(groups: map<string, seq<string>>, names: seq<string>, nfc: string -> string, name: string)
    requires Grouped(groups, names, nfc)
    ensures var group := if nfc(name) in groups then groups[nfc(name)] else [];
      Grouped(groups[nfc(name) := group + [name]], names + [name], nfc)
  {
    var longer := names + [name];
    assert longer[..|names|] == names;
    forall t ensures Claims(longer, nfc, t) == Claims(names, nfc, t) + (if nfc(name) == t then [name] else []) {
    }
  }

  // Every name with its normal form, in order.
  function EntriesFor(names: seq<string>, nfc: string -> string): seq<Entry> {
    seq(|names|, i requires 0 <= i < |names| => Entry(names[i], nfc(names[i])))
  }

  // Groups the sources by target and refuses the whole plan if a group has more
  // than one member.
  method Build(names: seq<string>, nfc: string -> string) returns (r: Result<seq<Entry>, AppError>)
    ensures r.Ok? <==> CollisionFree(names, nfc)
    ensures r.Ok? ==> r.value == EntriesFor(names, nfc)
    ensures r.Err? ==> r.error.Collision? && forall t :: t in r.error.names <==> Collides(names, nfc, t)
  {
    var entries := EntriesFor(names, nfc);
    var sourcesByTarget: map<string, seq<string>> := map[];
    for k := 0 to |entries|
      invariant Grouped(sourcesByTarget, names[..k], nfc)
    {
      var entry := entries[k];
      GroupedStep(sourcesByTarget, names[..k], nfc, names[k]);
      assert names[..k + 1] == names[..k] + [names[k]];
      var group := if entry.target in sourcesByTarget then sourcesByTarget[entry.target] else [];
      sourcesByTarget := sourcesByTarget[entry.target := group + [entry.source]];
    }
    assert names[..|names|] == names;
    var collisions := set t | t in sourcesByTarget && |sourcesByTarget[t]| > 1;
    CollisionsAreExact(sourcesByTarget, names, nfc, collisions);
    r := if collisions != {} then Err(Collision(collisions)) else Ok(entries);
  }

  lemma CollisionsAreExact(groups: map<string, seq<string>>, names: seq<string>, nfc: string -> string, collisions: set<string>)
    requires Grouped(groups, names, nfc)
    requires collisions == set t | t in groups && |groups[t]| > 1
    ensures forall t :: t in collisions <==> Collides(names, nfc, t)
    ensures collisions == {} <==> CollisionFree(names, nfc)
  {
    forall t ensures t in collisions <==> Collides(names, nfc, t) {
      ClaimsCount(names, nfc, t);
    }
    if collisions == {} {
      forall i, j | 0 <= i < j < |names| ensures nfc(names[i]) != nfc(names[j]) {
        assert !Collides(names, nfc, nfc(names[i]));
      }
    } else {
      var t :| t in collisions;
      assert Collides(names, nfc, t);
    }
  }

  // In an accepted plan a changed target is no listed name at all, so renames
  // cannot run into each other and may be undone in any order.
  lemma ChangedTargetsAreNew(names: seq<string>, nfc: string -> string, i: nat, j: nat)
    requires Idempotent(nfc) && CollisionFree(names, nfc)
    requires i < |names| && j < |names| && nfc(names[i]) != names[i]
    ensures nfc(names[i]) != names[j]
  {
    var x, y := names[i], names[j];
    assert nfc(nfc(x)) == nfc(x);
    assert nfc(x) == y ==> nfc(y) == nfc(x) && i != j;
  }
}
