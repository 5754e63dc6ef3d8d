/**
 * Profile patches: merging, applying and folding (course_discovery/research_agent/memory/repository.py,
 * course_discovery/memory_curator/tools.py).
 */
module Memory {
  import opened Text

  const MAX_NOTES := 30

  // ----- one list -----

  function Keep(items: seq<string>, removed: seq<string>): (r: seq<string>)
    ensures forall x :: x in r <==> x in items && x !in removed
    decreases |items|
  {
    if items == [] then []
    else
      var n := |items| - 1;
      assert items == items[..n] + [items[n]];
      if items[n] in removed then Keep(items[..n], removed) else Keep(items[..n], removed) + [items[n]]
  }

  /** Items are added one by one, unless they are there by then or removed. */
  function Extended(merged: seq<string>, add: seq<string>, removed: seq<string>): (r: seq<string>)
    ensures merged <= r
    ensures forall x :: x in r <==> x in merged || (x in add && x !in removed)
    decreases |add|
  {
    if add == [] then merged
    else
      var n := |add| - 1;
      var rest := Extended(merged, add[..n], removed);
      assert add == add[..n] + [add[n]];
      if add[n] in rest || add[n] in removed then rest else rest + [add[n]]
  }

  function MergedUnique(current: seq<string>, add: seq<string>, remove: seq<string>): seq<string> {
    Extended(Keep(current, remove), add, remove)
  }

  method MergeUnique(current: seq<string>, add: seq<string>, remove: seq<string>) returns (merged: seq<string>)
    ensures merged == MergedUnique(current, add, remove)
  {
    merged := [];
    for i := 0 to |current|
      invariant merged == Keep(current[..i], remove)
    {
      assert current[..i + 1][..i] == current[..i];
      if current[i] !in remove { merged := merged + [current[i]]; }
    }
    assert current[..|current|] == current;
    for i := 0 to |add|
      invariant merged == Extended(Keep(current, remove), add[..i], remove)
    {
      assert add[..i + 1][..i] == add[..i];
      if add[i] !in merged && add[i] !in remove { merged := merged + [add[i]]; }
    }
    assert add[..|add|] == add;
  }

  /** Exactly the current and the added items that are not removed. */
  lemma MergedHolds(current: seq<string>, add: seq<string>, remove: seq<string>, x: string)
    ensures x in MergedUnique(current, add, remove) <==> (x in current || x in add) && x !in remove
  {
  }

  lemma {:induction false} KeepNoDup(items: seq<string>, removed: seq<string>)
    requires NoDup(items)
    ensures NoDup(Keep(items, removed))
    decreases |items|
  {
    if items == [] {
    } else {
      var n := |items| - 1;
      assert items == items[..n] + [items[n]];
      NoDupSnoc(items[..n], items[n]);
      KeepNoDup(items[..n], removed);
      NoDupSnoc(Keep(items[..n], removed), items[n]);
    }
  }

  lemma {:induction false} ExtendedNoDup(merged: seq<string>, add: seq<string>, removed: seq<string>)
    requires NoDup(merged)
    ensures NoDup(Extended(merged, add, removed))
    decreases |add|
  {
    if add == [] {
    } else {
      var n := |add| - 1;
      ExtendedNoDup(merged, add[..n], removed);
      NoDupSnoc(Extended(merged, add[..n], removed), add[n]);
    }
  }

  lemma MergedNoDup(current: seq<string>, add: seq<string>, remove: seq<string>)
    requires NoDup(current)
    ensures NoDup(MergedUnique(current, add, remove))
  {
    KeepNoDup(current, remove);
    ExtendedNoDup(Keep(current, remove), add, remove);
  }

  lemma {:induction false} KeepAll(items: seq<string>, removed: seq<string>)
    requires forall x :: x in items ==> x !in removed
    ensures Keep(items, removed) == items
    decreases |items|
  {
    if items == [] {
    } else {
      var n := |items| - 1;
      assert items == items[..n] + [items[n]];
      KeepAll(items[..n], removed);
      assert items[n] in items;
    }
  }

  lemma {:induction false} NothingToAdd(merged: seq<string>, add: seq<string>, removed: seq<string>)
    requires forall x :: x in add ==> x in merged || x in removed
    ensures Extended(merged, add, removed) == merged
    decreases |add|
  {
    if add == [] {
    } else {
      var n := |add| - 1;
      assert add == add[..n] + [add[n]];
      NothingToAdd(merged, add[..n], removed);
      assert add[n] in add;
    }
  }

  lemma MergedTwice(current: seq<string>, add: seq<string>, remove: seq<string>)
    ensures MergedUnique(MergedUnique(current, add, remove), add, remove) == MergedUnique(current, add, remove)
  {
    var once := MergedUnique(current, add, remove);
    KeepAll(once, remove);
    NothingToAdd(once, add, remove);
  }

  // ----- folding the patches of one list -----

  /** Additions and removals of one patch for one list. */
  datatype Change = Change(add: seq<string>, remove: seq<string>)

  function OneByOne(current: seq<string>, changes: seq<Change>): seq<string>
    decreases |changes|
  {
    if changes == [] then current
    else
      var n := |changes| - 1;
      MergedUnique(OneByOne(current, changes[..n]), changes[n].add, changes[n].remove)
  }

  function Added(changes: seq<Change>): seq<string>
    decreases |changes|
  {
    if changes == [] then [] else Added(changes[..|changes| - 1]) + changes[|changes| - 1].add
  }

  function Removed(changes: seq<Change>): seq<string>
    decreases |changes|
  {
    if changes == [] then [] else Removed(changes[..|changes| - 1]) + changes[|changes| - 1].remove
  }

  function AtOnce(current: seq<string>, changes: seq<Change>): seq<string> {
    MergedUnique(current, Added(changes), Removed(changes))
  }

  lemma {:induction false} ExtendedTwice(merged: seq<string>, a: seq<string>, b: seq<string>, removed: seq<string>)
    ensures Extended(merged, a + b, removed) == Extended(Extended(merged, a, removed), b, removed)
    decreases |b|
  {
    if b == [] {
      assert a + b == a;
    } else {
      var n := |b| - 1;
      assert (a + b)[..|a + b| - 1] == a + b[..n];
      ExtendedTwice(merged, a, b[..n], removed);
    }
  }

  lemma {:induction false} KeepTwice(items: seq<string>, r: seq<string>, more: seq<string>)
    requires forall x :: x in r ==> x in more
    ensures Keep(Keep(items, r), more) == Keep(items, more)
    decreases |items|
  {
    if items == [] {
    } else {
      var n := |items| - 1;
      KeepTwice(items[..n], r, more);
      assert Keep(items[..n], r) + [items[n]] != [];
      assert (Keep(items[..n], r) + [items[n]])[..|Keep(items[..n], r)|] == Keep(items[..n], r);
    }
  }

  /** Removing more afterwards is the same as having removed more all along. */
  lemma {:induction false} KeepExtended(merged: seq<string>, add: seq<string>, r: seq<string>, more: seq<string>)
    requires forall x :: x in r ==> x in more
    ensures Keep(Extended(merged, add, r), more) == Extended(Keep(merged, more), add, more)
    decreases |add|
  {
    if add == [] {
    } else {
      var n := |add| - 1;
      var rest := Extended(merged, add[..n], r);
      KeepExtended(merged, add[..n], r, more);
      assert (rest + [add[n]])[..|rest|] == rest;
    }
  }

  /** Apart from items removed somewhere, applying one by one gives the folded list, in the same order. */
  lemma {:induction false} SameUpToRemoved(current: seq<string>, changes: seq<Change>)
    ensures Keep(OneByOne(current, changes), Removed(changes)) == AtOnce(current, changes)
    decreases |changes|
  {
    if changes == [] {
    } else {
      var n := |changes| - 1;
      var before, c := changes[..n], changes[n];
      var list, all := OneByOne(current, before), Removed(changes);
      SameUpToRemoved(current, before);
      KeepTwice(list, Removed(before), all);
      KeepExtended(Keep(current, Removed(before)), Added(before), Removed(before), all);
      KeepTwice(current, Removed(before), all);
      assert Keep(list, all) == Extended(Keep(current, all), Added(before), all);
      KeepExtended(Keep(list, c.remove), c.add, c.remove, all);
      KeepTwice(list, c.remove, all);
      ExtendedTwice(Keep(current, all), Added(before), c.add, all);
    }
  }

  /** Some patch adds the item and neither that one nor a later one removes it. */
  predicate LastAdded(changes: seq<Change>, x: string) {
    exists j :: 0 <= j < |changes| && x in changes[j].add && forall k :: j <= k < |changes| ==> x !in changes[k].remove
  }

  /** The item is removed by one patch and brought back by a later one. */
  predicate Revived(changes: seq<Change>, x: string) {
    x in Removed(changes) && LastAdded(changes, x)
  }

  lemma {:induction false} RemovedBySome(changes: seq<Change>, x: string)
    ensures x in Removed(changes) <==> exists i :: 0 <= i < |changes| && x in changes[i].remove
    decreases |changes|
  {
    if changes == [] {
    } else {
      var n := |changes| - 1;
      RemovedBySome(changes[..n], x);
      if i :| 0 <= i < n && x in changes[i].remove { assert x in changes[..n][i].remove; }
      if i :| 0 <= i < n && x in changes[..n][i].remove { assert x in changes[i].remove; }
    }
  }

  lemma LastAddedNext(changes: seq<Change>, c: Change, x: string)
    ensures LastAdded(changes + [c], x) <==> x !in c.remove && (x in c.add || LastAdded(changes, x))
  {
    var all := changes + [c];
    var n := |changes|;
    if x !in c.remove && x in c.add { assert x in all[n].add; }
    if x !in c.remove && LastAdded(changes, x) {
      var j :| 0 <= j < |changes| && x in changes[j].add && forall k :: j <= k < |changes| ==> x !in changes[k].remove;
      assert x in all[j].add;
    }
    if LastAdded(all, x) {
      var j :| 0 <= j < |all| && x in all[j].add && forall k :: j <= k < |all| ==> x !in all[k].remove;
      assert x !in all[n].remove;
      if j < n {
        assert x in changes[j].add && forall k :: j <= k < n ==> changes[k] == all[k];
      }
    }
  }

  lemma {:induction false} OneByOneHolds(current: seq<string>, changes: seq<Change>, x: string)
    ensures x in OneByOne(current, changes) <==> LastAdded(changes, x) || (x in current && x !in Removed(changes))
    decreases |changes|
  {
    if changes == [] {
    } else {
      var n := |changes| - 1;
      OneByOneHolds(current, changes[..n], x);
      assert changes == changes[..n] + [changes[n]];
      LastAddedNext(changes[..n], changes[n], x);
    }
  }

  lemma RevivedDiffers(current: seq<string>, changes: seq<Change>, x: string)
    requires Revived(changes, x)
    ensures x in OneByOne(current, changes) && x !in AtOnce(current, changes)
  {
    OneByOneHolds(current, changes, x);
    MergedHolds(current, Added(changes), Removed(changes), x);
  }

  lemma FoldUnlessRevived(current: seq<string>, changes: seq<Change>)
    requires forall x :: !Revived(changes, x)
    ensures OneByOne(current, changes) == AtOnce(current, changes)
  {
    var list, removed := OneByOne(current, changes), Removed(changes);
    forall x | x in list ensures x !in removed {
      OneByOneHolds(current, changes, x);
      assert !Revived(changes, x);
    }
    KeepAll(list, removed);
    SameUpToRemoved(current, changes);
  }

  /**
   * Folding the patches and applying them once is the same as applying them one by one exactly when nothing is revived.
   */
  lemma FoldExactly(current: seq<string>, changes: seq<Change>)
    ensures OneByOne(current, changes) == AtOnce(current, changes) <==> forall x :: !Revived(changes, x)
  {
    if x :| Revived(changes, x) {
      RevivedDiffers(current, changes, x);
    } else {
      FoldUnlessRevived(current, changes);
    }
  }

  lemma {:induction false} AddedBySome(changes: seq<Change>, x: string)
    requires exists j :: 0 <= j < |changes| && x in changes[j].add
    ensures x in Added(changes)
    decreases |changes|
  {
    var n := |changes| - 1;
    if x !in changes[n].add {
      var j :| 0 <= j < |changes| && x in changes[j].add;
      assert x in changes[..n][j].add;
      AddedBySome(changes[..n], x);
    }
  }

  /** In particular when no item is both added and removed. */
  lemma FoldWithoutConflict(current: seq<string>, changes: seq<Change>)
    requires forall x :: x in Added(changes) ==> x !in Removed(changes)
    ensures OneByOne(current, changes) == AtOnce(current, changes)
  {
    forall x ensures !Revived(changes, x) {
      if LastAdded(changes, x) { AddedBySome(changes, x); }
    }
    FoldExactly(current, changes);
  }

  /** A removal followed by an addition: one by one the item stays, folded it is gone. */
  lemma FoldLosesRevived(x: string)
    ensures var changes := [Change([], [x]), Change([x], [])];
            x in OneByOne([x], changes) && x !in AtOnce([x], changes)
  {
    var changes := [Change([], [x]), Change([x], [])];
    assert x in changes[0].remove && x in changes[1].add;
    RemovedBySome(changes, x);
    assert LastAdded(changes, x);
    RevivedDiffers([x], changes, x);
  }
}
