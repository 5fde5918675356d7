/** Sprite lists of pickable items and the collision query against them.
    An item is identified by a natural number; a level keeps the live items of
    one kind in a sequence, in the order they were added. What the player
    touches this tick is a set of identifiers: the collision query returns the
    live items in that set, in list order, and removing an item drops it from
    its list. */
module Pickups {

  predicate Distinct(s: seq<nat>) {
    forall i, j :: 0 <= i < j < |s| ==> s[i] != s[j]
  }

  /** The live items the player overlaps, in list order: what
      `check_for_collision_with_list` returns. */
  function Touched(items: seq<nat>, touched: set<nat>): (r: seq<nat>)
    ensures |r| <= |items|
  {
    if items == [] then []
    else
      var last := items[|items| - 1];
      Touched(items[..|items| - 1], touched) + (if last in touched then [last] else [])
  }

  /** The list after every touched item has been removed from it. */
  function Untouched(items: seq<nat>, touched: set<nat>): (r: seq<nat>)
    ensures |r| <= |items|
  {
    if items == [] then []
    else
      var last := items[|items| - 1];
      Untouched(items[..|items| - 1], touched) + (if last in touched then [] else [last])
  }

  /** The collision query returns exactly the live items that are touched. */
  lemma {:induction false} TouchedMembers(items: seq<nat>, touched: set<nat>)
    ensures forall x :: x in Touched(items, touched) <==> x in items && x in touched
  {
    if items != [] {
      var init := items[..|items| - 1];
      TouchedMembers(init, touched);
      assert items == init + [items[|items| - 1]];
    }
  }

  /** The collision query is non-empty exactly when some live item is touched. */
  lemma TouchedNonEmpty(items: seq<nat>, touched: set<nat>)
    ensures Touched(items, touched) != [] <==> exists x :: x in items && x in touched
  {
    TouchedMembers(items, touched);
    if exists x :: x in items && x in touched {
      var x :| x in items && x in touched;
      assert x in Touched(items, touched);
    }
  }

  /** What remains is exactly the live items that were not touched. */
  lemma {:induction false} UntouchedMembers(items: seq<nat>, touched: set<nat>)
    ensures forall x :: x in Untouched(items, touched) <==> x in items && x !in touched
  {
    if items != [] {
      var init := items[..|items| - 1];
      UntouchedMembers(init, touched);
      assert items == init + [items[|items| - 1]];
    }
  }

  /** Every item is either collected or left in place: the two counts add up. */
  lemma {:induction false} SplitCounts(items: seq<nat>, touched: set<nat>)
    ensures |Touched(items, touched)| + |Untouched(items, touched)| == |items|
  {
    if items != [] {
      SplitCounts(items[..|items| - 1], touched);
    }
  }

  /** Removing items keeps the identifiers of a list distinct. */
  lemma {:induction false} UntouchedDistinct(items: seq<nat>, touched: set<nat>)
    requires Distinct(items)
    ensures Distinct(Untouched(items, touched))
  {
    if items != [] {
      var init := items[..|items| - 1];
      assert Distinct(init);
      UntouchedDistinct(init, touched);
      UntouchedMembers(init, touched);
      assert items[|items| - 1] !in init;
    }
  }

  /** Touching nothing that is live leaves the list as it is. */
  lemma {:induction false} UntouchedWhenNoneTouched(items: seq<nat>, touched: set<nat>)
    requires Touched(items, touched) == []
    ensures Untouched(items, touched) == items
  {
    if items != [] {
      var init, last := items[..|items| - 1], items[|items| - 1];
      assert Touched(items, touched) == Touched(init, touched) + (if last in touched then [last] else []);
      assert last !in touched && Touched(init, touched) == [];
      UntouchedWhenNoneTouched(init, touched);
      assert init + [last] == items;
    }
  }

  /** The pickup loop: walk the list, remove each touched item and count it.
      Returns the remaining list and the number of items collected. */
  method RemoveTouched(items: seq<nat>, touched: set<nat>) returns (kept: seq<nat>, collected: nat)
    ensures kept == Untouched(items, touched)
    ensures collected == |Touched(items, touched)|
    ensures collected + |kept| == |items|
  {
    kept, collected := [], 0;
    var i := 0;
    while i < |items|
      invariant 0 <= i <= |items|
      invariant kept == Untouched(items[..i], touched)
      invariant collected == |Touched(items[..i], touched)|
    {
      assert items[..i + 1][..i] == items[..i];
      if items[i] in touched {
        collected := collected + 1;
      } else {
        kept := kept + [items[i]];
      }
      i := i + 1;
    }
    assert items[..i] == items;
    SplitCounts(items, touched);
  }
}
