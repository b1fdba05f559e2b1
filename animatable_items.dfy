/**
 * The panel's ordered list of animatable items, as values: which items the
 * discrete pass prunes, and what the in-order `forEach` over the items leaves
 * in the host objects when several items may drive the same attribute.
 */
module AnimatableItems {
  import opened SwipeableItems

  /** The items whose target is alive (`keep`) or gone (`!keep`), in their original order. */
  function Filter(items: seq<Item>, s: Store, keep: bool): (r: seq<Item>)
    ensures |r| <= |items|
    ensures forall i :: 0 <= i < |r| ==> IsValid(r[i], s) == keep
  {
    if items == [] then []
    else
      var rest := Filter(items[1..], s, keep);
      if IsValid(items[0], s) == keep then [items[0]] + rest else rest
  }

  /** `animatableItems.removeAll(where: { $0.isValid == false })`. */
  function Pruned(items: seq<Item>, s: Store): seq<Item>
  {
    Filter(items, s, true)
  }

  /**
   * Pruning removes exactly the items whose target is gone: the kept and the
   * removed items together are the original items, so N items of which M are
   * invalid leave N - M.
   */
  lemma {:induction false} PrunedPartition(items: seq<Item>, s: Store)
    ensures multiset(Pruned(items, s)) + multiset(Filter(items, s, false)) == multiset(items)
    ensures |Pruned(items, s)| == |items| - |Filter(items, s, false)|
  {
    if items != [] {
      PrunedPartition(items[1..], s);
      assert items == [items[0]] + items[1..];
    }
  }

  /** Pruning a list with a given head decides that head and prunes the rest. */
  lemma PrunedCons(x: Item, rest: seq<Item>, s: Store)
    ensures Pruned([x] + rest, s) == (if IsValid(x, s) then [x] else []) + Pruned(rest, s)
  {
    assert ([x] + rest)[1..] == rest;
  }

  /** Pruning keeps the survivors in their original order: it distributes over concatenation. */
  lemma {:induction false} PrunedKeepsOrder(a: seq<Item>, b: seq<Item>, s: Store)
    ensures Pruned(a + b, s) == Pruned(a, s) + Pruned(b, s)
  {
    if a == [] {
      assert a + b == b;
    } else {
      var x, rest := a[0], a[1..];
      var head := if IsValid(x, s) then [x] else [];
      PrunedKeepsOrder(rest, b, s);
      assert a == [x] + rest;
      assert a + b == [x] + (rest + b);
      PrunedCons(x, rest + b, s);
      PrunedCons(x, rest, s);
      assert head + (Pruned(rest, s) + Pruned(b, s)) == (head + Pruned(rest, s)) + Pruned(b, s);
    }
  }

  /** A list whose targets are all alive is left as it is. */
  lemma {:induction false} PrunedOfValid(items: seq<Item>, s: Store)
    requires forall i :: 0 <= i < |items| ==> IsValid(items[i], s)
    ensures Pruned(items, s) == items
  {
    if items != [] {
      PrunedOfValid(items[1..], s);
      assert items == [items[0]] + items[1..];
    }
  }

  /** `animatableItems.forEach { $0.set(...) }`: each item applies the setting, in order. */
  function AppliedAll(s: Store, items: seq<Item>, st: Setting): Store
  {
    if |items| == 0 then s
    else Applied(AppliedAll(s, items[..|items| - 1], st), items[|items| - 1], st)
  }

  /** The value the last item driving slot `y` writes, or None when no item drives it. */
  function LastWritten(items: seq<Item>, st: Setting, y: Slot): (r: Option<Value>)
    ensures r.None? <==> forall i :: 0 <= i < |items| ==> SlotOf(items[i]) != y
  {
    if |items| == 0 then None
    else if SlotOf(items[|items| - 1]) == y then Some(Written(items[|items| - 1], st))
    else
      var r := LastWritten(items[..|items| - 1], st, y);
      assert forall i :: 0 <= i < |items| - 1 ==> items[..|items| - 1][i] == items[i];
      r
  }

  /** The last item driving an attribute decides its value. */
  lemma {:induction false} LastWriterWins(items: seq<Item>, st: Setting, k: nat)
    requires k < |items|
    requires forall j :: k < j < |items| ==> SlotOf(items[j]) != SlotOf(items[k])
    ensures LastWritten(items, st, SlotOf(items[k])) == Some(Written(items[k], st))
  {
    if k < |items| - 1 {
      var prefix := items[..|items| - 1];
      assert prefix[k] == items[k];
      LastWriterWins(prefix, st, k);
    }
  }

  /**
   * After the in-order pass, an attribute whose object is alive holds what the
   * last item driving it wrote, and every other attribute is untouched; no
   * object is released.
   */
  lemma {:induction false} ReadAppliedAll(s: Store, items: seq<Item>, st: Setting, y: Slot)
    ensures AppliedAll(s, items, st).constants.Keys == s.constants.Keys
    ensures AppliedAll(s, items, st).views.Keys == s.views.Keys
    ensures Read(AppliedAll(s, items, st), y) ==
      if Live(s, y) && LastWritten(items, st, y).Some? then LastWritten(items, st, y) else Read(s, y)
  {
    if |items| > 0 {
      var prefix := items[..|items| - 1];
      var last := items[|items| - 1];
      ReadAppliedAll(s, prefix, st, y);
      ReadAppliedAll(s, prefix, st, SlotOf(last));
      AppliedTouchesOnlyItsTarget(AppliedAll(s, prefix, st), last, st, y);
    }
  }

  /** Running the same pass twice leaves the host objects as running it once. */
  lemma {:induction false} AppliedAllIdempotent(s: Store, items: seq<Item>, st: Setting)
    ensures AppliedAll(AppliedAll(s, items, st), items, st) == AppliedAll(s, items, st)
  {
    var s1 := AppliedAll(s, items, st);
    var s2 := AppliedAll(s1, items, st);
    forall y ensures Read(s2, y) == Read(s1, y) {
      ReadAppliedAll(s, items, st, y);
      ReadAppliedAll(s1, items, st, y);
    }
    ReadAppliedAll(s, items, st, ConstantOf(0));
    ReadAppliedAll(s1, items, st, ConstantOf(0));
    StoreExtensionality(s2, s1);
  }

  /** When no two items drive the same attribute, every item whose target is alive leaves its own value. */
  lemma {:induction false} AppliedAllSetsEachItem(s: Store, items: seq<Item>, st: Setting, k: nat)
    requires k < |items| && IsValid(items[k], s)
    requires forall i, j :: 0 <= i < j < |items| ==> SlotOf(items[i]) != SlotOf(items[j])
    ensures Read(AppliedAll(s, items, st), SlotOf(items[k])) == Some(Written(items[k], st))
  {
    LastWriterWins(items, st, k);
    ReadAppliedAll(s, items, st, SlotOf(items[k]));
  }

  /**
   * The discrete pass (prune, then set every survivor) is idempotent: a second
   * pass prunes nothing and writes nothing new.
   */
  lemma {:induction false} DiscretePassIdempotent(s: Store, items: seq<Item>, e: bool)
    ensures var kept := Pruned(items, s);
            var s1 := AppliedAll(s, kept, Discrete(e));
            Pruned(kept, s1) == kept && AppliedAll(s1, kept, Discrete(e)) == s1
  {
    var kept := Pruned(items, s);
    var s1 := AppliedAll(s, kept, Discrete(e));
    forall i | 0 <= i < |kept| ensures IsValid(kept[i], s1) {
      ReadAppliedAll(s, kept, Discrete(e), SlotOf(kept[i]));
    }
    PrunedOfValid(kept, s1);
    AppliedAllIdempotent(s, kept, Discrete(e));
  }
}
