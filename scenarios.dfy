/**
 * Clients of the panel on concrete values: a vertical driving layout from 0 to
 * 200 with an alpha item from 0 to 1, dragged 150 points down and then
 * released slowly. The assertions follow from the contracts alone.
 */
module Scenarios {
  import opened SwipeableItems
  import opened AnimatableItems
  import opened Panel

  /** A drag of 150 points moves the layout to 75%, logs one did-pan and resets the translation. */
  method DragScenario()
  {
    var layout := LayoutItem(0, true, 0.0, 200.0);
    var host := new Host(Store(map[0 := 0.0], map[]));
    var panel := new SwipeableView(layout);

    var gesture := new PanGesture();
    gesture.translation := Point(0.0, 150.0);
    assert panel.Translation(gesture) == Point(0.0, 150.0);
    panel.PanChanged(gesture, host);

    // The drag stays in range: the constant becomes 150 and the percentage 0.75.
    assert Clamp(150.0, 0.0, 200.0) == 150.0;
    assert PercentageOf(layout, 150.0) == 0.75 by {
      assert (150.0 - 0.0) / (200.0 - 0.0) == 0.75;
    }
    assert panel.events == [DidPan(0.75)];
    assert panel.currentPercentage == 0.75 && panel.oldPercentage == 0.0;
    assert gesture.translation == ZeroPoint;
  }

  /** During a drag the alpha item reads the percentage the panel records. */
  method DragItemScenario()
  {
    var layout := LayoutItem(0, true, 0.0, 200.0);
    var fade := Alpha(0, 0.0, 1.0);
    var black := Rgba(0.0, 0.0, 0.0, 1.0);
    var host := new Host(Store(map[0 := 0.0], map[0 := ViewState(0.0, Point(0.0, 0.0), black, black)]));
    var panel := new SwipeableView(layout);
    panel.AddAnimatableItem(fade, host);
    assert panel.animatableItems == [fade];

    var gesture := new PanGesture();
    gesture.translation := Point(0.0, 150.0);
    ghost var s0 := host.Snapshot();
    assert 0 in s0.views && 0 in s0.constants;
    assert panel.Translation(gesture) == Point(0.0, 150.0);
    panel.PanChanged(gesture, host);

    ghost var c := Clamp(s0.constants[0] + 150.0, 0.0, 200.0);
    AlphaFollowsDrag(s0, c, PercentageOf(layout, c));
    assert Read(host.Snapshot(), AlphaOf(0)) == Some(Scalar(panel.currentPercentage));
  }

  /** Whatever the driving constant becomes, a live alpha item from 0 to 1 reads the drag's percentage. */
  lemma AlphaFollowsDrag(s0: Store, c: real, p: real)
    requires 0 in s0.views
    ensures Read(AppliedAll(Write(s0, ConstantOf(0), Scalar(c)), [Alpha(0, 0.0, 1.0)], Continuous(p)), AlphaOf(0))
            == Some(Scalar(p))
  {
    var s1 := Write(s0, ConstantOf(0), Scalar(c));
    ReadAfterWrite(s0, ConstantOf(0), Scalar(c), AlphaOf(0));
    ReadAppliedAll(s1, [Alpha(0, 0.0, 1.0)], Continuous(p), AlphaOf(0));
  }

  /** A slow release at 75% expands the panel, past the default notch of 0.5, with one did-expand. */
  method ReleaseScenario()
  {
    var layout := LayoutItem(0, true, 0.0, 200.0);
    var host := new Host(Store(map[0 := 150.0], map[]));
    var panel := new SwipeableView(layout);
    panel.SetCurrentPercentage(0.75);
    var gesture := new PanGesture();
    gesture.velocity := Point(0.0, 40.0);
    assert SettleExpanded(true, gesture.velocity, 0.0, 0.75, 0.5) by {
      SettleSlowUsesNotch(true, gesture.velocity, 0.0, 0.75, 0.5);
    }
    panel.FinalizeStateEnded(gesture, host);
    assert panel.expanded && panel.currentPercentage == 1.0 && panel.oldPercentage == 0.75;
    assert panel.events == [DidExpand(false)];
  }

  /** The same release writes the driving layout's end value, 200, to its constant. */
  method ReleaseLayoutScenario()
  {
    var layout := LayoutItem(0, true, 0.0, 200.0);
    var host := new Host(Store(map[0 := 150.0], map[]));
    ghost var s0 := host.Snapshot();
    var panel := new SwipeableView(layout);
    panel.SetCurrentPercentage(0.75);
    var gesture := new PanGesture();
    gesture.velocity := Point(0.0, 40.0);
    assert SettleExpanded(true, gesture.velocity, 0.0, 0.75, 0.5) by {
      SettleSlowUsesNotch(true, gesture.velocity, 0.0, 0.75, 0.5);
    }
    panel.FinalizeStateEnded(gesture, host);
    ghost var s1 := Applied(s0, Layout(layout), Discrete(true));
    assert Pruned([], s1) == [];
    assert host.Snapshot() == s1;
    assert host.constants[0] == 200.0;
  }

  /** A layout running from 100 down to 0 reads its percentage in the direction of travel. */
  method InvertedLayoutScenario()
  {
    var layout := LayoutItem(0, true, 100.0, 0.0);
    assert PercentageOf(layout, 100.0) == 0.0;
    assert PercentageOf(layout, 0.0) == 1.0;
    assert PercentageOf(layout, 50.0) == 0.5;
  }
}
