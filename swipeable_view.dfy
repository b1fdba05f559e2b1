/**
 * The swipeable panel: its expanded / collapsed state, the percentage it has
 * been dragged to, the animatable items it drives in lockstep, and the pan
 * gesture state machine (began, changed, ended) that moves the driving layout
 * constant, coordinates with a nested scroll view and settles the panel when
 * the finger lifts.
 *
 * The delegate is modelled as the log `events` of the notifications it would
 * receive; an animated transition is applied at once and its notification
 * appended to the log.
 */
module Panel {
  import opened SwipeableItems
  import opened AnimatableItems

  datatype Size = Size(width: real, height: real)

  /** The edge the swipe indicator is anchored to. */
  datatype IndicatorPosition = Top | Bottom | Left | Right

  /** The delegate notifications. */
  datatype Event = DidExpand(previousState: bool) | DidCollapse(previousState: bool) | DidPan(percentage: real)

  datatype GestureState = Possible | Began | Changed | Ended | Cancelled | Failed

  const ZeroPoint := Point(0.0, 0.0)
  const ZeroSize := Size(0.0, 0.0)

  /** The end velocity, per axis, above which a release completes the transition in the direction of travel. */
  const EndVelocityThreshold := Point(100.0, 100.0)

  function Abs(x: real): real { if x < 0.0 then -x else x }

  /** A pan gesture recognizer: its accumulated translation and its velocity. */
  class PanGesture {
    var state: GestureState
    var translation: Point
    var velocity: Point

    constructor ()
      ensures state == Possible && translation == ZeroPoint && velocity == ZeroPoint
    {
      state := Possible;
      translation := ZeroPoint;
      velocity := ZeroPoint;
    }
  }

  /** A scroll view nested in the panel, with its own pan gesture recognizer. */
  class ScrollView {
    const panGestureRecognizer: PanGesture
    var contentOffset: Point
    var contentSize: Size
    var boundsSize: Size

    constructor (contentOffset: Point, contentSize: Size, boundsSize: Size)
      ensures fresh(panGestureRecognizer)
      ensures this.contentOffset == contentOffset && this.contentSize == contentSize && this.boundsSize == boundsSize
    {
      panGestureRecognizer := new PanGesture();
      this.contentOffset := contentOffset;
      this.contentSize := contentSize;
      this.boundsSize := boundsSize;
    }
  }

  /**
   * The settle rule when the finger lifts: a release faster than the threshold
   * on the driving layout's axis, after the percentage moved, completes the
   * transition in the direction of travel; otherwise the panel expands exactly
   * when the current percentage reaches the notch threshold.
   */
  function SettleExpanded(isVerticalAxis: bool, velocity: Point, oldPercentage: real, currentPercentage: real,
                          notchThreshold: real): bool
  {
    var exceedX := Abs(velocity.x) > Abs(EndVelocityThreshold.x);
    var exceedY := Abs(velocity.y) > Abs(EndVelocityThreshold.y);
    var expandCollapseToEnd := (isVerticalAxis && exceedY) || (!isVerticalAxis && exceedX);
    if expandCollapseToEnd && oldPercentage != currentPercentage then oldPercentage < currentPercentage
    else currentPercentage >= notchThreshold
  }

  /**
   * A fast release settles in the direction the percentage last moved, whatever
   * the notch threshold; when the percentage did not move it falls back to the
   * notch.
   */
  lemma SettleFollowsFlick(isVerticalAxis: bool, velocity: Point, oldPercentage: real, currentPercentage: real,
                           notchThreshold: real)
    requires Abs(if isVerticalAxis then velocity.y else velocity.x) > 100.0
    ensures currentPercentage > oldPercentage ==>
      SettleExpanded(isVerticalAxis, velocity, oldPercentage, currentPercentage, notchThreshold)
    ensures currentPercentage < oldPercentage ==>
      !SettleExpanded(isVerticalAxis, velocity, oldPercentage, currentPercentage, notchThreshold)
    ensures currentPercentage == oldPercentage ==>
      (SettleExpanded(isVerticalAxis, velocity, oldPercentage, currentPercentage, notchThreshold)
       <==> currentPercentage >= notchThreshold)
  {
  }

  /** A release at or below the threshold speed settles by the notch threshold alone, whatever the direction. */
  lemma SettleSlowUsesNotch(isVerticalAxis: bool, velocity: Point, oldPercentage: real, currentPercentage: real,
                            notchThreshold: real)
    requires Abs(if isVerticalAxis then velocity.y else velocity.x) <= 100.0
    ensures SettleExpanded(isVerticalAxis, velocity, oldPercentage, currentPercentage, notchThreshold)
      <==> currentPercentage >= notchThreshold
  {
  }

  /** Only the velocity along the driving layout's axis takes part in the decision. */
  lemma SettleIgnoresOffAxis(isVerticalAxis: bool, v1: Point, v2: Point, oldPercentage: real, currentPercentage: real,
                             notchThreshold: real)
    requires if isVerticalAxis then v1.y == v2.y else v1.x == v2.x
    ensures SettleExpanded(isVerticalAxis, v1, oldPercentage, currentPercentage, notchThreshold)
      == SettleExpanded(isVerticalAxis, v2, oldPercentage, currentPercentage, notchThreshold)
  {
  }

  /** The offset at which a coordinated scroll view is held once the panel has taken over its drag. */
  function HeldOffset(position: IndicatorPosition, offset: Point, limit: Size): Point
  {
    match position
    case Top => Point(offset.x, 0.0)
    case Bottom => Point(offset.x, limit.height)
    case Left => Point(0.0, offset.y)
    case Right => Point(limit.width, offset.y)
  }

  /**
   * A drag step on the driving layout: the constant is clamped into its bounds
   * and the percentage read back is that of the clamped constant, in [0, 1].
   */
  lemma {:induction false} DragStepPercentage(l: LayoutItem, s: Store, value: real)
    requires l.constraint in s.constants && l.start != l.end
    ensures var c := Clamp(value, Min(l.start, l.end), Max(l.start, l.end));
            var s' := Write(s, ConstantOf(l.constraint), Scalar(c));
            && Percentage(l, s') == PercentageOf(l, c)
            && 0.0 <= PercentageOf(l, c) <= 1.0
  {
    var c := Clamp(value, Min(l.start, l.end), Max(l.start, l.end));
    ReadAfterWrite(s, ConstantOf(l.constraint), Scalar(c), ConstantOf(l.constraint));
    ClampedWriteStaysBetween(l, s, value);
  }

  /**
   * After a discrete transition the driving layout rests at percentage 1
   * (expanded) or 0 (collapsed), unless an animatable item drives the same
   * constraint.
   */
  lemma {:induction false} DrivingLayoutAtRest(s: Store, l: LayoutItem, items: seq<Item>, e: bool)
    requires l.start != l.end
    requires forall i :: 0 <= i < |items| ==> SlotOf(items[i]) != ConstantOf(l.constraint)
    ensures var s' := AppliedAll(Applied(s, Layout(l), Discrete(e)), items, Discrete(e));
            l.constraint in s'.constants ==> Percentage(l, s') == if e then 1.0 else 0.0
  {
    var s1 := Applied(s, Layout(l), Discrete(e));
    ReadAppliedAll(s1, items, Discrete(e), ConstantOf(l.constraint));
    AppliedTouchesOnlyItsTarget(s, Layout(l), Discrete(e), ConstantOf(l.constraint));
    if l.constraint in s.constants {
      LayoutExpandedPercentage(l, s, e);
    }
  }

  class SwipeableView {
    var expanded: bool
    var currentPercentage: real
    var oldPercentage: real
    var animatableItems: seq<Item>

    /** The driving layout item, which the gesture moves directly. */
    var flexibleLayout: LayoutItem
    var isPanGestureInverted: bool
    var notchThreshold: real

    var childViewInteractionOnExpandedOnly: bool
    /** The user-interaction flag of the child view container. */
    var childViewInteractionEnabled: bool

    var isSwipeIndicatorVisible: bool
    var hideIndicatorWhenExpanded: bool
    /** Whether the swipe edge view is currently shown. */
    var indicatorShown: bool
    var indicatorPosition: IndicatorPosition

    var handleCoordinatedScrollView: bool
    /** Weak reference to the coordinated scroll view, null when there is none or it is gone. */
    var coordinatedScrollView: ScrollView?
    var coordScrollInitOffset: Point
    var coordScrollInitiSize: Size

    /** Whether the panel is in a view tree, which the pan handling needs. */
    var hasSuperview: bool

    /** The notifications received by the delegate, oldest first. */
    var events: seq<Event>

    /** The recorded percentages stay within [0, 1]. */
    ghost predicate Valid()
      reads this
    {
      0.0 <= currentPercentage <= 1.0 && 0.0 <= oldPercentage <= 1.0
    }

    constructor (flexibleLayout: LayoutItem)
      ensures Valid()
      ensures this.flexibleLayout == flexibleLayout
      ensures !expanded && currentPercentage == 0.0 && oldPercentage == 0.0
      ensures animatableItems == [] && events == []
      ensures notchThreshold == 0.5 && !isPanGestureInverted && indicatorPosition == Top
      ensures coordinatedScrollView == null && !handleCoordinatedScrollView
      ensures coordScrollInitOffset == ZeroPoint && coordScrollInitiSize == ZeroSize
      ensures childViewInteractionOnExpandedOnly && childViewInteractionEnabled
      ensures isSwipeIndicatorVisible && !hideIndicatorWhenExpanded && indicatorShown
      ensures hasSuperview
    {
      expanded := false;
      currentPercentage := 0.0;
      oldPercentage := 0.0;
      animatableItems := [];
      this.flexibleLayout := flexibleLayout;
      isPanGestureInverted := false;
      notchThreshold := 0.5;
      childViewInteractionOnExpandedOnly := true;
      childViewInteractionEnabled := true;
      isSwipeIndicatorVisible := true;
      hideIndicatorWhenExpanded := false;
      indicatorShown := true;
      indicatorPosition := Top;
      handleCoordinatedScrollView := false;
      coordinatedScrollView := null;
      coordScrollInitOffset := ZeroPoint;
      coordScrollInitiSize := ZeroSize;
      hasSuperview := true;
      events := [];
    }

    /** `currentPercentage` with its `didSet`: every assignment keeps the prior value in `oldPercentage`. */
    method SetCurrentPercentage(p: real)
      requires 0.0 <= p <= 1.0
      modifies this`currentPercentage, this`oldPercentage
      ensures currentPercentage == p && oldPercentage == old(currentPercentage)
      ensures old(Valid()) ==> Valid()
    {
      oldPercentage := currentPercentage;
      currentPercentage := p;
    }

    /** `isChildViewInteractionAllowed`: the child is interactive unless collapsed with interaction restricted to the expanded state. */
    function IsChildViewInteractionAllowed(): (r: bool)
      reads this
      ensures r <==> expanded || !childViewInteractionOnExpandedOnly
    {
      if !expanded && childViewInteractionOnExpandedOnly then false else true
    }

    /** `childViewInteractionOnExpandedOnly` with its `didSet`. */
    method SetChildViewInteractionOnExpandedOnly(v: bool)
      modifies this`childViewInteractionOnExpandedOnly, this`childViewInteractionEnabled
      ensures childViewInteractionOnExpandedOnly == v
      ensures childViewInteractionEnabled == IsChildViewInteractionAllowed()
    {
      childViewInteractionOnExpandedOnly := v;
      childViewInteractionEnabled := IsChildViewInteractionAllowed();
    }

    /** `isSwipeIndicatorVisible` with its `didSet`: the indicator stays hidden while expanded when so configured. */
    method SetSwipeIndicatorVisible(v: bool)
      modifies this`isSwipeIndicatorVisible, this`indicatorShown
      ensures isSwipeIndicatorVisible == v
      ensures indicatorShown == if v == old(isSwipeIndicatorVisible) then old(indicatorShown)
                                else v && !(expanded && hideIndicatorWhenExpanded)
    {
      var oldValue := isSwipeIndicatorVisible;
      isSwipeIndicatorVisible := v;
      if isSwipeIndicatorVisible == oldValue { return; }
      if isSwipeIndicatorVisible && expanded && hideIndicatorWhenExpanded {
        indicatorShown := false;
      } else {
        indicatorShown := isSwipeIndicatorVisible;
      }
    }

    /** `hideIndicatorWhenExpanded` with its `didSet`. */
    method SetHideIndicatorWhenExpanded(v: bool)
      modifies this`hideIndicatorWhenExpanded, this`indicatorShown
      ensures hideIndicatorWhenExpanded == v
      ensures indicatorShown == if v == old(hideIndicatorWhenExpanded) then old(indicatorShown)
                                else isSwipeIndicatorVisible && !(expanded && v)
    {
      var oldValue := hideIndicatorWhenExpanded;
      hideIndicatorWhenExpanded := v;
      if hideIndicatorWhenExpanded == oldValue { return; }
      if expanded && hideIndicatorWhenExpanded {
        indicatorShown := false;
      } else {
        indicatorShown := isSwipeIndicatorVisible;
      }
    }

    /** `coordinatedScrollView` with its `didSet`: a different scroll view discards the captured offset and size. */
    method SetCoordinatedScrollView(scrollView: ScrollView?)
      modifies this`coordinatedScrollView, this`coordScrollInitOffset, this`coordScrollInitiSize
      ensures coordinatedScrollView == scrollView
      ensures scrollView != old(coordinatedScrollView) ==> coordScrollInitOffset == ZeroPoint && coordScrollInitiSize == ZeroSize
      ensures scrollView == old(coordinatedScrollView) ==>
        coordScrollInitOffset == old(coordScrollInitOffset) && coordScrollInitiSize == old(coordScrollInitiSize)
    {
      var oldValue := coordinatedScrollView;
      coordinatedScrollView := scrollView;
      if oldValue != coordinatedScrollView {
        coordScrollInitOffset := ZeroPoint;
        coordScrollInitiSize := ZeroSize;
      }
    }

    // -------------------------------------------------------------------------
    // Animatable items
    // -------------------------------------------------------------------------

    /**
     * `addAnimatableItem`: the item first takes the panel's current percentage,
     * then joins the end of the list.
     */
    method AddAnimatableItem(item: Item, host: Host)
      modifies this`animatableItems, host
      ensures host.Snapshot() == Applied(old(host.Snapshot()), item, Continuous(currentPercentage))
      ensures animatableItems == old(animatableItems) + [item]
      ensures Valid() ==> WithinBounds(item, Written(item, Continuous(currentPercentage)))
    {
      SetPercentage(host, item, currentPercentage);
      animatableItems := animatableItems + [item];
      if Valid() {
        WrittenWithinBounds(item, currentPercentage);
      }
    }

    /** `removeAllAnimatableItems`. */
    method RemoveAllAnimatableItems()
      modifies this`animatableItems
      ensures animatableItems == []
    {
      animatableItems := [];
    }

    /**
     * `expandAnimatableItems(_:)`: prunes the items whose target is gone, then
     * sets every survivor, in order, to the requested state.
     */
    method ExpandAnimatableItems(expand: bool, host: Host)
      modifies this`animatableItems, host
      ensures animatableItems == Pruned(old(animatableItems), old(host.Snapshot()))
      ensures forall i :: 0 <= i < |animatableItems| ==> IsValid(animatableItems[i], host.Snapshot())
      ensures host.Snapshot() == AppliedAll(old(host.Snapshot()), animatableItems, Discrete(expand))
    {
      animatableItems := Pruned(animatableItems, host.Snapshot());
      var items := animatableItems;
      ghost var s0 := host.Snapshot();
      forall i | 0 <= i < |items| ensures IsValid(items[i], AppliedAll(s0, items, Discrete(expand))) {
        ReadAppliedAll(s0, items, Discrete(expand), SlotOf(items[i]));
      }
      if items == [] { return; }
      var i := 0;
      while i < |items|
        invariant 0 <= i <= |items|
        invariant animatableItems == items
        invariant host.Snapshot() == AppliedAll(s0, items[..i], Discrete(expand))
      {
        SetExpanded(host, items[i], expand);
        assert items[..i + 1][..i] == items[..i];
        i := i + 1;
      }
      assert items[..|items|] == items;
    }

    /**
     * `expandAnimatableItems(withPercentage:)`: sets every item, valid or not,
     * to the percentage; a negative percentage (the -1 of a missing layout)
     * changes nothing. The list itself is never touched.
     */
    method ExpandAnimatableItemsWithPercentage(percentage: real, host: Host)
      modifies host
      ensures host.Snapshot() ==
        if percentage >= 0.0 then AppliedAll(old(host.Snapshot()), animatableItems, Continuous(percentage))
        else old(host.Snapshot())
    {
      if animatableItems == [] { return; }
      if !(percentage >= 0.0) { return; }
      var items := animatableItems;
      ghost var s0 := host.Snapshot();
      var i := 0;
      while i < |items|
        invariant 0 <= i <= |items|
        invariant host.Snapshot() == AppliedAll(s0, items[..i], Continuous(percentage))
      {
        SetPercentage(host, items[i], percentage);
        assert items[..i + 1][..i] == items[..i];
        i := i + 1;
      }
      assert items[..|items|] == items;
    }

    // -------------------------------------------------------------------------
    // Expand / collapse
    // -------------------------------------------------------------------------

    /**
     * The panel's own state after an expand / collapse transition from the
     * state in `old`: the flag and the percentage 1 or 0 (the prior one kept as
     * old), the child interaction and the indicator updated, and exactly one
     * did-expand / did-collapse carrying `wasExpanded`.
     */
    twostate predicate Switched(expand: bool, wasExpanded: bool)
      reads this
    {
      && expanded == expand
      && currentPercentage == (if expand then 1.0 else 0.0) && oldPercentage == old(currentPercentage)
      && childViewInteractionEnabled ==
           (if childViewInteractionOnExpandedOnly then expand else old(childViewInteractionEnabled))
      && indicatorShown ==
           (if expand && hideIndicatorWhenExpanded then false
            else if !expand then isSwipeIndicatorVisible
            else old(indicatorShown))
      && events == old(events) + [if expand then DidExpand(wasExpanded) else DidCollapse(wasExpanded)]
    }

    /** The host side of a transition: the driving layout and then the pruned items set to the state. */
    twostate predicate Animated(expand: bool, host: Host)
      reads this, host
    {
      var s1 := Applied(old(host.Snapshot()), Layout(flexibleLayout), Discrete(expand));
      && animatableItems == Pruned(old(animatableItems), s1)
      && host.Snapshot() == AppliedAll(s1, animatableItems, Discrete(expand))
    }

    /** The whole expand / collapse transition from the state in `old`. */
    twostate predicate Transitioned(expand: bool, wasExpanded: bool, host: Host)
      reads this, host
    {
      Switched(expand, wasExpanded) && Animated(expand, host)
    }

    /**
     * At rest the driving layout reads the recorded percentage, unless it is
     * gone, degenerate, or an animatable item drives the same constraint.
     */
    predicate AtRest(host: Host)
      reads this, host
    {
      flexibleLayout.constraint in host.constants && flexibleLayout.start != flexibleLayout.end
      && (forall i :: 0 <= i < |animatableItems| ==> SlotOf(animatableItems[i]) != ConstantOf(flexibleLayout.constraint))
      ==> Percentage(flexibleLayout, host.Snapshot()) == currentPercentage
    }

    /**
     * `expand(_:wasExpanded:animated:)`: records the state and the percentage 1
     * or 0, updates the child interaction and the indicator, sets the driving
     * layout and the (pruned) items to the state and notifies exactly one of
     * did-expand / did-collapse with `wasExpanded`. An animated transition only
     * delays the notification, so both paths end in the same state.
     */
    method ExpandFrom(expand: bool, wasExpanded: bool, animated: bool, host: Host)
      requires Valid()
      modifies this`expanded, this`currentPercentage, this`oldPercentage, this`childViewInteractionEnabled
      modifies this`indicatorShown, this`animatableItems, this`events, host
      ensures Valid()
      ensures Switched(expand, wasExpanded)
      ensures Animated(expand, host)
      ensures AtRest(host)
    {
      expanded := expand;
      SetCurrentPercentage(if expand then 1.0 else 0.0);
      if childViewInteractionOnExpandedOnly {
        childViewInteractionEnabled := expand;
      }
      if expand && hideIndicatorWhenExpanded {
        ShowSwipeEdgeView(false);
      } else if !expand {
        ShowSwipeEdgeView(isSwipeIndicatorVisible);
      }
      AnimateTransition(expand, host);
      if expand {
        events := events + [DidExpand(wasExpanded)];
      } else {
        events := events + [DidCollapse(wasExpanded)];
      }
    }

    /** `showSwipeEdgeView`: shows or hides the swipe indicator. */
    method ShowSwipeEdgeView(show: bool)
      modifies this`indicatorShown
      ensures indicatorShown == show
    {
      indicatorShown := show;
    }

    /**
     * The animations of a transition: the driving layout and then the pruned
     * animatable items take the discrete state. At rest the driving layout
     * reads percentage 1 (expanded) or 0 (collapsed) unless an item drives the
     * same constraint.
     */
    method AnimateTransition(expand: bool, host: Host)
      modifies this`animatableItems, host
      ensures Animated(expand, host)
      ensures flexibleLayout.constraint in host.constants && flexibleLayout.start != flexibleLayout.end
              && (forall i :: 0 <= i < |animatableItems| ==> SlotOf(animatableItems[i]) != ConstantOf(flexibleLayout.constraint))
              ==> Percentage(flexibleLayout, host.Snapshot()) == if expand then 1.0 else 0.0
    {
      ghost var s0 := host.Snapshot();
      SetExpanded(host, Layout(flexibleLayout), expand);
      ExpandAnimatableItems(expand, host);
      if flexibleLayout.start != flexibleLayout.end
         && forall i :: 0 <= i < |animatableItems| ==> SlotOf(animatableItems[i]) != ConstantOf(flexibleLayout.constraint)
      {
        DrivingLayoutAtRest(s0, flexibleLayout, animatableItems, expand);
      }
    }

    /** `expand(_:animated:)`: the transition from the current state. */
    method Expand(expand: bool, animated: bool, host: Host)
      requires Valid()
      modifies this`expanded, this`currentPercentage, this`oldPercentage, this`childViewInteractionEnabled
      modifies this`indicatorShown, this`animatableItems, this`events, host
      ensures Valid()
      ensures Transitioned(expand, old(expanded), host)
      ensures AtRest(host)
    {
      ExpandFrom(expand, expanded, animated, host);
    }

    /** The `isExpanded` setter, which always takes the animated path. */
    method SetIsExpanded(newValue: bool, host: Host)
      requires Valid()
      modifies this`expanded, this`currentPercentage, this`oldPercentage, this`childViewInteractionEnabled
      modifies this`indicatorShown, this`animatableItems, this`events, host
      ensures Valid()
      ensures Transitioned(newValue, old(expanded), host)
      ensures AtRest(host)
    {
      ExpandFrom(newValue, expanded, true, host);
    }

    // -------------------------------------------------------------------------
    // The pan gesture
    // -------------------------------------------------------------------------

    /** Whether `sender` is the pan gesture recognizer of the coordinated scroll view. */
    predicate IsFromCoordinatedScroll(sender: PanGesture)
      reads this`coordinatedScrollView
    {
      coordinatedScrollView != null && sender == coordinatedScrollView.panGestureRecognizer
    }

    /**
     * `translation(for:in:)`: the recognizer's translation, shifted on the
     * indicator's axis by the captured scroll offset when the gesture comes
     * from the coordinated scroll view and the panel is expanded.
     */
    function Translation(sender: PanGesture): (r: Point)
      reads this, sender
      ensures !(IsFromCoordinatedScroll(sender) && expanded) ==> r == sender.translation
      ensures indicatorPosition == Top || indicatorPosition == Bottom ==> r.x == sender.translation.x
      ensures indicatorPosition == Left || indicatorPosition == Right ==> r.y == sender.translation.y
      ensures IsFromCoordinatedScroll(sender) && expanded && indicatorPosition == Top ==>
        r.y == sender.translation.y - coordScrollInitOffset.y
      ensures IsFromCoordinatedScroll(sender) && expanded && indicatorPosition == Bottom ==>
        r.y == sender.translation.y + (coordScrollInitiSize.height - coordScrollInitOffset.y)
      ensures IsFromCoordinatedScroll(sender) && expanded && indicatorPosition == Left ==>
        r.x == sender.translation.x - coordScrollInitOffset.x
      ensures IsFromCoordinatedScroll(sender) && expanded && indicatorPosition == Right ==>
        r.x == sender.translation.x + (coordScrollInitiSize.width - coordScrollInitOffset.x)
    {
      var translation := sender.translation;
      if IsFromCoordinatedScroll(sender) then
        if expanded then
          match indicatorPosition
          case Top => translation.(y := translation.y - coordScrollInitOffset.y)
          case Bottom => translation.(y := translation.y + (coordScrollInitiSize.height - coordScrollInitOffset.y))
          case Left => translation.(x := translation.x - coordScrollInitOffset.x)
          case Right => translation.(x := translation.x + (coordScrollInitiSize.width - coordScrollInitOffset.x))
        else translation
      else translation
    }

    /** The move of the driving constant for a translation: its axis component, negated when the pan is inverted. */
    function LayoutDelta(translation: Point): real
      reads this`flexibleLayout, this`isPanGestureInverted
    {
      (if flexibleLayout.isVerticalAxis then translation.y else translation.x) * (if isPanGestureInverted then -1.0 else 1.0)
    }

    /** Whether `handlePan` ignores the event: a coordinated-scroll gesture not to be handled, no superview, or no driving layout. */
    predicate Ignores(sender: PanGesture, host: Host)
      reads this, host
    {
      || (!handleCoordinatedScrollView && IsFromCoordinatedScroll(sender))
      || !hasSuperview
      || flexibleLayout.constraint !in host.constants
    }

    /** The began phase: a gesture from the coordinated scroll view captures its offset and scrollable extent. */
    method PanBegan(sender: PanGesture)
      modifies this`coordScrollInitOffset, this`coordScrollInitiSize
      ensures IsFromCoordinatedScroll(sender) ==>
        && coordScrollInitOffset == coordinatedScrollView.contentOffset
        && coordScrollInitiSize == Size(coordinatedScrollView.contentSize.width - coordinatedScrollView.boundsSize.width,
                                        coordinatedScrollView.contentSize.height - coordinatedScrollView.boundsSize.height)
      ensures !IsFromCoordinatedScroll(sender) ==>
        coordScrollInitOffset == old(coordScrollInitOffset) && coordScrollInitiSize == old(coordScrollInitiSize)
    {
      if IsFromCoordinatedScroll(sender) {
        var scrollView := coordinatedScrollView;
        coordScrollInitOffset := scrollView.contentOffset;
        coordScrollInitiSize := Size(scrollView.contentSize.width - scrollView.boundsSize.width,
                                     scrollView.contentSize.height - scrollView.boundsSize.height);
      }
    }

    /**
     * `finalizeStateChanged`: after an in-range write, a coordinated scroll
     * view is held at its edge (when expanded), the captured offset is zeroed
     * for the top and left anchors only, and the translation is reset.
     */
    method FinalizeStateChanged(sender: PanGesture, didApply: bool)
      modifies this`coordScrollInitOffset, sender`translation, coordinatedScrollView
      ensures sender.translation == if didApply then ZeroPoint else old(sender.translation)
      ensures coordScrollInitOffset ==
        if didApply && IsFromCoordinatedScroll(sender) && (indicatorPosition == Top || indicatorPosition == Left)
        then ZeroPoint else old(coordScrollInitOffset)
      ensures coordinatedScrollView != null ==>
        coordinatedScrollView.contentOffset ==
          if didApply && IsFromCoordinatedScroll(sender) && expanded
          then HeldOffset(indicatorPosition, old(coordinatedScrollView.contentOffset),
                          Size(coordinatedScrollView.contentSize.width - coordinatedScrollView.boundsSize.width,
                               coordinatedScrollView.contentSize.height - coordinatedScrollView.boundsSize.height))
          else old(coordinatedScrollView.contentOffset)
      ensures coordinatedScrollView != null ==>
        && coordinatedScrollView.contentSize == old(coordinatedScrollView.contentSize)
        && coordinatedScrollView.boundsSize == old(coordinatedScrollView.boundsSize)
    {
      if didApply {
        if IsFromCoordinatedScroll(sender) {
          var scrollView := coordinatedScrollView;
          var cOff := scrollView.contentOffset;
          var cSize := Size(scrollView.contentSize.width - scrollView.boundsSize.width,
                            scrollView.contentSize.height - scrollView.boundsSize.height);
          if expanded {
            match indicatorPosition
            case Top => scrollView.contentOffset := Point(cOff.x, 0.0);
            case Bottom => scrollView.contentOffset := Point(cOff.x, cSize.height);
            case Left => scrollView.contentOffset := Point(0.0, cOff.y);
            case Right => scrollView.contentOffset := Point(cSize.width, cOff.y);
          }
          if indicatorPosition == Top || indicatorPosition == Left {
            coordScrollInitOffset := ZeroPoint;
          }
        }
        sender.translation := ZeroPoint;
      }
    }

    /**
     * The layout part of the changed phase: the driving constant moves by the
     * axis translation, clamped into its bounds (`didApply` says whether the
     * move stayed in range); every animatable item then follows the driving
     * layout's new percentage, which lies in [0, 1].
     */
    method DragLayout(translation: Point, host: Host) returns (didApply: bool, newPercentage: real)
      requires flexibleLayout.constraint in host.constants && flexibleLayout.start != flexibleLayout.end
      modifies host
      ensures var l := flexibleLayout;
              var target := old(host.constants[l.constraint]) + LayoutDelta(translation);
              var c := Clamp(target, Min(l.start, l.end), Max(l.start, l.end));
              && (didApply <==> Between(target, l.start, l.end))
              && newPercentage == PercentageOf(l, c)
              && 0.0 <= newPercentage <= 1.0
              && host.Snapshot() == AppliedAll(Write(old(host.Snapshot()), ConstantOf(l.constraint), Scalar(c)),
                                               animatableItems, Continuous(newPercentage))
    {
      var l := flexibleLayout;
      var newLayoutConstant := host.constants[l.constraint] + LayoutDelta(translation);
      ghost var s0 := host.Snapshot();
      didApply := SetValue(host, l, newLayoutConstant);
      DragStepPercentage(l, s0, newLayoutConstant);
      newPercentage := Percentage(l, host.Snapshot());
      ExpandAnimatableItemsWithPercentage(newPercentage, host);
    }

    /**
     * The host side of a changed-phase step by translation `t` from the state
     * in `old`, on the same live, non-degenerate driving layout: the driving constant takes the
     * clamped target and every item the resulting percentage in [0, 1]; did-pan
     * is logged when that percentage differs from the current one, which is
     * recorded only for a non-zero translation.
     */
    twostate predicate DragApplied(t: Point, host: Host)
      reads this, host
    {
      && flexibleLayout == old(flexibleLayout)
      && old(flexibleLayout.constraint in host.constants) && flexibleLayout.start != flexibleLayout.end
      && var l := flexibleLayout;
         var target := old(host.constants[l.constraint]) + LayoutDelta(t);
         var p := PercentageOf(l, Clamp(target, Min(l.start, l.end), Max(l.start, l.end)));
         && 0.0 <= p <= 1.0
         && host.Snapshot() == AppliedAll(Write(old(host.Snapshot()), ConstantOf(l.constraint),
                                                Scalar(Clamp(target, Min(l.start, l.end), Max(l.start, l.end)))),
                                          animatableItems, Continuous(p))
         && events == old(events) + (if p != old(currentPercentage) then [DidPan(p)] else [])
         && currentPercentage == (if t != ZeroPoint then p else old(currentPercentage))
         && oldPercentage == (if t != ZeroPoint then old(currentPercentage) else old(oldPercentage))
    }

    /**
     * The gesture side of a changed-phase step: only when the target was in
     * range is the translation reset, the coordinated scroll view held at its
     * edge (expanded panel) and the captured offset zeroed (top and left
     * anchors); the scroll view's sizes stay as they were.
     */
    twostate predicate DragFinalized(sender: PanGesture, host: Host)
      reads this, sender, coordinatedScrollView
    {
      && flexibleLayout == old(flexibleLayout) && coordinatedScrollView == old(coordinatedScrollView)
      && old(flexibleLayout.constraint in host.constants)
      && var l := flexibleLayout;
         var target := old(host.constants[l.constraint]) + LayoutDelta(old(Translation(sender)));
         var inRange := Between(target, l.start, l.end);
         && sender.translation == (if inRange then ZeroPoint else old(sender.translation))
         && coordScrollInitOffset ==
              (if inRange && IsFromCoordinatedScroll(sender) && (indicatorPosition == Top || indicatorPosition == Left)
               then ZeroPoint else old(coordScrollInitOffset))
         && (coordinatedScrollView != null ==>
              && coordinatedScrollView.contentOffset ==
                   (if inRange && IsFromCoordinatedScroll(sender) && expanded
                    then HeldOffset(indicatorPosition, old(coordinatedScrollView.contentOffset),
                                    Size(coordinatedScrollView.contentSize.width - coordinatedScrollView.boundsSize.width,
                                         coordinatedScrollView.contentSize.height - coordinatedScrollView.boundsSize.height))
                    else old(coordinatedScrollView.contentOffset))
              && coordinatedScrollView.contentSize == old(coordinatedScrollView.contentSize)
              && coordinatedScrollView.boundsSize == old(coordinatedScrollView.boundsSize))
    }

    /**
     * The changed phase: the driving constant moves by the (possibly inverted)
     * axis translation and is clamped to its bounds; every item follows the new
     * percentage; did-pan fires when that percentage differs from
     * `currentPercentage`, which is updated only for a non-zero translation; the
     * translation is reset only when the move stayed in range.
     */
    method PanChanged(sender: PanGesture, host: Host)
      requires Valid()
      requires flexibleLayout.constraint in host.constants && flexibleLayout.start != flexibleLayout.end
      modifies this`currentPercentage, this`oldPercentage, this`events, this`coordScrollInitOffset
      modifies sender`translation, host, coordinatedScrollView
      ensures Valid()
      ensures DragApplied(old(Translation(sender)), host)
      ensures DragFinalized(sender, host)
    {
      var translation := Translation(sender);
      var didApply := ApplyDrag(translation, host);
      FinalizeStateChanged(sender, didApply);
    }

    /**
     * The changed phase up to `finalizeStateChanged`: the drag is applied to
     * the host, did-pan is logged for a new percentage, and a non-zero
     * translation records it. `didApply` tells whether the target was in range.
     */
    method ApplyDrag(translation: Point, host: Host) returns (didApply: bool)
      requires Valid()
      requires flexibleLayout.constraint in host.constants && flexibleLayout.start != flexibleLayout.end
      modifies this`currentPercentage, this`oldPercentage, this`events, host
      ensures Valid()
      ensures DragApplied(translation, host)
      ensures didApply <==> Between(old(host.constants[flexibleLayout.constraint]) + LayoutDelta(translation),
                                    flexibleLayout.start, flexibleLayout.end)
    {
      var newPercentage;
      didApply, newPercentage := DragLayout(translation, host);
      if newPercentage != currentPercentage {
        events := events + [DidPan(newPercentage)];
      }
      if translation != ZeroPoint {
        SetCurrentPercentage(newPercentage);
      }
    }

    /**
     * `finalizeStateEnded`: settles the panel by `SettleExpanded` through the
     * `isExpanded` setter, then resets the translation and the captured scroll
     * offset and size.
     */
    method FinalizeStateEnded(sender: PanGesture, host: Host)
      requires Valid()
      modifies this`expanded, this`currentPercentage, this`oldPercentage, this`childViewInteractionEnabled
      modifies this`indicatorShown, this`animatableItems, this`events, this`coordScrollInitOffset
      modifies this`coordScrollInitiSize, sender`translation, host
      ensures Valid()
      ensures expanded == SettleExpanded(flexibleLayout.isVerticalAxis, old(sender.velocity), old(oldPercentage),
                                         old(currentPercentage), notchThreshold)
      ensures Transitioned(expanded, old(expanded), host)
      ensures AtRest(host)
      ensures sender.translation == ZeroPoint
      ensures coordScrollInitOffset == ZeroPoint && coordScrollInitiSize == ZeroSize
    {
      var endVelocity := sender.velocity;
      var exceedX := Abs(endVelocity.x) > Abs(EndVelocityThreshold.x);
      var exceedY := Abs(endVelocity.y) > Abs(EndVelocityThreshold.y);
      var expandCollapseToEnd := (flexibleLayout.isVerticalAxis && exceedY) || (!flexibleLayout.isVerticalAxis && exceedX);
      if expandCollapseToEnd && oldPercentage != currentPercentage {
        SetIsExpanded(oldPercentage < currentPercentage, host);
      } else {
        SetIsExpanded(currentPercentage >= notchThreshold, host);
      }
      sender.translation := ZeroPoint;
      coordScrollInitOffset := ZeroPoint;
      coordScrollInitiSize := ZeroSize;
    }

    /**
     * `handlePan`: ignores the event when `Ignores` holds, otherwise runs the
     * phase of the gesture.
     */
    method HandlePan(sender: PanGesture, host: Host)
      requires Valid()
      requires flexibleLayout.constraint in host.constants ==> flexibleLayout.start != flexibleLayout.end
      modifies this`expanded, this`currentPercentage, this`oldPercentage, this`childViewInteractionEnabled
      modifies this`indicatorShown, this`animatableItems, this`events, this`coordScrollInitOffset
      modifies this`coordScrollInitiSize, sender`translation, host, coordinatedScrollView
      ensures Valid()
      ensures old(Ignores(sender, host)) || old(sender.state) !in {Began, Changed, Ended, Cancelled} ==>
        && unchanged(this, sender, host)
        && (coordinatedScrollView != null ==> unchanged(coordinatedScrollView))
      ensures !old(Ignores(sender, host)) && old(sender.state) == Began ==>
        && (IsFromCoordinatedScroll(sender) ==>
              && coordScrollInitOffset == coordinatedScrollView.contentOffset
              && coordScrollInitiSize == Size(coordinatedScrollView.contentSize.width - coordinatedScrollView.boundsSize.width,
                                              coordinatedScrollView.contentSize.height - coordinatedScrollView.boundsSize.height))
        && (!IsFromCoordinatedScroll(sender) ==>
              coordScrollInitOffset == old(coordScrollInitOffset) && coordScrollInitiSize == old(coordScrollInitiSize))
        && expanded == old(expanded) && currentPercentage == old(currentPercentage)
        && oldPercentage == old(oldPercentage) && animatableItems == old(animatableItems) && events == old(events)
        && indicatorShown == old(indicatorShown) && childViewInteractionEnabled == old(childViewInteractionEnabled)
        && unchanged(sender, host)
        && (coordinatedScrollView != null ==> unchanged(coordinatedScrollView))
      ensures !old(Ignores(sender, host)) && old(sender.state) in {Ended, Cancelled} ==>
        && expanded == SettleExpanded(flexibleLayout.isVerticalAxis, old(sender.velocity), old(oldPercentage),
                                      old(currentPercentage), notchThreshold)
        && Transitioned(expanded, old(expanded), host)
        && AtRest(host)
        && sender.translation == ZeroPoint
        && coordScrollInitOffset == ZeroPoint && coordScrollInitiSize == ZeroSize
        && (coordinatedScrollView != null ==> unchanged(coordinatedScrollView))
      ensures !old(Ignores(sender, host)) && old(sender.state) == Changed ==>
        && DragApplied(old(Translation(sender)), host) && DragFinalized(sender, host)
        && expanded == old(expanded) && animatableItems == old(animatableItems)
        && indicatorShown == old(indicatorShown) && childViewInteractionEnabled == old(childViewInteractionEnabled)
        && coordScrollInitiSize == old(coordScrollInitiSize)
    {
      if !handleCoordinatedScrollView && IsFromCoordinatedScroll(sender) { return; }
      if !hasSuperview { return; }
      if flexibleLayout.constraint !in host.constants { return; }
      match sender.state
      case Began => PanBegan(sender);
      case Changed => PanChanged(sender, host);
      case Ended => FinalizeStateEnded(sender, host);
      case Cancelled => FinalizeStateEnded(sender, host);
      case _ =>
    }
  }
}
