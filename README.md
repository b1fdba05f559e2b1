# SwipeableView, modelled in Dafny

SwipeableView is an iOS panel that expands and collapses by a pan gesture. One
layout constraint (the *driving* or *flexible* layout) follows the finger. Any
number of *animatable items* (another constraint's constant, a view's alpha,
centre, background or tint colour) interpolate along with it between a `start`
(collapsed) and an `end` (expanded) value. When the finger lifts, the panel
settles expanded or collapsed by the release velocity or by a notch
threshold, and its delegate receives did-expand / did-collapse / did-pan
notifications.

The project has four modules.

- `SwipeableItems` (`swipeable_items.dfy`) covers the items.
  - Host objects are a `Store` of live layout constants and view attributes.
  - A weak reference is an id. When the id is absent from its map, the
    reference is nil.
  - The mapping from a percentage to a value, the driving layout's clamped
    write, its range classifier and its percentage getter are pure functions.
  - The Swift setters are methods on a mutable `Host`, proved equal to the
    pure `Applied` specification.
- `AnimatableItems` (`animatable_items.dfy`) covers the item list as values.
  - Pruning of items whose target is gone.
  - The in-order pass that applies a setting to every item, including what it
    leaves behind when several items drive the same attribute (the last
    writer wins).
- `Panel` (`swipeable_view.dfy`) is the `SwipeableView` class, in place.
  - Its fields: expanded state, current and old percentage, item list,
    captured scroll offset and size, configuration, and the delegate's
    notifications as an event log.
  - Its methods: expand/collapse, both item passes, the began / changed /
    ended phases of the pan gesture and the gesture dispatcher.
- `Scenarios` (`scenarios.dfy`) holds clients that drive the panel through a
  drag and a release on concrete numbers, and check that an alpha item follows
  the recorded percentage.

`CGFloat` is modelled as `real`. The guard `perc >= 0.0 || perc <= 1.0` in
`value(forPercentage:start:end:)` is kept as written. It holds for every
percentage, so `ValueForPercentage` is proved never to return `None` and no
percentage is ever rejected.

## Model

| member | source | states |
|---|---|---|
| SwipeableItems.Read | SwipeableView/SwipeableView/SwipeableItems.swift:391 | an attribute reads as present exactly when its object is still alive, and then holds a value of the attribute's kind |
| SwipeableItems.ReadAfterWrite | SwipeableView/SwipeableView/SwipeableItems.swift:343-352 | a write never releases or creates an object, sets the one attribute of a live object and leaves every other attribute as it was |
| SwipeableItems.ValueForPercentage | SwipeableView/SwipeableView/SwipeableItems.swift:59-68 | never nil for any percentage; the value is `start + (end - start) * p` whichever of start/end is larger; percentage 0 gives `start` and 1 gives `end` |
| SwipeableItems.ValueWithinBounds | SwipeableView/SwipeableView/SwipeableItems.swift:63-67 | for a percentage in [0, 1] the value lies between min(start, end) and max(start, end) |
| SwipeableItems.Percentage | SwipeableView/SwipeableView/SwipeableItems.swift:398-404 | -1 when the constraint is gone, otherwise the direction-aware percentage of the live constant |
| SwipeableItems.PercentageRoundTrip | SwipeableView/SwipeableView/SwipeableItems.swift:398-404 | mapping any percentage to a constant and reading the percentage back returns it |
| SwipeableItems.ConstantRoundTrip | SwipeableView/SwipeableView/SwipeableItems.swift:398-404 | mapping a constant to its percentage and back to a constant returns it |
| SwipeableItems.PercentageInUnitIffBetween | SwipeableView/SwipeableView/SwipeableItems.swift:398-404 | a constant's percentage lies in [0, 1] exactly when the constant lies between start and end |
| SwipeableItems.ValueInRangeResult | SwipeableView/SwipeableView/SwipeableItems.swift:449-455 | the classifier answers -1, 0 or 1; 0 exactly when the value lies between start and end; -1 exactly when the value is past `start` (percentage below 0) and 1 exactly when it is past `end` (percentage above 1), in either direction |
| SwipeableItems.PercentageBeyond | SwipeableView/SwipeableView/SwipeableItems.swift:449-455 | a value past `start` has a negative percentage and a value past `end` one above 1, for both orderings of start and end |
| SwipeableItems.ClampedPercentage | SwipeableView/SwipeableView/SwipeableItems.swift:426-442 | clamping a constant into its bounds clamps its percentage into [0, 1] |
| SwipeableItems.WrittenIsInterpolation | SwipeableView/SwipeableView/SwipeableItems.swift:201-209 | at a percentage every item writes the per-channel interpolation of its start and end (each centre axis, each colour channel) |
| SwipeableItems.WrittenWithinBounds | SwipeableView/SwipeableView/SwipeableItems.swift:59-68 | for a percentage in [0, 1] every channel an item writes lies between that channel's start and end |
| SwipeableItems.DiscreteIsPercentageEndpoint | SwipeableView/SwipeableView/SwipeableItems.swift:343-352 | the expanded state writes what percentage 1 writes and the collapsed state what percentage 0 writes, for every kind of item |
| SwipeableItems.AppliedTouchesOnlyItsTarget | SwipeableView/SwipeableView/SwipeableItems.swift:341-352 | applying a setting writes only the item's own attribute, only when its target is alive (`isValid`), and is a no-op when the target is gone |
| SwipeableItems.AppliedIdempotent | SwipeableView/SwipeableView/SwipeableItems.swift:343-346 | applying the same setting twice leaves the host objects as applying it once |
| SwipeableItems.LayoutExpandedPercentage | SwipeableView/SwipeableView/SwipeableItems.swift:406-408 | after `set(expanded:)` on a live layout its percentage is 1 when expanded and 0 when collapsed |
| SwipeableItems.LayoutPercentageRoundTrip | SwipeableView/SwipeableView/SwipeableItems.swift:416-420 | after `set(percentage: p)` on a live layout its percentage reads `p` |
| SwipeableItems.Host.ReleaseView | SwipeableView/SwipeableView/SwipeableItems.swift:341 | releasing a view removes it and nothing else, after which items referring to it are no longer valid |
| SwipeableItems.Host.ReleaseConstraint | SwipeableView/SwipeableView/SwipeableItems.swift:391 | releasing a constraint removes it and nothing else |
| SwipeableItems.SetColor | SwipeableView/SwipeableView/SwipeableItems.swift:282-293 | writes the background or tint colour of a live view and nothing else; no-op when the view is gone |
| SwipeableItems.SetExpanded | SwipeableView/SwipeableView/SwipeableItems.swift:196-414 | `set(expanded:)` of every kind of item (centre, colour, alpha, layout): the new host state is `Applied` with the discrete setting, i.e. a live target takes `end` when expanded and `start` when collapsed, and a gone target is left alone |
| SwipeableItems.SetPercentage | SwipeableView/SwipeableView/SwipeableItems.swift:201-420 | `set(percentage:)` of every kind of item (centre with its own always-true guard, colour channel by channel, alpha, layout): the new host state is `Applied` with the percentage |
| SwipeableItems.SetValue | SwipeableView/SwipeableView/SwipeableItems.swift:426-442 | answers true exactly when the constraint is live and the value lies between start and end; writes the value clamped into the bounds, which is `start` past the start side and `end` past the end side; writes nothing when the constraint is gone |
| SwipeableItems.ClampedWriteStaysBetween | SwipeableView/SwipeableView/SwipeableItems.swift:426-442 | after any `set(value:)` on a live constraint the constant lies between start and end and its percentage in [0, 1] |
| AnimatableItems.Filter | SwipeableView/SwipeableView/SwipeableView.swift:411 | keeps only items whose validity is the one asked for, never adding any |
| AnimatableItems.PrunedPartition | SwipeableView/SwipeableView/SwipeableView.swift:409-414 | the kept and the removed items together are exactly the original items, so N items with M invalid leave N - M |
| AnimatableItems.PrunedKeepsOrder | SwipeableView/SwipeableView/SwipeableView.swift:411 | pruning keeps the survivors in their original order: it distributes over concatenation |
| AnimatableItems.PrunedOfValid | SwipeableView/SwipeableView/SwipeableView.swift:411 | a list whose targets are all alive is not changed by pruning |
| AnimatableItems.LastWritten | SwipeableView/SwipeableView/SwipeableView.swift:413 | there is a last writer of an attribute exactly when some item drives that attribute |
| AnimatableItems.LastWriterWins | SwipeableView/SwipeableView/SwipeableView.swift:413 | the last item that drives an attribute decides what the pass writes there |
| AnimatableItems.ReadAppliedAll | SwipeableView/SwipeableView/SwipeableView.swift:413 | after the in-order pass a live attribute holds what its last item wrote, every other attribute is untouched, and no object is released |
| AnimatableItems.AppliedAllIdempotent | SwipeableView/SwipeableView/SwipeableView.swift:413 | running the same pass twice leaves the host objects as running it once |
| AnimatableItems.AppliedAllSetsEachItem | SwipeableView/SwipeableView/SwipeableView.swift:413 | when no two items drive the same attribute, every item with a live target leaves its own value |
| AnimatableItems.DiscretePassIdempotent | SwipeableView/SwipeableView/SwipeableView.swift:409-414 | a second prune-then-set pass prunes nothing and writes nothing new |
| Panel.SettleFollowsFlick | SwipeableView/SwipeableView/SwipeableView.swift:543-552 | a release faster than 100 on the layout's axis expands when the percentage grew and collapses when it shrank, whatever the notch; when the percentage did not move it falls back to the notch |
| Panel.SettleSlowUsesNotch | SwipeableView/SwipeableView/SwipeableView.swift:543-556 | a release at most 100 on the layout's axis expands exactly when the current percentage reaches the notch threshold |
| Panel.SettleIgnoresOffAxis | SwipeableView/SwipeableView/SwipeableView.swift:546-547 | the velocity across the layout's axis has no effect on the decision |
| Panel.DragStepPercentage | SwipeableView/SwipeableView/SwipeableView.swift:449-455 | after a drag step the driving layout's percentage is that of the clamped constant, and lies in [0, 1] |
| Panel.DrivingLayoutAtRest | SwipeableView/SwipeableView/SwipeableView.swift:372-377 | after the transition's writes the driving layout reads percentage 1 (expanded) or 0 (collapsed) unless an item drives the same constraint |
| Panel.SwipeableView.constructor | SwipeableView/SwipeableView/SwipeableView.swift:65-242 | a new panel is collapsed at percentage 0 (old percentage 0) with no items and no notifications, notch 0.5, not inverted, anchored at the top, with no coordinated scroll view and its handling off, a zero captured offset and size, child interaction restricted to the expanded state yet enabled, the indicator visible, not hidden when expanded and shown, and placed in a superview |
| Panel.SwipeableView.SetCurrentPercentage | SwipeableView/SwipeableView/SwipeableView.swift:191-195 | every assignment of a percentage in [0, 1] keeps the prior value as the old percentage and keeps both in [0, 1] |
| Panel.SwipeableView.IsChildViewInteractionAllowed | SwipeableView/SwipeableView/SwipeableView.swift:226 | the child is interactive exactly when the panel is expanded or interaction is not restricted to the expanded state |
| Panel.SwipeableView.SetChildViewInteractionOnExpandedOnly | SwipeableView/SwipeableView/SwipeableView.swift:146-150 | after the change the container's interaction flag equals whether interaction is allowed |
| Panel.SwipeableView.SetSwipeIndicatorVisible | SwipeableView/SwipeableView/SwipeableView.swift:76-85 | a real change shows the indicator when made visible, unless the panel is expanded with hide-when-expanded on; setting the same value changes nothing |
| Panel.SwipeableView.SetHideIndicatorWhenExpanded | SwipeableView/SwipeableView/SwipeableView.swift:102-111 | a real change hides the indicator while expanded and otherwise shows it by the visibility flag; setting the same value changes nothing |
| Panel.SwipeableView.SetCoordinatedScrollView | SwipeableView/SwipeableView/SwipeableView.swift:175-184 | assigning a different scroll view discards the captured offset and size; assigning the same one keeps them |
| Panel.SwipeableView.AddAnimatableItem | SwipeableView/SwipeableView/SwipeableView.swift:295-300 | the item first takes the current percentage (within its bounds while the panel's percentages are in [0, 1]), then joins the end of the list with the earlier entries unchanged |
| Panel.SwipeableView.RemoveAllAnimatableItems | SwipeableView/SwipeableView/SwipeableView.swift:303-305 | the list is empty afterwards |
| Panel.SwipeableView.ExpandAnimatableItems | SwipeableView/SwipeableView/SwipeableView.swift:409-414 | the list becomes the valid items in their original order, all of them valid afterwards, and the host state is that of the in-order discrete pass over them |
| Panel.SwipeableView.ExpandAnimatableItemsWithPercentage | SwipeableView/SwipeableView/SwipeableView.swift:418-422 | a negative percentage changes nothing; otherwise the host state is that of the in-order percentage pass over all items, valid or not; the list is never changed |
| Panel.SwipeableView.ExpandFrom | SwipeableView/SwipeableView/SwipeableView.swift:333-387 | `Switched` and `Animated`, which together make `Transitioned`: sets the state and the percentage to exactly 1 or 0 (keeping the old one), updates the child interaction and the indicator, applies the driving layout and then the pruned items, and logs exactly one did-expand or did-collapse carrying `wasExpanded` |
| Panel.SwipeableView.ShowSwipeEdgeView | SwipeableView/SwipeableView/SwipeableView.swift:393-404 | the indicator is shown or hidden as asked |
| Panel.SwipeableView.AnimateTransition | SwipeableView/SwipeableView/SwipeableView.swift:372-377 | the driving layout takes the discrete state, then the pruned items do; at rest the driving layout reads 1 or 0 unless an item drives its constraint |
| Panel.SwipeableView.Expand | SwipeableView/SwipeableView/SwipeableView.swift:289-291 | the whole transition of `ExpandFrom` (`Transitioned`: flag, percentages, child interaction, indicator, driving layout and pruned items written, one notification) from the current state, the notification carrying the state before the call, and the driving layout reading the new percentage at rest |
| Panel.SwipeableView.SetIsExpanded | SwipeableView/SwipeableView/SwipeableView.swift:55-58 | the `isExpanded` setter runs the whole animated transition (`Transitioned`) from the current state, and the driving layout reads the new percentage at rest |
| Panel.SwipeableView.Translation | SwipeableView/SwipeableView/SwipeableView.swift:487-506 | the recognizer's translation, shifted on the anchor's axis by the captured scroll offset (top, left) or the remaining scroll extent (bottom, right) only when the gesture comes from the coordinated scroll view and the panel is expanded |
| Panel.SwipeableView.PanBegan | SwipeableView/SwipeableView/SwipeableView.swift:440-446 | a gesture from the coordinated scroll view captures its offset and scrollable extent; any other gesture captures nothing |
| Panel.SwipeableView.FinalizeStateChanged | SwipeableView/SwipeableView/SwipeableView.swift:513-537 | only after an in-range write: the translation is reset, an expanded panel holds the coordinated scroll view at its edge, and the captured offset is zeroed for the top and left anchors only; the scroll view's content and bounds sizes never change |
| Panel.SwipeableView.DragLayout | SwipeableView/SwipeableView/SwipeableView.swift:448-458 | the driving constant moves by the axis translation (negated when inverted), clamped into its bounds, reporting whether it stayed in range; every item follows the resulting percentage, which lies in [0, 1] |
| Panel.SwipeableView.ApplyDrag | SwipeableView/SwipeableView/SwipeableView.swift:449-468 | the changed step up to its finalisation (`DragApplied`): the driving layout takes the clamped target and the items its percentage in [0, 1], did-pan fires exactly when that percentage differs from the current one, which is recorded only for a non-zero translation; `didApply` holds exactly when the target was in range |
| Panel.SwipeableView.PanChanged | SwipeableView/SwipeableView/SwipeableView.swift:447-471 | the changed step, `DragApplied` and `DragFinalized`: the driving layout takes the clamped target and the items its percentage, did-pan fires exactly when the new percentage differs from the current one, the current percentage moves only for a non-zero translation, the percentages stay in [0, 1], and only when the target was in range is the translation reset, the coordinated scroll view held at its edge (expanded panel) and the captured offset zeroed (top and left anchors); the scroll view's sizes never change |
| Panel.SwipeableView.FinalizeStateEnded | SwipeableView/SwipeableView/SwipeableView.swift:543-560 | the panel settles to `SettleExpanded` of the release through the whole `isExpanded` transition (`Transitioned`: percentages, child interaction, indicator, driving layout and pruned items written, one notification with the prior state), the driving layout reads the new percentage at rest, then the translation and the captured scroll offset and size are zero |
| Panel.SwipeableView.HandlePan | SwipeableView/SwipeableView/SwipeableView.swift:429-477 | an event from the coordinated scroll view while its handling is off, a panel without superview, a gone driving layout or another phase changes nothing; began captures the scroll view's offset and scrollable size (for its own gesture only) and changes nothing else; ended and cancelled run the whole settling transition, reset the translation and zero the capture; changed runs the whole changed step (`DragApplied` and `DragFinalized`, as `PanChanged`) and keeps the expanded state, the items, the child interaction, the indicator and the captured size |

## Left out

- `SwipeableItemTransformation`: not modelled. It relies on `atan2`, `sqrt` and affine-transform composition, i.e. floating-point trigonometry over a foreign type.
- `UIColor` decomposition with `getRed` and the colour initialiser: colours are four real channels. The decomposition is taken to succeed, so the `startComponents` / `endComponents` guards are not modelled. The default colours taken from the view when none is given are not modelled either.
- Colour items with a `targetAttribute` other than 0 or 1 (which write nothing) cannot be built: both initialisers set 0 or 1, so the attribute is a two-valued selector.
- Animation: `UIView.animate`, its timing and its spring parameters are not modelled. A transition's writes take effect at once, and its notification is appended to the log in the same step. Overlapping animations are not modelled.
- `layoutIfNeeded` after `set(expanded:)`: not modelled. It is a re-layout request to the host.
- The delegate is not modelled as an optional reference. The log records every notification that a delegate would receive.
- Panel.SwipeableView.ExpandFrom: the `animated` flag only decides when the notification is delivered, so both of its paths end in the same modelled state.
- The indicator is reduced to a shown/hidden flag: its thickness constraint and alpha are not modelled.
- The child container is reduced to its interaction flag. Child view-controller embedding (`setChildView`, `removeChildView`) is not modelled; it is view-controller lifecycle plumbing.
- View-tree construction is not modelled: the `setup*` methods, rounded corners, indicator colours and the constraint building of `IndicatorPosition`. They are UIKit layout.
- Changing `indicatorPosition` only re-lays out views, so the position is a plain field.
- `hitTest` / `find` and `autoDetectScrollViews` are not modelled: they depend on UIKit hit testing over the view hierarchy. The coordinated scroll view is assigned directly.
- The superview is a boolean `hasSuperview`. A translation is taken as already expressed in it, so `translation(in:)` is the recognizer's `translation` field and `velocity(in:)` its `velocity` field.
- The recognizer's own state changes are not modelled; its state is a field the caller sets.
- The default `flexibleLayout` (`.init()`, with no constraint) is a layout whose constraint id is absent from the host, so its percentage reads -1.
- SwipeableItems.Percentage: requires `start != end` when the constraint is live. The source divides by `max - min`, which gives a NaN or an infinity in floating point when the two are equal; reals have no such value.
- Panel.SwipeableView.PanChanged, Panel.SwipeableView.ApplyDrag and Panel.SwipeableView.DragLayout require a live driving layout with `start != end`, and Panel.SwipeableView.HandlePan requires `start != end` whenever the driving layout is live. `HandlePan` only starts the changed step after checking that the layout is live. A degenerate layout makes the percentage a division by zero, which `CGFloat` turns into an infinity or NaN that the model does not represent.
- Panel.SwipeableView.ExpandFrom, Panel.SwipeableView.Expand, Panel.SwipeableView.SetIsExpanded, Panel.SwipeableView.PanChanged, Panel.SwipeableView.ApplyDrag, Panel.SwipeableView.FinalizeStateEnded and Panel.SwipeableView.HandlePan require `Valid()`, the class invariant that both recorded percentages lie in [0, 1]. The constructor establishes it, and every method that assigns a percentage keeps it.
- Panel.SwipeableView.SetCurrentPercentage: requires a percentage in [0, 1]. The setter is private, and the source only ever assigns it 1, 0 or a layout percentage clamped to [0, 1] (SwipeableView.swift:339 and :467).
- Panel.SwipeableView.SetCoordinatedScrollView: the source's `didSet` also moves the `handlePan` target from the old scroll view's recognizer to the new one, and the weak reference may turn nil without `didSet` running. The model keeps no target list, so `HandlePan` accepts an event from any recognizer and classifies it only by comparing it with the current scroll view's recognizer.
- Panel.SwipeableView.constructor: `hasSuperview` is not a property of the source. It stands for the panel having been placed in a view hierarchy, which the constructor assumes.
