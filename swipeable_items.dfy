/**
 * The interpolation items of the swipeable panel: each item holds a weak
 * reference to one attribute of a host-owned object (a layout constraint's
 * constant, a view's alpha, centre or colour) together with a `start`
 * (collapsed) and an `end` (expanded) value, and writes that attribute either
 * discretely (expanded / collapsed) or at a percentage of the way from start
 * to end.
 *
 * The host-owned objects are modelled as a `Store`: a map from constraint ids
 * to constants and a map from view ids to view attributes. An id that is not
 * in its map is an object that no longer exists, so every weak reference to it
 * reads as nil.
 */
module SwipeableItems {

  datatype Option<T> = None | Some(value: T)

  type ConstraintId = nat
  type ViewId = nat

  datatype Point = Point(x: real, y: real)

  /** A colour as its four red, green, blue and alpha channels. */
  datatype Rgba = Rgba(red: real, green: real, blue: real, alpha: real)

  /** Which of the view's two colours a colour item drives. */
  datatype ColorAttribute = BackgroundColor | TintColor

  datatype ViewState = ViewState(alpha: real, center: Point, backgroundColor: Rgba, tintColor: Rgba)

  /** The live host objects; an absent id is a released object. */
  datatype Store = Store(constants: map<ConstraintId, real>, views: map<ViewId, ViewState>)

  /** One attribute of one host object. */
  datatype Slot =
    | ConstantOf(constraint: ConstraintId)
    | AlphaOf(view: ViewId)
    | CenterOf(view: ViewId)
    | ColorOf(view: ViewId, attribute: ColorAttribute)

  /** The value held by a slot. */
  datatype Value = Scalar(scalar: real) | PointValue(point: Point) | ColorValue(color: Rgba)

  /** Whether the object that owns slot `x` still exists. */
  predicate Live(s: Store, x: Slot)
  {
    match x
    case ConstantOf(c) => c in s.constants
    case AlphaOf(v) => v in s.views
    case CenterOf(v) => v in s.views
    case ColorOf(v, _) => v in s.views
  }

  /** Whether `v` is of the kind slot `x` holds. */
  predicate Fits(x: Slot, v: Value)
  {
    match x
    case ConstantOf(_) => v.Scalar?
    case AlphaOf(_) => v.Scalar?
    case CenterOf(_) => v.PointValue?
    case ColorOf(_, _) => v.ColorValue?
  }

  /** The current value of slot `x`, or None when its owner is gone. */
  function Read(s: Store, x: Slot): (r: Option<Value>)
    ensures r.Some? <==> Live(s, x)
    ensures r.Some? ==> Fits(x, r.value)
  {
    match x
    case ConstantOf(c) => if c in s.constants then Some(Scalar(s.constants[c])) else None
    case AlphaOf(v) => if v in s.views then Some(Scalar(s.views[v].alpha)) else None
    case CenterOf(v) => if v in s.views then Some(PointValue(s.views[v].center)) else None
    case ColorOf(v, a) =>
      if v in s.views then
        Some(ColorValue(if a == BackgroundColor then s.views[v].backgroundColor else s.views[v].tintColor))
      else None
  }

  /** Stores `v` into slot `x` when its owner is alive; otherwise nothing changes. */
  function Write(s: Store, x: Slot, v: Value): Store
  {
    if !Live(s, x) || !Fits(x, v) then s
    else
      match x
      case ConstantOf(c) => s.(constants := s.constants[c := v.scalar])
      case AlphaOf(w) => s.(views := s.views[w := s.views[w].(alpha := v.scalar)])
      case CenterOf(w) => s.(views := s.views[w := s.views[w].(center := v.point)])
      case ColorOf(w, a) =>
        var old_ := s.views[w];
        var updated := if a == BackgroundColor then old_.(backgroundColor := v.color) else old_.(tintColor := v.color);
        s.(views := s.views[w := updated])
  }

  /** Two stores are equal when they have the same live objects and agree on every slot. */
  lemma StoreExtensionality(s1: Store, s2: Store)
    requires s1.constants.Keys == s2.constants.Keys && s1.views.Keys == s2.views.Keys
    requires forall y :: Read(s1, y) == Read(s2, y)
    ensures s1 == s2
  {
    forall c | c in s1.constants ensures s1.constants[c] == s2.constants[c] {
      assert Read(s1, ConstantOf(c)) == Read(s2, ConstantOf(c));
    }
    forall v | v in s1.views ensures s1.views[v] == s2.views[v] {
      assert Read(s1, AlphaOf(v)) == Read(s2, AlphaOf(v));
      assert Read(s1, CenterOf(v)) == Read(s2, CenterOf(v));
      assert Read(s1, ColorOf(v, BackgroundColor)) == Read(s2, ColorOf(v, BackgroundColor));
      assert Read(s1, ColorOf(v, TintColor)) == Read(s2, ColorOf(v, TintColor));
    }
  }

  /** A write changes exactly its own slot, and only when that slot's owner is alive; it never releases an object. */
  lemma ReadAfterWrite(s: Store, x: Slot, v: Value, y: Slot)
    requires Fits(x, v)
    ensures Write(s, x, v).constants.Keys == s.constants.Keys
    ensures Write(s, x, v).views.Keys == s.views.Keys
    ensures Read(Write(s, x, v), y) == if x == y && Live(s, x) then Some(v) else Read(s, y)
  {
  }

  // ---------------------------------------------------------------------------
  // The shared percentage-to-value mapping
  // ---------------------------------------------------------------------------

  function Min(a: real, b: real): real { if a <= b then a else b }
  function Max(a: real, b: real): real { if a <= b then b else a }

  /** `v` lies between `start` and `end`, whichever of the two is larger. */
  predicate Between(v: real, start: real, end: real)
  {
    Min(start, end) <= v <= Max(start, end)
  }

  /** Straight-line interpolation, the reference against which the source's mapping is checked. */
  function Lerp(start: real, end: real, p: real): real
  {
    start + (end - start) * p
  }

  /**
   * The value at percentage `perc` between `start` (0) and `end` (1). The
   * range guard is a disjunction that every real satisfies, so the result is
   * never None; the mapping goes through the smaller bound and, when
   * `start > end`, through the complementary percentage, and is the straight
   * line from `start` to `end` in either case.
   */
  function ValueForPercentage(perc: real, start: real, end: real): (r: Option<real>)
    ensures r.Some?
    ensures r.value == Lerp(start, end, perc)
    ensures perc == 0.0 ==> r.value == start
    ensures perc == 1.0 ==> r.value == end
  {
    if perc >= 0.0 || perc <= 1.0 then
      var min := Min(start, end);
      var max := Max(start, end);
      var relativePerc := if start > end then 1.0 - perc else perc;
      Some(min + (max - min) * relativePerc)
    else
      None
  }

  lemma ProductInUnit(d: real, p: real)
    requires 0.0 <= d && 0.0 <= p <= 1.0
    ensures 0.0 <= d * p <= d
  {
    assert d * p <= d * 1.0;
  }

  /** For a percentage in [0, 1] the mapped value stays between the two bounds. */
  lemma {:induction false} ValueWithinBounds(perc: real, start: real, end: real)
    requires 0.0 <= perc <= 1.0
    ensures Between(ValueForPercentage(perc, start, end).value, start, end)
  {
    var relativePerc := if start > end then 1.0 - perc else perc;
    var d := Max(start, end) - Min(start, end);
    ProductInUnit(d, relativePerc);
    assert ValueForPercentage(perc, start, end).value == Min(start, end) + d * relativePerc;
  }

  // Facts of real division used by the percentage proofs.

  lemma DivCancel(a: real, d: real)
    requires d != 0.0
    ensures (d * a) / d == a
  {
  }

  lemma DivTimes(a: real, d: real)
    requires d != 0.0
    ensures (a / d) * d == a
  {
  }

  lemma DivSign(a: real, d: real)
    requires d > 0.0
    ensures a / d < 0.0 <==> a < 0.0
    ensures a / d > 1.0 <==> a > d
  {
  }

  // ---------------------------------------------------------------------------
  // The driving layout item
  // ---------------------------------------------------------------------------

  /** A layout constraint constant driven between `start` (collapsed) and `end` (expanded). */
  datatype LayoutItem = LayoutItem(constraint: ConstraintId, isVerticalAxis: bool, start: real, end: real)

  /**
   * The percentage of constant `c` from `start` (0) to `end` (1), measured from
   * the smaller bound and complemented when `start > end`. The two bounds must
   * differ: the source divides by their distance.
   */
  function PercentageOf(l: LayoutItem, c: real): real
    requires l.start != l.end
  {
    var min := Min(l.start, l.end);
    var max := Max(l.start, l.end);
    var perc := (c - min) / (max - min);
    if l.start > l.end then 1.0 - perc else perc
  }

  /** The `percentage` getter: -1 when the constraint is gone. */
  function Percentage(l: LayoutItem, s: Store): (r: real)
    requires l.constraint in s.constants ==> l.start != l.end
    ensures l.constraint !in s.constants ==> r == -1.0
    ensures l.constraint in s.constants ==> r == PercentageOf(l, s.constants[l.constraint])
  {
    if l.constraint !in s.constants then -1.0
    else PercentageOf(l, s.constants[l.constraint])
  }

  /** Mapping a percentage to a constant and reading the percentage back gives the percentage, for any percentage. */
  lemma {:induction false} PercentageRoundTrip(l: LayoutItem, p: real)
    requires l.start != l.end
    ensures PercentageOf(l, ValueForPercentage(p, l.start, l.end).value) == p
  {
    var min, max := Min(l.start, l.end), Max(l.start, l.end);
    var rel := if l.start > l.end then 1.0 - p else p;
    var c := ValueForPercentage(p, l.start, l.end).value;
    assert c - min == (max - min) * rel;
    DivCancel(rel, max - min);
  }

  /** Reading the percentage of a constant and mapping it back gives the constant. */
  lemma {:induction false} ConstantRoundTrip(l: LayoutItem, c: real)
    requires l.start != l.end
    ensures ValueForPercentage(PercentageOf(l, c), l.start, l.end).value == c
  {
    var min, max := Min(l.start, l.end), Max(l.start, l.end);
    DivTimes(c - min, max - min);
  }

  /** A constant lies between the bounds exactly when its percentage lies in [0, 1]. */
  lemma {:induction false} PercentageInUnitIffBetween(l: LayoutItem, c: real)
    requires l.start != l.end
    ensures 0.0 <= PercentageOf(l, c) <= 1.0 <==> Between(c, l.start, l.end)
  {
    var min, max := Min(l.start, l.end), Max(l.start, l.end);
    DivSign(c - min, max - min);
  }

  /**
   * `valueInRangeResult`: 0 when `value` is between the bounds, -1 when it lies
   * beyond the `start` side and 1 when it lies beyond the `end` side, whichever
   * bound is numerically larger.
   */
  function ValueInRangeResult(l: LayoutItem, value: real): (r: int)
    ensures -1 <= r <= 1
    ensures r == 0 <==> Between(value, l.start, l.end)
    ensures l.start != l.end ==> (r < 0 <==> PercentageOf(l, value) < 0.0)
    ensures l.start != l.end ==> (r > 0 <==> PercentageOf(l, value) > 1.0)
  {
    PercentageBeyond(l, value);
    if l.start > l.end then
      (if value > l.start then -1 else if value < l.end then 1 else 0)
    else
      (if value < l.start then -1 else if value > l.end then 1 else 0)
  }

  lemma {:induction false} PercentageBeyond(l: LayoutItem, value: real)
    ensures l.start != l.end ==>
      (PercentageOf(l, value) < 0.0 <==> (if l.start > l.end then value > l.start else value < l.start))
    ensures l.start != l.end ==>
      (PercentageOf(l, value) > 1.0 <==> (if l.start > l.end then value < l.end else value > l.end))
  {
    if l.start != l.end {
      var min, max := Min(l.start, l.end), Max(l.start, l.end);
      DivSign(value - min, max - min);
    }
  }

  /** The nearest point of [lo, hi] to `v`. */
  function Clamp(v: real, lo: real, hi: real): real
    requires lo <= hi
  {
    if v < lo then lo else if v > hi then hi else v
  }

  /**
   * After a clamped write the percentage is the clamped percentage: in range it
   * is the value's own percentage, beyond the start side 0, beyond the end side 1.
   */
  lemma {:induction false} ClampedPercentage(l: LayoutItem, v: real)
    requires l.start != l.end
    ensures PercentageOf(l, Clamp(v, Min(l.start, l.end), Max(l.start, l.end))) == Clamp(PercentageOf(l, v), 0.0, 1.0)
  {
    var c := Clamp(v, Min(l.start, l.end), Max(l.start, l.end));
    PercentageBeyond(l, v);
    PercentageInUnitIffBetween(l, v);
    if l.start > l.end {
      assert PercentageOf(l, l.start) == 0.0;
      assert PercentageOf(l, l.end) == 1.0;
    } else {
      assert PercentageOf(l, l.start) == 0.0;
      assert PercentageOf(l, l.end) == 1.0;
    }
  }

  // ---------------------------------------------------------------------------
  // The item variants
  // ---------------------------------------------------------------------------

  /** The interpolation items; each names the host object it refers to weakly. */
  datatype Item =
    | Layout(layoutItem: LayoutItem)
    | Alpha(view: ViewId, start: real, end: real)
    | Center(view: ViewId, startCenter: Point, endCenter: Point)
    | Color(view: ViewId, startColor: Rgba, endColor: Rgba, attribute: ColorAttribute)

  /** What an item is asked to apply: the discrete state, or a percentage. */
  datatype Setting = Discrete(expanded: bool) | Continuous(percentage: real)

  /** The one attribute an item drives. */
  function SlotOf(it: Item): Slot
  {
    match it
    case Layout(l) => ConstantOf(l.constraint)
    case Alpha(v, _, _) => AlphaOf(v)
    case Center(v, _, _) => CenterOf(v)
    case Color(v, _, _, a) => ColorOf(v, a)
  }

  /** `isValid`: the weakly referenced target still exists. */
  predicate IsValid(it: Item, s: Store)
  {
    Live(s, SlotOf(it))
  }

  /** The value an item writes for a setting: `end` when expanded, `start` when collapsed, else the interpolated value. */
  function Written(it: Item, st: Setting): (v: Value)
    ensures Fits(SlotOf(it), v)
  {
    match st
    case Discrete(e) =>
      (match it
       case Layout(l) => Scalar(if e then l.end else l.start)
       case Alpha(_, start, end) => Scalar(if e then end else start)
       case Center(_, start, end) => PointValue(if e then end else start)
       case Color(_, start, end, _) => ColorValue(if e then end else start))
    case Continuous(p) =>
      (match it
       case Layout(l) => Scalar(ValueForPercentage(p, l.start, l.end).value)
       case Alpha(_, start, end) => Scalar(ValueForPercentage(p, start, end).value)
       case Center(_, start, end) =>
         PointValue(Point(start.x + (end.x - start.x) * p, start.y + (end.y - start.y) * p))
       case Color(_, start, end, _) =>
         ColorValue(Rgba(ValueForPercentage(p, start.red, end.red).value,
                         ValueForPercentage(p, start.green, end.green).value,
                         ValueForPercentage(p, start.blue, end.blue).value,
                         ValueForPercentage(p, start.alpha, end.alpha).value)))
  }

  /** The store after an item applies a setting to its target. */
  function Applied(s: Store, it: Item, st: Setting): Store
  {
    Write(s, SlotOf(it), Written(it, st))
  }

  /**
   * Applying a setting writes the item's own attribute when its target is
   * alive and leaves everything else, liveness included, as it was; with the
   * target gone it changes nothing.
   */
  lemma {:induction false} AppliedTouchesOnlyItsTarget(s: Store, it: Item, st: Setting, y: Slot)
    ensures Applied(s, it, st).constants.Keys == s.constants.Keys
    ensures Applied(s, it, st).views.Keys == s.views.Keys
    ensures Read(Applied(s, it, st), y) == if y == SlotOf(it) && IsValid(it, s) then Some(Written(it, st)) else Read(s, y)
    ensures !IsValid(it, s) ==> Applied(s, it, st) == s
  {
    ReadAfterWrite(s, SlotOf(it), Written(it, st), y);
  }

  /** Applying the same setting twice has the effect of applying it once. */
  lemma {:induction false} AppliedIdempotent(s: Store, it: Item, st: Setting)
    ensures Applied(Applied(s, it, st), it, st) == Applied(s, it, st)
  {
    var s1 := Applied(s, it, st);
    forall y ensures Read(Applied(s1, it, st), y) == Read(s1, y) {
      AppliedTouchesOnlyItsTarget(s, it, st, y);
      AppliedTouchesOnlyItsTarget(s1, it, st, y);
    }
    AppliedTouchesOnlyItsTarget(s, it, st, SlotOf(it));
    AppliedTouchesOnlyItsTarget(s1, it, st, SlotOf(it));
    StoreExtensionality(Applied(s1, it, st), s1);
  }

  /** The expanded state writes what percentage 1 writes, the collapsed state what percentage 0 writes. */
  lemma {:induction false} DiscreteIsPercentageEndpoint(it: Item, e: bool)
    ensures Written(it, Discrete(e)) == Written(it, Continuous(if e then 1.0 else 0.0))
  {
    match it
    case Center(_, start, end) =>
      var p := if e then 1.0 else 0.0;
      assert start.x + (end.x - start.x) * p == (if e then end.x else start.x);
      assert start.y + (end.y - start.y) * p == (if e then end.y else start.y);
    case _ =>
  }

  /** The straight-line interpolation of an item's own `start` and `end`, used as the reference for every variant. */
  function Interpolated(it: Item, p: real): Value
  {
    match it
    case Layout(l) => Scalar(Lerp(l.start, l.end, p))
    case Alpha(_, start, end) => Scalar(Lerp(start, end, p))
    case Center(_, start, end) => PointValue(Point(Lerp(start.x, end.x, p), Lerp(start.y, end.y, p)))
    case Color(_, start, end, _) =>
      ColorValue(Rgba(Lerp(start.red, end.red, p), Lerp(start.green, end.green, p),
                      Lerp(start.blue, end.blue, p), Lerp(start.alpha, end.alpha, p)))
  }

  /**
   * Every variant interpolates its attribute along the straight line from
   * `start` to `end`: the min/max form of the shared helper and the centre's
   * own per-axis formula agree.
   */
  lemma {:induction false} WrittenIsInterpolation(it: Item, p: real)
    ensures Written(it, Continuous(p)) == Interpolated(it, p)
  {
  }

  /** Every channel of `v` lies between the corresponding channels of the item's `start` and `end`. */
  predicate WithinBounds(it: Item, v: Value)
  {
    match it
    case Layout(l) => v.Scalar? && Between(v.scalar, l.start, l.end)
    case Alpha(_, start, end) => v.Scalar? && Between(v.scalar, start, end)
    case Center(_, start, end) =>
      v.PointValue? && Between(v.point.x, start.x, end.x) && Between(v.point.y, start.y, end.y)
    case Color(_, start, end, _) =>
      v.ColorValue? && Between(v.color.red, start.red, end.red) && Between(v.color.green, start.green, end.green)
      && Between(v.color.blue, start.blue, end.blue) && Between(v.color.alpha, start.alpha, end.alpha)
  }

  /** For a percentage in [0, 1] every variant writes a value between its `start` and `end`. */
  lemma {:induction false} WrittenWithinBounds(it: Item, p: real)
    requires 0.0 <= p <= 1.0
    ensures WithinBounds(it, Written(it, Continuous(p)))
  {
    match it
    case Layout(l) => ValueWithinBounds(p, l.start, l.end);
    case Alpha(_, start, end) => ValueWithinBounds(p, start, end);
    case Center(_, start, end) =>
      ValueWithinBounds(p, start.x, end.x);
      ValueWithinBounds(p, start.y, end.y);
    case Color(_, start, end, _) =>
      ValueWithinBounds(p, start.red, end.red);
      ValueWithinBounds(p, start.green, end.green);
      ValueWithinBounds(p, start.blue, end.blue);
      ValueWithinBounds(p, start.alpha, end.alpha);
  }

  /** A live layout set to expanded reads percentage 1, set to collapsed reads percentage 0. */
  lemma {:induction false} LayoutExpandedPercentage(l: LayoutItem, s: Store, e: bool)
    requires l.constraint in s.constants && l.start != l.end
    ensures Percentage(l, Applied(s, Layout(l), Discrete(e))) == if e then 1.0 else 0.0
  {
    DiscreteIsPercentageEndpoint(Layout(l), e);
    PercentageRoundTrip(l, if e then 1.0 else 0.0);
  }

  /** A live layout set to percentage `p` reads back percentage `p`. */
  lemma {:induction false} LayoutPercentageRoundTrip(l: LayoutItem, s: Store, p: real)
    requires l.constraint in s.constants && l.start != l.end
    ensures Percentage(l, Applied(s, Layout(l), Continuous(p))) == p
  {
    PercentageRoundTrip(l, p);
  }

  // ---------------------------------------------------------------------------
  // The host objects and the items' setters
  // ---------------------------------------------------------------------------

  /** The host's layout constraints and views, which the items refer to weakly and write in place. */
  class Host {
    var constants: map<ConstraintId, real>
    var views: map<ViewId, ViewState>

    function Snapshot(): Store
      reads this
    {
      Store(constants, views)
    }

    constructor (s: Store)
      ensures Snapshot() == s
    {
      constants := s.constants;
      views := s.views;
    }

    /** The host deallocates a view; every weak reference to it now reads nil. */
    method ReleaseView(v: ViewId)
      modifies this
      ensures views == old(views) - {v} && constants == old(constants)
    {
      views := views - {v};
    }

    /** The host deallocates a layout constraint. */
    method ReleaseConstraint(c: ConstraintId)
      modifies this
      ensures constants == old(constants) - {c} && views == old(views)
    {
      constants := constants - {c};
    }
  }

  /** `setColor`: writes the selected colour attribute of a live view. */
  method SetColor(host: Host, view: ViewId, attribute: ColorAttribute, cmp: Rgba)
    modifies host
    ensures host.Snapshot() == Write(old(host.Snapshot()), ColorOf(view, attribute), ColorValue(cmp))
  {
    if view !in host.views { return; }
    var v := host.views[view];
    match attribute
    case BackgroundColor => host.views := host.views[view := v.(backgroundColor := cmp)];
    case TintColor => host.views := host.views[view := v.(tintColor := cmp)];
  }

  /** `set(expanded:)`: a live target takes `end` when expanded and `start` when collapsed. */
  method SetExpanded(host: Host, it: Item, expanded: bool)
    modifies host
    ensures host.Snapshot() == Applied(old(host.Snapshot()), it, Discrete(expanded))
  {
    match it
    case Layout(l) =>
      if l.constraint !in host.constants { return; }
      host.constants := host.constants[l.constraint := if expanded then l.end else l.start];
    case Alpha(view, start, end) =>
      if view !in host.views { return; }
      host.views := host.views[view := host.views[view].(alpha := if expanded then end else start)];
    case Center(view, start, end) =>
      if view !in host.views { return; }
      host.views := host.views[view := host.views[view].(center := if expanded then end else start)];
    case Color(view, start, end, attribute) =>
      SetColor(host, view, attribute, if expanded then end else start);
  }

  /** `set(percentage:)`: a live target takes the value at `percentage` between `start` and `end`. */
  method SetPercentage(host: Host, it: Item, percentage: real)
    modifies host
    ensures host.Snapshot() == Applied(old(host.Snapshot()), it, Continuous(percentage))
  {
    match it
    case Layout(l) =>
      if l.constraint !in host.constants { return; }
      var val := ValueForPercentage(percentage, l.start, l.end);
      host.constants := host.constants[l.constraint := val.value];
    case Alpha(view, start, end) =>
      if view !in host.views { return; }
      var val := ValueForPercentage(percentage, start, end);
      host.views := host.views[view := host.views[view].(alpha := val.value)];
    case Center(view, start, end) =>
      if view !in host.views { return; }
      if percentage >= 0.0 || percentage <= 1.0 {
        var x := start.x + (end.x - start.x) * percentage;
        var y := start.y + (end.y - start.y) * percentage;
        assert Written(it, Continuous(percentage)) == PointValue(Point(x, y));
        host.views := host.views[view := host.views[view].(center := Point(x, y))];
      }
    case Color(view, start, end, attribute) =>
      if view !in host.views { return; }
      var red := ValueForPercentage(percentage, start.red, end.red);
      var green := ValueForPercentage(percentage, start.green, end.green);
      var blue := ValueForPercentage(percentage, start.blue, end.blue);
      var alpha := ValueForPercentage(percentage, start.alpha, end.alpha);
      SetColor(host, view, attribute, Rgba(red.value, green.value, blue.value, alpha.value));
  }

  /**
   * `set(value:)`: writes `value` to the live constraint when it lies between
   * `start` and `end` and answers true; otherwise writes the bound on the side
   * `value` overshot (which is the bound nearest to it) and answers false. With
   * the constraint gone it answers false and writes nothing.
   */
  method SetValue(host: Host, l: LayoutItem, value: real) returns (ok: bool)
    modifies host
    ensures ok <==> l.constraint in old(host.constants) && Between(value, l.start, l.end)
    ensures host.Snapshot() ==
      Write(old(host.Snapshot()), ConstantOf(l.constraint), Scalar(Clamp(value, Min(l.start, l.end), Max(l.start, l.end))))
    ensures l.constraint in old(host.constants) && ValueInRangeResult(l, value) < 0 ==> host.constants[l.constraint] == l.start
    ensures l.constraint in old(host.constants) && ValueInRangeResult(l, value) > 0 ==> host.constants[l.constraint] == l.end
  {
    if l.constraint !in host.constants { return false; }
    var check := ValueInRangeResult(l, value);
    if check < 0 {
      host.constants := host.constants[l.constraint := l.start];
      return false;
    } else if check > 0 {
      host.constants := host.constants[l.constraint := l.end];
      return false;
    } else {
      host.constants := host.constants[l.constraint := value];
      return true;
    }
  }

  /** Whatever value is requested, a live constraint ends between its bounds after `set(value:)`. */
  lemma {:induction false} ClampedWriteStaysBetween(l: LayoutItem, s: Store, value: real)
    requires l.constraint in s.constants
    ensures var s' := Write(s, ConstantOf(l.constraint), Scalar(Clamp(value, Min(l.start, l.end), Max(l.start, l.end))));
            l.constraint in s'.constants && Between(s'.constants[l.constraint], l.start, l.end)
            && (l.start != l.end ==> 0.0 <= Percentage(l, s') <= 1.0)
  {
    var c := Clamp(value, Min(l.start, l.end), Max(l.start, l.end));
    if l.start != l.end {
      PercentageInUnitIffBetween(l, c);
    }
  }
}
