/**
 The auto-break decision engine. Given the views of the active drawing sheet and
 the current settings, it keeps the views in a standard camera orientation,
 takes the one with the largest area, decides whether it can be broken, and
 describes the break the host should add: its orientation, the two points of
 the break line, its style, depth, gap and number of symbols.

 The host's view objects are abstracted to `View` records and the host's
 break-creation call to a returned `BreakRequest`; the two message-box exits
 become the tagged `Refusal`s.
 */
module InventorHandler {
  import Settings

  datatype Option<T> = None | Some(value: T)

  /**
   The camera direction a view was generated from. The seven named values are
   the standard ones; `OtherOrientation` stands for every other value of the
   host's enumeration (isometric, saved camera, flat pattern pivots, ...).
   */
  datatype CameraOrientation =
    | Back | Bottom | Front | Left | Right | Top | Arbitrary
    | OtherOrientation(code: int)

  /** The orientations a view may have to be considered at all. */
  const AllowedOrientations: set<CameraOrientation> :=
    {Back, Bottom, Front, Left, Right, Top, Arbitrary}

  datatype Point = Point(x: real, y: real)

  /** A drawing view: size and centre in sheet units, camera, number of breaks already applied. */
  datatype View = View(width: real, height: real, centre: Point, camera: CameraOrientation, breakCount: nat)

  datatype BreakOrientation = HorizontalBreak | VerticalBreak

  datatype BreakStyle = Rectangular | Structural

  /** Everything the host's break-creation call receives. */
  datatype BreakRequest = BreakRequest(
    orientation: BreakOrientation,
    start: Point,
    end: Point,
    style: BreakStyle,
    depth: int,
    gap: real,
    symbols: int)

  /** The two ways the command gives up; each was a message box in the host. */
  datatype Refusal = NoUsableViews | AlreadyBroken

  datatype Outcome = Requested(request: BreakRequest) | Refused(reason: Refusal)

  /** The smallest extent of a break line, in sheet units; also the minimum usable extent minus the gap. */
  const MinBreakExtent: real := 5.0

  /** The depth passed with every break request. */
  const BreakDepth: int := 5

  /** Bounds of the break ratio for which the points helpers report success. */
  const MinValidRatio: real := 0.1
  const MaxValidRatio: real := 0.9

  // ---------------------------------------------------------------------------
  // Selection of the candidate view
  // ---------------------------------------------------------------------------

  /** A view survives the filter exactly when its camera orientation is one of the standard seven. */
  predicate HasAllowedOrientation(v: View)
  {
    v.camera in AllowedOrientations
  }

  function Area(v: View): real
  {
    v.height * v.width
  }

  /** Removes every view whose orientation is not allowed, keeping the others with their multiplicity. */
  function Filter(views: seq<View>): (kept: seq<View>)
    ensures |kept| <= |views|
    ensures forall v :: multiset(kept)[v] == if HasAllowedOrientation(v) then multiset(views)[v] else 0
    ensures forall v :: v in kept <==> v in views && HasAllowedOrientation(v)
  {
    if |views| == 0 then []
    else
      var rest := Filter(views[1..]);
      assert views == [views[0]] + views[1..];
      if HasAllowedOrientation(views[0]) then [views[0]] + rest else rest
  }

  /**
   The comparer the views are sorted with: -1 when `x` is larger, 1 when it is
   smaller, 0 when both have the same area, so that sorting puts the largest
   view first.
   */
  function CompareBySize(x: View, y: View): (c: int)
    ensures c == -1 <==> Area(x) > Area(y)
    ensures c == 1 <==> Area(x) < Area(y)
    ensures c == 0 <==> Area(x) == Area(y)
  {
    var xArea := x.height * x.width;
    var yArea := y.height * y.width;
    if xArea > yArea then -1
    else if xArea < yArea then 1
    else 0
  }

  /** The comparer is antisymmetric, as a sort requires. */
  lemma CompareAntisymmetric(x: View, y: View)
    ensures CompareBySize(x, y) == -CompareBySize(y, x)
  {
  }

  /** The comparer is transitive, as a sort requires. */
  lemma CompareTransitive(x: View, y: View, z: View)
    requires CompareBySize(x, y) <= 0 && CompareBySize(y, z) <= 0
    ensures CompareBySize(x, z) <= 0
  {
  }

  /** `b` is an allowed view of the sheet whose area no other allowed view exceeds. */
  predicate IsBiggest(b: View, views: seq<View>)
  {
    && b in views
    && HasAllowedOrientation(b)
    && forall v :: v in views && HasAllowedOrientation(v) ==> Area(v) <= Area(b)
  }

  /** The first view of largest area, or nothing for an empty sequence. */
  function MaxByArea(views: seq<View>): (best: Option<View>)
    ensures best.None? <==> |views| == 0
    ensures best.Some? ==> best.value in views
    ensures best.Some? ==> forall v :: v in views ==> Area(v) <= Area(best.value)
  {
    if |views| == 0 then None
    else
      match MaxByArea(views[1..])
      case None => Some(views[0])
      case Some(b) => if CompareBySize(views[0], b) <= 0 then Some(views[0]) else Some(b)
  }

  /**
   The candidate view: none when no view has an allowed orientation, otherwise
   an allowed view of largest area. Among views of equal largest area the host's
   unstable sort may return any; this model returns the first in sheet order.
   */
  function GetBiggest(views: seq<View>): (best: Option<View>)
    ensures best.None? <==> forall v :: v in views ==> !HasAllowedOrientation(v)
    ensures best.Some? ==> IsBiggest(best.value, views)
  {
    MaxByArea(Filter(views))
  }

  /** Sorted by the comparer: no view is strictly larger than one before it. */
  ghost predicate SortedDescending(s: seq<View>)
  {
    forall i, j :: 0 <= i < j < |s| ==> CompareBySize(s[i], s[j]) <= 0
  }

  /**
   The host filters the views, sorts them with the comparer and takes the
   first. Whatever order the sort leaves equal views in, that first view is a
   biggest view and has the same area as the one this model picks.
   */
  lemma HeadOfSortedIsBiggest(views: seq<View>, sorted: seq<View>)
    requires multiset(sorted) == multiset(Filter(views))
    requires SortedDescending(sorted)
    requires |sorted| > 0
    ensures IsBiggest(sorted[0], views)
    ensures GetBiggest(views).Some? && Area(GetBiggest(views).value) == Area(sorted[0])
  {
  }

  /** At most one view is a biggest allowed view: there is no tie for the largest area. */
  ghost predicate UniqueBiggest(views: seq<View>)
  {
    forall b1, b2 :: IsBiggest(b1, views) && IsBiggest(b2, views) ==> b1 == b2
  }

  /**
   The order in which the sheet lists its views does not matter to the
   candidate unless two different views tie for the largest area.
   */
  lemma GetBiggestIgnoresOrder(views: seq<View>, reordered: seq<View>)
    requires multiset(reordered) == multiset(views)
    requires UniqueBiggest(views)
    ensures GetBiggest(reordered) == GetBiggest(views)
  {
    forall v
      ensures v in reordered <==> v in views
    {
      assert v in reordered <==> v in multiset(reordered);
      assert v in views <==> v in multiset(views);
    }
    forall b
      ensures IsBiggest(b, reordered) <==> IsBiggest(b, views)
    {
    }
  }

  // ---------------------------------------------------------------------------
  // Geometry of the candidate
  // ---------------------------------------------------------------------------

  /** The dimension a break of the given orientation runs along. */
  function Extent(v: View, horizontal: bool): real
  {
    if horizontal then v.width else v.height
  }

  /** The coordinate of `p` on the axis a break of the given orientation varies along. */
  function Along(p: Point, horizontal: bool): real
  {
    if horizontal then p.x else p.y
  }

  /** The coordinate of `p` on the other axis. */
  function Across(p: Point, horizontal: bool): real
  {
    if horizontal then p.y else p.x
  }

  /** A view is broken along its longer side; a square view counts as horizontal. */
  function IsHorizontal(v: View): (horizontal: bool)
    ensures Extent(v, horizontal) >= Extent(v, !horizontal)
    ensures v.width == v.height ==> horizontal
  {
    v.width >= v.height
  }

  /** A view can be broken when the side the break runs along exceeds the gap by at least 5 units. */
  function CanBeBroken(v: View, horizontal: bool, gap: real): (feasible: bool)
    ensures feasible <==> Extent(v, horizontal) >= gap + MinBreakExtent
  {
    if horizontal then v.width - gap >= 5.0
    else v.height - gap >= 5.0
  }

  function BreakOrientationOf(horizontal: bool): (o: BreakOrientation)
    ensures o == HorizontalBreak <==> horizontal
  {
    if !horizontal then VerticalBreak else HorizontalBreak
  }

  /** Style 1 is structural; 0 and every value outside the two codes is rectangular. */
  function StyleFromInt(code: int): (style: BreakStyle)
    ensures style == Structural <==> code == Settings.StructuralCode
  {
    match code
    case 0 => Rectangular
    case 1 => Structural
    case _ => Rectangular
  }

  /** Every style the settings can hold maps to a break style and back to the same code. */
  lemma StyleRoundTrip(code: int)
    requires code == Settings.RectangularCode || code == Settings.StructuralCode
    ensures (if StyleFromInt(code) == Structural then Settings.StructuralCode else Settings.RectangularCode) == code
  {
  }

  /** A cast of a floating value to an integer: the fractional part is dropped, rounding toward zero. */
  function TruncateToInt(x: real): (n: int)
    ensures x >= 0.0 ==> 0 <= n && n as real <= x < n as real + 1.0
    ensures x < 0.0 ==> n <= 0 && n as real - 1.0 < x <= n as real
  {
    if x >= 0.0 then x.Floor else -((-x).Floor)
  }

  /** A range the settings hold truncates to a whole percentage in the same bounds. */
  lemma TruncatedRangeInBounds(settings: Settings.Config)
    requires settings.Valid()
    ensures 10 <= TruncateToInt(settings.range) <= 90
  {
  }

  function Max(a: real, b: real): real
  {
    if a >= b then a else b
  }

  /** The fraction of the dimension the percentage asks to remove. */
  function RequestedRatio(percentage: int): real
  {
    percentage as real / 100.0
  }

  /** The length of the break line: the requested share of the dimension, but at least 5 units. */
  function BreakExtent(dimension: real, percentage: int): real
  {
    Max(MinBreakExtent, dimension * RequestedRatio(percentage))
  }

  /**
   The ratio actually used: the requested one, raised to 5 / dimension when it
   would give a break shorter than 5 units.
   */
  function BreakRatio(dimension: real, percentage: int): (ratio: real)
    requires dimension > 0.0
    ensures dimension * ratio == BreakExtent(dimension, percentage)
    ensures dimension * RequestedRatio(percentage) >= MinBreakExtent ==> ratio == RequestedRatio(percentage)
  {
    var requested := RequestedRatio(percentage);
    var wanted := dimension * requested;
    if wanted < 5.0 then
      var raised := 5.0 / dimension;
      assert dimension * raised == MinBreakExtent;
      assert BreakExtent(dimension, percentage) == MinBreakExtent;
      raised
    else
      assert BreakExtent(dimension, percentage) == wanted;
      requested
  }

  /** Multiplying both sides by a positive factor keeps their order. */
  lemma ScaleBothSides(d: real, a: real, b: real)
    requires d > 0.0
    ensures a <= b <==> d * a <= d * b
  {
    assert d * b - d * a == d * (b - a);
    if a > b {
      assert d * (a - b) > 0.0;
    }
  }

  /** A ratio of a positive dimension is in [0.1, 0.9] exactly when the length it gives is in that share. */
  lemma RatioInBoundsIff(dimension: real, ratio: real, extent: real)
    requires dimension > 0.0
    requires extent == dimension * ratio
    ensures MinValidRatio <= ratio <= MaxValidRatio
      <==> MinValidRatio * dimension <= extent <= MaxValidRatio * dimension
  {
    ScaleBothSides(dimension, MinValidRatio, ratio);
    ScaleBothSides(dimension, ratio, MaxValidRatio);
  }

  /** The points of a break line and whether its ratio lies in [0.1, 0.9]. */
  datatype BreakPoints = BreakPoints(start: Point, end: Point, valid: bool)

  /**
   `start` and `end` lie on the axis the break varies along, symmetric about
   the view's centre on that axis, `extent` apart; their other coordinate is 0.
   */
  ghost predicate PlacedAbout(start: Point, end: Point, v: View, horizontal: bool, extent: real)
  {
    && Across(start, horizontal) == 0.0
    && Across(end, horizontal) == 0.0
    && Along(start, horizontal) + Along(end, horizontal) == 2.0 * Along(v.centre, horizontal)
    && Along(end, horizontal) - Along(start, horizontal) == extent
  }

  /**
   The break line for `percentage` percent of the view's dimension along the
   break: at least 5 units long, centred on the view, with the other coordinate
   0. The flag tells whether the ratio used lies in [0.1, 0.9].
   */
  function ComputeBreakPoints(v: View, horizontal: bool, percentage: int): (p: BreakPoints)
    requires Extent(v, horizontal) > 0.0
    ensures PlacedAbout(p.start, p.end, v, horizontal, BreakExtent(Extent(v, horizontal), percentage))
    ensures Along(p.end, horizontal) - Along(p.start, horizontal) >= MinBreakExtent
    ensures p.valid <==>
      MinValidRatio * Extent(v, horizontal)
        <= BreakExtent(Extent(v, horizontal), percentage)
        <= MaxValidRatio * Extent(v, horizontal)
  {
    var dimension := Extent(v, horizontal);
    var ratio := BreakRatio(dimension, percentage);
    var breakExtent := dimension * ratio;
    assert breakExtent == BreakExtent(dimension, percentage);
    var centre := Along(v.centre, horizontal);
    var first := centre - breakExtent / 2.0;
    var last := centre + breakExtent / 2.0;
    var valid := MinValidRatio <= ratio <= MaxValidRatio;
    RatioInBoundsIff(dimension, ratio, breakExtent);
    if horizontal then
      BreakPoints(Point(first, 0.0), Point(last, 0.0), valid)
    else
      BreakPoints(Point(0.0, first), Point(0.0, last), valid)
  }

  /**
   For a percentage the settings can hold, the ratio is out of bounds exactly
   when the dimension is below 50/9 units: the 5-unit minimum is then more
   than nine tenths of it.
   */
  lemma InvalidRatioIff(v: View, horizontal: bool, percentage: int)
    requires Extent(v, horizontal) > 0.0
    requires 10 <= percentage <= 90
    ensures !ComputeBreakPoints(v, horizontal, percentage).valid <==> Extent(v, horizontal) < 50.0 / 9.0
  {
  }

  /**
   A view that passes the size check with a gap of at least 5/9 units, such as
   the default 0.6, always yields a ratio in bounds: the discarded flag can only
   be false for smaller or negative gaps.
   */
  lemma FeasibleViewHasValidRatio(v: View, horizontal: bool, gap: real, percentage: int)
    requires CanBeBroken(v, horizontal, gap)
    requires gap >= 5.0 / 9.0
    requires 10 <= percentage <= 90
    ensures Extent(v, horizontal) > 0.0
    ensures ComputeBreakPoints(v, horizontal, percentage).valid
  {
  }

  // ---------------------------------------------------------------------------
  // The decision
  // ---------------------------------------------------------------------------

  /** `r` is the request built for view `b` under `settings`. */
  ghost predicate Describes(r: BreakRequest, b: View, settings: Settings.Config)
  {
    var horizontal := b.width >= b.height;
    var dimension := Extent(b, horizontal);
    && (r.orientation == HorizontalBreak <==> horizontal)
    && PlacedAbout(r.start, r.end, b, horizontal, BreakExtent(dimension, TruncateToInt(settings.range)))
    && (r.style == Structural <==> settings.style == Settings.StructuralCode)
    && r.depth == BreakDepth
    && r.gap == settings.gap
    && r.symbols == settings.symbols
  }

  /**
   The decision once the candidate is known: no candidate or one too small for
   the gap gives `NoUsableViews`, checked before `AlreadyBroken`; otherwise a
   request across the candidate's longer side. The ratio flag of the break
   points is not consulted.
   */
  function Decide(best: Option<View>, settings: Settings.Config): (outcome: Outcome)
    requires best.Some? ==> best.value.width > 0.0 && best.value.height > 0.0
    ensures outcome == Refused(NoUsableViews) <==>
      best.None? || !CanBeBroken(best.value, IsHorizontal(best.value), settings.gap)
    ensures outcome == Refused(AlreadyBroken) <==>
      best.Some? && CanBeBroken(best.value, IsHorizontal(best.value), settings.gap) && best.value.breakCount > 0
    ensures outcome.Requested? ==> best.Some? && Describes(outcome.request, best.value, settings)
  {
    if best.None? || !CanBeBroken(best.value, IsHorizontal(best.value), settings.gap) then
      Refused(NoUsableViews)
    else if best.value.breakCount > 0 then
      Refused(AlreadyBroken)
    else
      var b := best.value;
      var horizontal := IsHorizontal(b);
      var points := ComputeBreakPoints(b, horizontal, TruncateToInt(settings.range));
      Requested(BreakRequest(BreakOrientationOf(horizontal), points.start, points.end,
                             StyleFromInt(settings.style), BreakDepth, settings.gap, settings.symbols))
  }

  /**
   The auto-break command over the views of the active sheet: the biggest view
   with an allowed orientation is the candidate, and `Decide` rules on it.
   */
  function AutoBreak(views: seq<View>, settings: Settings.Config): (outcome: Outcome)
    requires forall v :: v in views ==> v.width > 0.0 && v.height > 0.0
    ensures (forall v :: v in views ==> !HasAllowedOrientation(v)) ==> outcome == Refused(NoUsableViews)
    ensures outcome == Refused(NoUsableViews) ==>
      || (forall v :: v in views ==> !HasAllowedOrientation(v))
      || exists b :: IsBiggest(b, views) && !CanBeBroken(b, IsHorizontal(b), settings.gap)
    ensures outcome == Refused(AlreadyBroken) ==>
      exists b :: IsBiggest(b, views) && CanBeBroken(b, IsHorizontal(b), settings.gap) && b.breakCount > 0
    ensures outcome.Requested? ==>
      exists b :: IsBiggest(b, views) && CanBeBroken(b, IsHorizontal(b), settings.gap) && b.breakCount == 0
        && Describes(outcome.request, b, settings)
  {
    Decide(GetBiggest(views), settings)
  }

  /**
   Under settings the holder can be in and a gap of at least 5/9 units, such as
   the default 0.6, every break the command requests has a ratio in bounds: the
   flag it ignores would have been true.
   */
  lemma RequestedBreakHasValidRatio(views: seq<View>, settings: Settings.Config)
    requires forall v :: v in views ==> v.width > 0.0 && v.height > 0.0
    requires settings.Valid()
    requires settings.gap >= 5.0 / 9.0
    ensures AutoBreak(views, settings).Requested? ==>
      var b := GetBiggest(views).value;
      ComputeBreakPoints(b, IsHorizontal(b), TruncateToInt(settings.range)).valid
  {
    if AutoBreak(views, settings).Requested? {
      var b := GetBiggest(views).value;
      TruncatedRangeInBounds(settings);
      FeasibleViewHasValidRatio(b, IsHorizontal(b), settings.gap, TruncateToInt(settings.range));
    }
  }

  /**
   Without a tie for the largest area the command's outcome does not depend on
   the order of the sheet's views.
   */
  lemma AutoBreakIgnoresOrder(views: seq<View>, reordered: seq<View>, settings: Settings.Config)
    requires forall v :: v in views ==> v.width > 0.0 && v.height > 0.0
    requires multiset(reordered) == multiset(views)
    requires UniqueBiggest(views)
    ensures forall v :: v in reordered ==> v.width > 0.0 && v.height > 0.0
    ensures AutoBreak(reordered, settings) == AutoBreak(views, settings)
  {
    forall v | v in reordered
      ensures v in views
    {
      assert v in multiset(reordered);
    }
    GetBiggestIgnoresOrder(views, reordered);
  }

  /**
   When every biggest view leads to the same decision, the tie among them does
   not matter: all too small gives `NoUsableViews`, all unbroken and large
   enough gives a request, all broken and large enough gives `AlreadyBroken`.
   */
  lemma AutoBreakDecidedByBiggest(views: seq<View>, settings: Settings.Config)
    requires forall v :: v in views ==> v.width > 0.0 && v.height > 0.0
    requires exists v :: v in views && HasAllowedOrientation(v)
    ensures (forall b :: IsBiggest(b, views) ==> !CanBeBroken(b, IsHorizontal(b), settings.gap))
      ==> AutoBreak(views, settings) == Refused(NoUsableViews)
    ensures (forall b :: IsBiggest(b, views) ==> CanBeBroken(b, IsHorizontal(b), settings.gap) && b.breakCount > 0)
      ==> AutoBreak(views, settings) == Refused(AlreadyBroken)
    ensures (forall b :: IsBiggest(b, views) ==> CanBeBroken(b, IsHorizontal(b), settings.gap) && b.breakCount == 0)
      ==> AutoBreak(views, settings).Requested?
  {
  }
}
