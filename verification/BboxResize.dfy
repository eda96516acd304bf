/** The image zoom tool's treatment of a requested bounding box: clamp it to the image, enlarge it when it is
  too small, and round it outwards. Coordinates are exact reals. */
module BboxResize {
  import opened RealArithmetic
  import opened Prelude

  datatype Box = Box(left: real, top: real, right: real, bottom: real) {
    function Width(): real { right - left }
    function Height(): real { bottom - top }
  }

  const MIN_DIMENSION: real := 28.0
  const MAX_ASPECT: real := 100.0

  function Ceil(x: real): int { -((-x).Floor) }

  // ---------------------------------------------------------------- validation

  /** Neither empty nor more than a hundred times longer than wide. */
  predicate Valid(b: Box) {
    b.left < b.right && b.top < b.bottom && Greater(b.Height(), b.Width()) <= MAX_ASPECT * Lesser(b.Height(), b.Width())
  }

  method ValidateBbox(b: Box) returns (ok: bool)
    ensures ok <==> Valid(b)
    ensures ok <==> b.left < b.right && b.top < b.bottom
                    && b.right - b.left <= 100.0 * (b.bottom - b.top) && b.bottom - b.top <= 100.0 * (b.right - b.left)
  {
    if !(b.left < b.right && b.top < b.bottom) {
      return false;
    }
    var height, width := b.bottom - b.top, b.right - b.left;
    if Lesser(height, width) == 0.0 {
      return false;
    }
    DivAtMost(Greater(height, width), Lesser(height, width), MAX_ASPECT);
    if Greater(height, width) / Lesser(height, width) > MAX_ASPECT {
      return false;
    }
    ok := true;
  }

  // ---------------------------------------------------------------- what enlarging means

  function Clamp(b: Box, width: nat, height: nat): Box {
    Box(Greater(0.0, b.left), Greater(0.0, b.top), Lesser(width as real, b.right), Lesser(height as real, b.bottom))
  }

  predicate Inside(b: Box, width: nat, height: nat) {
    0.0 <= b.left && 0.0 <= b.top && b.right <= width as real && b.bottom <= height as real
  }

  predicate Contains(outer: Box, inner: Box) {
    outer.left <= inner.left && outer.top <= inner.top && inner.right <= outer.right && inner.bottom <= outer.bottom
  }

  /** The clamped box is the part of the box in the image: it contains what they both contain. */
  lemma ClampIsCommonPart(b: Box, width: nat, height: nat, x: Box)
    ensures Contains(Clamp(b, width, height), x) <==> Contains(b, x) && Inside(x, width, height)
  {
  }

  predicate TooSmall(b: Box) {
    b.Height() < MIN_DIMENSION || b.Width() < MIN_DIMENSION
  }

  function Ratio(a: real, b: real): real
    requires b != 0.0
  {
    a / b
  }

  function Least(a: real, b: real, c: real): real { Lesser(a, Lesser(b, c)) }

  /** The factor that makes the shorter side `MIN_DIMENSION` long, or else the largest that the image allows. */
  function Scale(b: Box, width: nat, height: nat): real
    requires Valid(b)
  {
    Least(Ratio(MIN_DIMENSION, Lesser(b.Height(), b.Width())),
          Ratio(width as real, b.Width()), Ratio(height as real, b.Height()))
  }

  function Away(x: real, y: real): real { if x < y then y - x else x - y }

  /** `x` is the point of `0..end` that is nearest to `goal`. */
  ghost predicate IsNearest(x: real, goal: real, end: real) {
    0.0 <= x <= end && forall y :: 0.0 <= y <= end ==> Away(x, goal) <= Away(y, goal)
  }

  /** Where a segment of the given size starts: around the centre, or as near to that as the bound allows. */
  function Place(centre: real, size: real, bound: real): real {
    var start := centre - size / 2.0;
    if start < 0.0 then 0.0 else if start + size > bound then bound - size else start
  }

  /** The box of the given size placed for `b`. */
  function Placed(b: Box, w: real, h: real, width: nat, height: nat): Box {
    var left := Place((b.left + b.right) / 2.0, w, width as real);
    var top := Place((b.top + b.bottom) / 2.0, h, height as real);
    Box(left, top, left + w, top + h)
  }

  function Stretch(a: real, s: real): real { a * s }

  function Grown(b: Box, width: nat, height: nat): Box
    requires Valid(b)
  {
    var s := Scale(b, width, height);
    Placed(b, Stretch(b.Width(), s), Stretch(b.Height(), s), width, height)
  }

  /** Rounded outwards to whole pixels. */
  function Rounded(b: Box): Box {
    Box(b.left.Floor as real, b.top.Floor as real, Ceil(b.right) as real, Ceil(b.bottom) as real)
  }

  // ---------------------------------------------------------------- enlarging

  /** A side of a box after scaling. */
  function Enlarged(side: real, s: real): real {
    side * s
  }

  lemma EnlargedIs(side: real, s: real)
    ensures Enlarged(side, s) == side * s
  {
  }

  lemma Regroup(x: real, a: real, s: real)
    ensures x * (a * s) == x * s * a && a * s * x == a * (x * s)
  {
  }

  /** Scaling down by what a side exceeds its bound is scaling by the factor that just fits. */
  lemma ScaledDown(other: real, size: real, s: real, bound: real)
    requires size > 0.0 && s > 0.0
    ensures size * s > 0.0 && bound == size * Ratio(bound, size)
    ensures other * s * Ratio(bound, size * s) == other * Ratio(bound, size)
  {
    var q := Ratio(bound, size);
    DivTimes(bound, size);
    MulLess(0.0, size, s);
    DivTimes(bound, size * s);
    var x := Ratio(bound, size * s);
    Regroup(x, size, s);
    Cancel(x * s, q, size);
    Regroup(x, other, s);
  }

  lemma Fits(size: real, s: real, bound: real)
    requires size > 0.0
    ensures size * s <= bound <==> s <= Ratio(bound, size)
  {
    DivTimes(bound, size);
    Scaled(s, bound / size, size);
  }

  lemma MinIs(a: real, b: real)
    ensures Lesser(a, b) == if b < a then b else a
  {
  }

  lemma FitsEnlarged(side: real, other: real, s: real, bound: real)
    requires side > 0.0 && s > 0.0
    ensures Enlarged(side, s) <= bound <==> s <= Ratio(bound, side)
    ensures Enlarged(side, s) > 0.0 && bound == Enlarged(side, Ratio(bound, side))
    ensures Enlarged(Enlarged(other, s), Ratio(bound, Enlarged(side, s))) == Enlarged(other, Ratio(bound, side))
  {
    Fits(side, s, bound);
    ScaledDown(other, side, s, bound);
  }

  /** Fits one side into its bound: both sides are scaled by the smaller of the two factors. */
  method FitSide(side: real, other: real, bound: real, ghost s: real, ghost side0: real, ghost other0: real)
    returns (fitted: real, otherFitted: real)
    requires side0 > 0.0 && s > 0.0 && side == Enlarged(side0, s) && other == Enlarged(other0, s)
    ensures fitted == Enlarged(side0, Lesser(s, Ratio(bound, side0)))
    ensures otherFitted == Enlarged(other0, Lesser(s, Ratio(bound, side0)))
  {
    hide *;
    fitted, otherFitted := side, other;
    FitsEnlarged(side0, other0, s, bound);
    MinIs(s, Ratio(bound, side0));
    if side > bound {
      var scaleDown := Ratio(bound, side);
      fitted := bound;
      EnlargedIs(other, scaleDown);
      otherFitted := other * scaleDown;
    }
  }

  lemma LeastIs(a: real, b: real, c: real)
    ensures Least(a, b, c) == Lesser(Lesser(a, b), c) && Lesser(a, b) in {a, b}
    ensures Least(a, b, c) in {a, b, c} && Least(a, b, c) <= a && Least(a, b, c) <= b && Least(a, b, c) <= c
  {
  }

  lemma Positive(a: real, b: real)
    requires a > 0.0 && b > 0.0
    ensures Ratio(a, b) > 0.0
  {
    DivAtMost(a, b, 0.0);
  }

  lemma Sides(b: Box, width: nat, height: nat)
    requires Valid(b) && Inside(b, width, height)
    ensures 0.0 < b.Width() <= width as real && 0.0 < b.Height() <= height as real && Lesser(b.Height(), b.Width()) > 0.0
    ensures Ratio(MIN_DIMENSION, Lesser(b.Height(), b.Width())) > 0.0
    ensures Ratio(width as real, b.Width()) >= 1.0 && Ratio(height as real, b.Height()) >= 1.0
    ensures TooSmall(b) ==> Ratio(MIN_DIMENSION, Lesser(b.Height(), b.Width())) >= 1.0
  {
    var m := Lesser(b.Height(), b.Width());
    Positive(MIN_DIMENSION, m);
    Fits(b.Width(), 1.0, width as real);
    Fits(b.Height(), 1.0, height as real);
    Fits(m, 1.0, MIN_DIMENSION);
  }

  lemma ScaleIs(b: Box, width: nat, height: nat)
    requires Valid(b)
    ensures b.Width() > 0.0 && b.Height() > 0.0 && Lesser(b.Height(), b.Width()) > 0.0
    ensures Scale(b, width, height)
            == Least(Ratio(MIN_DIMENSION, Lesser(b.Height(), b.Width())),
                     Ratio(width as real, b.Width()), Ratio(height as real, b.Height()))
  {
  }

  method TargetSize(b: Box, width: nat, height: nat) returns (w: real, h: real)
    requires Valid(b) && Inside(b, width, height)
    ensures w == b.Width() * Scale(b, width, height) && h == b.Height() * Scale(b, width, height)
  {
    hide *;
    Sides(b, width, height);
    ScaleIs(b, width, height);
    var ratio := Ratio(MIN_DIMENSION, Lesser(b.Height(), b.Width()));
    ghost var x, y := Ratio(width as real, b.Width()), Ratio(height as real, b.Height());
    LeastIs(ratio, x, y);
    EnlargedIs(b.Width(), ratio);
    EnlargedIs(b.Height(), ratio);
    EnlargedIs(b.Width(), Scale(b, width, height));
    EnlargedIs(b.Height(), Scale(b, width, height));
    w, h := FitSide(b.Width() * ratio, b.Height() * ratio, width as real, ratio, b.Width(), b.Height());
    h, w := FitSide(h, w, height as real, Lesser(ratio, x), b.Height(), b.Width());
  }

  /** Centres one side and shifts it back over the border it extends beyond. */
  method PlaceSide(centre: real, size: real, bound: real) returns (start: real)
    requires size <= bound
    ensures start == Place(centre, size, bound)
    ensures IsNearest(start, centre - size / 2.0, bound - size)
  {
    start := centre - size / 2.0;
    if start < 0.0 {
      start := 0.0;
    }
    if start + size > bound {
      start := bound - size;
    }
  }

  lemma GrownIs(b: Box, w: real, h: real, width: nat, height: nat)
    requires Valid(b) && w == b.Width() * Scale(b, width, height) && h == b.Height() * Scale(b, width, height)
    ensures Grown(b, width, height) == Placed(b, w, h, width, height)
  {
    hide Placed, Scale, Valid;
  }

  lemma PlacedIs(b: Box, w: real, h: real, width: nat, height: nat)
    ensures var left := Place((b.left + b.right) / 2.0, w, width as real);
            var top := Place((b.top + b.bottom) / 2.0, h, height as real);
            Placed(b, w, h, width, height) == Box(left, top, left + w, top + h)
  {
    hide Place;
  }

  lemma GrowsWithin(b: Box, width: nat, height: nat)
    requires Valid(b) && Inside(b, width, height)
    ensures b.Width() * Scale(b, width, height) <= width as real
    ensures b.Height() * Scale(b, width, height) <= height as real
    ensures TooSmall(b) ==> Scale(b, width, height) >= 1.0
  {
    hide *;
    Sides(b, width, height);
    ScaleIs(b, width, height);
    LeastIs(Ratio(MIN_DIMENSION, Lesser(b.Height(), b.Width())),
            Ratio(width as real, b.Width()), Ratio(height as real, b.Height()));
    Fits(b.Width(), Scale(b, width, height), width as real);
    Fits(b.Height(), Scale(b, width, height), height as real);
  }

  method Enlarge(b: Box, width: nat, height: nat) returns (r: Box)
    requires Valid(b) && Inside(b, width, height)
    ensures r == Rounded(Grown(b, width, height))
  {
    hide *;
    var w, h := TargetSize(b, width, height);
    GrowsWithin(b, width, height);
    GrownIs(b, w, h, width, height);
    PlacedIs(b, w, h, width, height);
    var left := PlaceSide((b.left + b.right) / 2.0, w, width as real);
    var top := PlaceSide((b.top + b.bottom) / 2.0, h, height as real);
    r := Rounded(Box(left, top, left + w, top + h));
  }

  lemma ClampInside(b: Box, width: nat, height: nat)
    ensures Inside(Clamp(b, width, height), width, height)
  {
  }

  /** The final check on the enlarged box. */
  predicate Usable(b: Box) {
    Valid(b) && !TooSmall(b)
  }

  lemma SizeIs(b: Box)
    ensures TooSmall(b) <==> b.bottom - b.top < MIN_DIMENSION || b.right - b.left < MIN_DIMENSION
    ensures b.Height() == b.bottom - b.top && b.Width() == b.right - b.left
    ensures Usable(b) <==> Valid(b) && !TooSmall(b)
  {
  }

  lemma RoundedSize(b: Box)
    ensures var r := Rounded(b);
            (r.bottom.Floor - r.top.Floor) as real == r.bottom - r.top
            && (r.right.Floor - r.left.Floor) as real == r.right - r.left
  {
  }

  lemma FloorApart(a: real, b: real)
    requires b - a >= 28.0
    ensures b.Floor - a.Floor >= 28
  {
  }

  /** Rounding both ends down leaves a large box large, and changes nothing on whole pixels. */
  lemma LargeStaysLarge(b: Box)
    requires !TooSmall(b)
    ensures (b.bottom.Floor - b.top.Floor) as real >= MIN_DIMENSION
    ensures (b.right.Floor - b.left.Floor) as real >= MIN_DIMENSION
  {
    FloorApart(b.top, b.bottom);
    FloorApart(b.left, b.right);
  }

  /** A segment that grows around its centre, and shifts only over a border, still covers what it covered. */
  lemma PlaceCovers(lo: real, hi: real, size: real, bound: real)
    requires 0.0 <= lo <= hi <= bound && hi - lo <= size <= bound
    ensures var start := Place((lo + hi) / 2.0, size, bound);
            0.0 <= start <= lo && hi <= start + size <= bound
  {
  }

  lemma PlacedCovers(b: Box, w: real, h: real, width: nat, height: nat)
    requires Inside(b, width, height) && b.left < b.right && b.top < b.bottom
    requires b.Width() <= w <= width as real && b.Height() <= h <= height as real
    ensures Contains(Placed(b, w, h, width, height), b) && Inside(Placed(b, w, h, width, height), width, height)
  {
    hide Place;
    PlaceCovers(b.left, b.right, w, width as real);
    PlaceCovers(b.top, b.bottom, h, height as real);
  }

  lemma PlaceIsNearest(centre: real, size: real, bound: real)
    requires size <= bound
    ensures IsNearest(Place(centre, size, bound), centre - size / 2.0, bound - size)
  {
  }

  /** The grown box has the size of the box times the scale, and its centre is as near to the box's as the image allows. */
  lemma GrownIsCentred(b: Box, width: nat, height: nat)
    requires Valid(b) && Inside(b, width, height)
    ensures var g, s := Grown(b, width, height), Scale(b, width, height);
            && g.right - g.left == (b.right - b.left) * s && g.bottom - g.top == (b.bottom - b.top) * s
            && IsNearest(g.left, (b.left + b.right) / 2.0 - (g.right - g.left) / 2.0, width as real - (g.right - g.left))
            && IsNearest(g.top, (b.top + b.bottom) / 2.0 - (g.bottom - g.top) / 2.0, height as real - (g.bottom - g.top))
  {
    hide *;
    var s := Scale(b, width, height);
    var w, h := b.Width() * s, b.Height() * s;
    GrowsWithin(b, width, height);
    GrownIs(b, w, h, width, height);
    PlacedIs(b, w, h, width, height);
    SizeIs(b);
    PlaceIsNearest((b.left + b.right) / 2.0, w, width as real);
    PlaceIsNearest((b.top + b.bottom) / 2.0, h, height as real);
  }

  lemma GrownCovers(b: Box, width: nat, height: nat)
    requires Valid(b) && Inside(b, width, height) && TooSmall(b)
    ensures Contains(Grown(b, width, height), b) && Inside(Grown(b, width, height), width, height)
  {
    hide *;
    var s := Scale(b, width, height);
    GrowsWithin(b, width, height);
    Sides(b, width, height);
    MulLe(1.0, s, b.Width());
    MulLe(1.0, s, b.Height());
    GrownIs(b, b.Width() * s, b.Height() * s, width, height);
    SizeIs(b);
    PlacedCovers(b, b.Width() * s, b.Height() * s, width, height);
  }

  lemma FloorBounds(x: real)
    ensures x - 1.0 < x.Floor as real <= x && (x >= 0.0 ==> x.Floor >= 0)
  {
  }

  lemma CeilBounds(x: real, n: nat)
    ensures x <= Ceil(x) as real < x + 1.0 && (x <= n as real ==> Ceil(x) <= n)
  {
  }

  lemma RoundedCovers(b: Box, width: nat, height: nat)
    requires Inside(b, width, height)
    ensures Contains(Rounded(b), b) && Inside(Rounded(b), width, height)
    ensures b.Width() <= Rounded(b).Width() < b.Width() + 2.0
    ensures b.Height() <= Rounded(b).Height() < b.Height() + 2.0
  {
    hide Ceil;
    FloorBounds(b.left);
    FloorBounds(b.top);
    CeilBounds(b.right, width);
    CeilBounds(b.bottom, height);
  }

  /** A box is inside the image, covers the clamped request, and is neither too small nor too long. */
  lemma ResizedIsGood(bbox: Box, width: nat, height: nat)
    requires Valid(Clamp(bbox, width, height))
    ensures var c := Clamp(bbox, width, height);
            var r := if TooSmall(c) then Rounded(Grown(c, width, height)) else c;
            Inside(r, width, height) && Contains(r, c)
  {
    hide Rounded, Grown, Clamp;
    var c := Clamp(bbox, width, height);
    ClampInside(bbox, width, height);
    if TooSmall(c) {
      GrownCovers(c, width, height);
      RoundedCovers(Grown(c, width, height), width, height);
    }
  }

  ghost predicate IsWhole(x: real) {
    x.Floor as real == x
  }

  /** The corners are whole pixels. */
  ghost predicate WholePixels(b: Box) {
    IsWhole(b.left) && IsWhole(b.top) && IsWhole(b.right) && IsWhole(b.bottom)
  }

  lemma FloorIsGreatest(x: real, w: real)
    ensures IsWhole(x.Floor as real) && x.Floor as real <= x && (IsWhole(w) && w <= x ==> w <= x.Floor as real)
  {
  }

  lemma CeilAtMost(x: real, n: int)
    ensures x <= Ceil(x) as real && (x <= n as real ==> Ceil(x) <= n)
  {
  }

  lemma IntegerIsWhole(n: int)
    ensures IsWhole(n as real)
  {
  }

  lemma CeilIsLeast(x: real, w: real)
    ensures IsWhole(Ceil(x) as real) && x <= Ceil(x) as real && (IsWhole(w) && x <= w ==> Ceil(x) as real <= w)
  {
    CeilAtMost(x, w.Floor);
    IntegerIsWhole(Ceil(x));
    hide Ceil;
  }

  /** Rounding gives the smallest box of whole pixels around the box. */
  lemma RoundedIsSmallest(b: Box, x: Box)
    requires WholePixels(x) && Contains(x, b)
    ensures WholePixels(Rounded(b)) && Contains(x, Rounded(b)) && Contains(Rounded(b), b)
  {
    hide IsWhole, Ceil;
    FloorIsGreatest(b.left, x.left);
    FloorIsGreatest(b.top, x.top);
    CeilIsLeast(b.right, x.right);
    CeilIsLeast(b.bottom, x.bottom);
  }

  /** The scale is the largest at which the shorter side has at most 28 pixels and both sides fit into the image. */
  lemma ScaleIsLargest(b: Box, width: nat, height: nat, s: real)
    requires Valid(b)
    ensures s <= Scale(b, width, height) <==>
              Lesser(b.Height(), b.Width()) * s <= MIN_DIMENSION && b.Width() * s <= width as real
              && b.Height() * s <= height as real
  {
    hide *;
    ScaleIs(b, width, height);
    Fits(Lesser(b.Height(), b.Width()), s, MIN_DIMENSION);
    Fits(b.Width(), s, width as real);
    Fits(b.Height(), s, height as real);
    LeastIs(Ratio(MIN_DIMENSION, Lesser(b.Height(), b.Width())), Ratio(width as real, b.Width()),
            Ratio(height as real, b.Height()));
  }

  /** The image has room for the box at the scale that makes its shorter side `MIN_DIMENSION`. */
  predicate Roomy(b: Box, width: nat, height: nat) {
    var m := Lesser(b.Height(), b.Width());
    b.Width() * MIN_DIMENSION <= width as real * m && b.Height() * MIN_DIMENSION <= height as real * m
  }

  /** Whole pixels that a segment touches. */
  function Span(start: real, size: real): int {
    Ceil(start + size) - start.Floor
  }

  /** With room, a shorter side that touches a pixel more than 28 is always accepted, and one of exactly 28 pixels
    when the longer side touches at most 2800. Without room the longer side is the image's, `bound`. */
  predicate AcceptsSides(roomy: bool, short: int, long: int, bound: nat) {
    if roomy then short > 28 || long <= 2800 else 28 <= short && 28 <= bound <= 100 * short
  }

  /** The condition under which a box that is too small is enlarged and not rejected. */
  predicate Accepted(b: Box, width: nat, height: nat)
    requires Valid(b)
  {
    var g := Grown(b, width, height);
    var across, down := Span(g.left, g.Width()), Span(g.top, g.Height());
    if b.Height() <= b.Width() then AcceptsSides(Roomy(b, width, height), down, across, width)
    else AcceptsSides(Roomy(b, width, height), across, down, height)
  }

  lemma RoundedSpans(b: Box)
    ensures Rounded(b).Width() == Span(b.left, b.Width()) as real
    ensures Rounded(b).Height() == Span(b.top, b.Height()) as real
  {
    hide Ceil;
  }

  predicate UsableSides(a: int, b: int) {
    a >= 28 && b >= 28 && a <= 100 * b && b <= 100 * a
  }

  lemma UsableIs(b: Box, w: int, h: int)
    requires b.Width() == w as real && b.Height() == h as real
    ensures Usable(b) <==> UsableSides(w, h) && UsableSides(h, w)
  {
  }

  lemma SpanBounds(start: real, size: real)
    ensures size <= Span(start, size) as real < size + 2.0
  {
    FloorBounds(start);
    CeilBounds(start + size, 0);
    hide Ceil;
  }

  lemma RoomySides(shortStart: real, longStart: real, long: real, bound: nat)
    requires MIN_DIMENSION <= long <= 100.0 * MIN_DIMENSION
    ensures var s, l := Span(shortStart, MIN_DIMENSION), Span(longStart, long);
            UsableSides(s, l) <==> AcceptsSides(true, s, l, bound)
    ensures Span(shortStart, MIN_DIMENSION) > 28 <==> shortStart.Floor as real != shortStart
  {
    SpanBounds(shortStart, MIN_DIMENSION);
    SpanBounds(longStart, long);
  }

  lemma FullSide(centre: real, bound: nat)
    ensures Place(centre, bound as real, bound as real) == 0.0 && Span(0.0, bound as real) == bound
  {
  }

  lemma CrampedSides(shortCentre: real, short: real, shortBound: nat, longCentre: real, long: real, longBound: nat)
    requires 0.0 < short < MIN_DIMENSION && short <= long
    requires long == longBound as real || short == shortBound as real
    ensures var s := Span(Place(shortCentre, short, shortBound as real), short);
            var l := Span(Place(longCentre, long, longBound as real), long);
            UsableSides(s, l) <==> AcceptsSides(false, s, l, longBound)
  {
    var start := Place(shortCentre, short, shortBound as real);
    SpanBounds(start, short);
    hide Span, Place;
    if short == shortBound as real {
      FullSide(shortCentre, shortBound);
    } else {
      FullSide(longCentre, longBound);
    }
  }

  lemma Swap(a: real, b: real, s: real)
    ensures a * s * b == b * s * a
  {
  }

  /** The factor for the minimum does not exceed what a bound allows exactly when the image has room on that side. */
  lemma FitsBy(size: real, x: real, m: real, bound: real)
    requires size > 0.0 && m > 0.0 && x * m == MIN_DIMENSION
    ensures size * MIN_DIMENSION <= bound * m <==> x <= Ratio(bound, size)
  {
    Swap(size, m, x);
    assert size * x * m == size * (x * m);
    Scaled(size * x, bound, m);
    Fits(size, x, bound);
  }

  lemma RatioTimes(a: real, b: real)
    requires b != 0.0
    ensures Ratio(a, b) * b == a && b * Ratio(a, b) == a
  {
    DivTimes(a, b);
  }

  lemma RoomyIs(b: Box, width: nat, height: nat)
    ensures var m := Lesser(b.Height(), b.Width());
            Roomy(b, width, height)
            <==> b.Width() * MIN_DIMENSION <= width as real * m && b.Height() * MIN_DIMENSION <= height as real * m
  {
  }

  lemma RoomyScale(b: Box, width: nat, height: nat)
    requires Valid(b) && Roomy(b, width, height)
    ensures Lesser(b.Height(), b.Width()) * Scale(b, width, height) == MIN_DIMENSION
    ensures Enlarged(Lesser(b.Height(), b.Width()), Scale(b, width, height)) == MIN_DIMENSION
  {
    hide *;
    EnlargedIs(Lesser(b.Height(), b.Width()), Scale(b, width, height));
    ScaleIs(b, width, height);
    RoomyIs(b, width, height);
    var m := Lesser(b.Height(), b.Width());
    var x := Ratio(MIN_DIMENSION, m);
    RatioTimes(MIN_DIMENSION, m);
    FitsBy(b.Width(), x, m, width as real);
    FitsBy(b.Height(), x, m, height as real);
    LeastIs(x, Ratio(width as real, b.Width()), Ratio(height as real, b.Height()));
  }

  /** Without room, the shorter side stays below the minimum and one side is as long as the image. */
  lemma CrampedScale(b: Box, width: nat, height: nat)
    requires Valid(b) && !Roomy(b, width, height)
    ensures Enlarged(Lesser(b.Height(), b.Width()), Scale(b, width, height)) < MIN_DIMENSION
    ensures Enlarged(b.Width(), Scale(b, width, height)) == width as real
            || Enlarged(b.Height(), Scale(b, width, height)) == height as real
  {
    hide *;
    EnlargedIs(Lesser(b.Height(), b.Width()), Scale(b, width, height));
    EnlargedIs(b.Width(), Scale(b, width, height));
    EnlargedIs(b.Height(), Scale(b, width, height));
    ScaleIs(b, width, height);
    RoomyIs(b, width, height);
    var m, s := Lesser(b.Height(), b.Width()), Scale(b, width, height);
    var x := Ratio(MIN_DIMENSION, m);
    RatioTimes(MIN_DIMENSION, m);
    RatioTimes(width as real, b.Width());
    RatioTimes(height as real, b.Height());
    FitsBy(b.Width(), x, m, width as real);
    FitsBy(b.Height(), x, m, height as real);
    LeastIs(x, Ratio(width as real, b.Width()), Ratio(height as real, b.Height()));
    MulLess(s, x, m);
    assert m * s == s * m;
  }

  lemma GrownParts(b: Box, width: nat, height: nat)
    requires Valid(b)
    ensures var g, s := Grown(b, width, height), Scale(b, width, height);
            && g.Width() == Enlarged(b.Width(), s) && g.Height() == Enlarged(b.Height(), s)
            && g.left == Place((b.left + b.right) / 2.0, g.Width(), width as real)
            && g.top == Place((b.top + b.bottom) / 2.0, g.Height(), height as real)
  {
    var s := Scale(b, width, height);
    GrownIs(b, b.Width() * s, b.Height() * s, width, height);
    hide Scale, Grown, Valid, Place;
  }

  lemma EnlargedOrder(a: real, b: real, s: real)
    requires s > 0.0
    ensures a <= b <==> Enlarged(a, s) <= Enlarged(b, s)
  {
    if a <= b {
      MulLe(a, b, s);
    } else {
      MulLess(b, a, s);
    }
  }

  lemma EnlargedPositive(a: real, s: real)
    requires a > 0.0 && s > 0.0
    ensures Enlarged(a, s) > 0.0
  {
    MulLess(0.0, a, s);
  }

  lemma EnlargedWithin(a: real, b: real, k: real, s: real)
    requires a <= k * b && s > 0.0
    ensures Enlarged(a, s) <= k * Enlarged(b, s)
  {
    MulLe(a, k * b, s);
    assert k * b * s == k * (b * s);
  }

  lemma SidesInProportion(b: Box, s: real)
    requires Valid(b) && s > 0.0
    ensures var w, h := Enlarged(b.Width(), s), Enlarged(b.Height(), s);
            (b.Height() <= b.Width() <==> h <= w) && 0.0 < w <= 100.0 * h && 0.0 < h <= 100.0 * w
    ensures Lesser(b.Height(), b.Width()) == if b.Height() <= b.Width() then b.Height() else b.Width()
  {
    var w, h := b.Width(), b.Height();
    assert w > 0.0 && h > 0.0 && w <= MAX_ASPECT * h && h <= MAX_ASPECT * w;
    hide *;
    EnlargedOrder(h, w, s);
    EnlargedPositive(w, s);
    EnlargedPositive(h, s);
    EnlargedWithin(w, h, 100.0, s);
    EnlargedWithin(h, w, 100.0, s);
    MinIs(h, w);
  }

  lemma ScalePositive(b: Box, width: nat, height: nat)
    requires Valid(b) && Inside(b, width, height) && TooSmall(b)
    ensures Scale(b, width, height) > 0.0
  {
    GrowsWithin(b, width, height);
  }

  /** The sides of the enlarged box, given the scale. */
  lemma ScaledSides(b: Box, width: nat, height: nat)
    requires Valid(b) && Inside(b, width, height) && TooSmall(b)
    ensures var s := Scale(b, width, height);
            var w, h := Enlarged(b.Width(), s), Enlarged(b.Height(), s);
            && (b.Height() <= b.Width() <==> h <= w) && 0.0 < w <= 100.0 * h && 0.0 < h <= 100.0 * w
            && var short := if b.Height() <= b.Width() then h else w;
               if Roomy(b, width, height) then short == MIN_DIMENSION
               else short < MIN_DIMENSION && (w == width as real || h == height as real)
  {
    hide *;
    var s := Scale(b, width, height);
    ScalePositive(b, width, height);
    SidesInProportion(b, s);
    if Roomy(b, width, height) {
      RoomyScale(b, width, height);
    } else {
      CrampedScale(b, width, height);
    }
  }

  /** Size and place of the enlarged box. */
  lemma GrownSides(b: Box, width: nat, height: nat)
    requires Valid(b) && Inside(b, width, height) && TooSmall(b)
    ensures var g := Grown(b, width, height);
            && (b.Height() <= b.Width() <==> g.Height() <= g.Width())
            && 0.0 < g.Width() <= 100.0 * g.Height() && 0.0 < g.Height() <= 100.0 * g.Width()
            && g.left == Place((b.left + b.right) / 2.0, g.Width(), width as real)
            && g.top == Place((b.top + b.bottom) / 2.0, g.Height(), height as real)
            && var short := if b.Height() <= b.Width() then g.Height() else g.Width();
               if Roomy(b, width, height) then short == MIN_DIMENSION
               else short < MIN_DIMENSION && (g.Width() == width as real || g.Height() == height as real)
  {
    hide *;
    GrownParts(b, width, height);
    ScaledSides(b, width, height);
  }

  lemma SidesSwap(a: int, b: int)
    ensures UsableSides(a, b) <==> UsableSides(b, a)
  {
  }

  lemma AcceptedMeans(b: Box, width: nat, height: nat)
    requires Valid(b)
    ensures var g := Grown(b, width, height);
            var across, down := Span(g.left, g.Width()), Span(g.top, g.Height());
            Accepted(b, width, height) <==>
              if b.Height() <= b.Width() then AcceptsSides(Roomy(b, width, height), down, across, width)
              else AcceptsSides(Roomy(b, width, height), across, down, height)
  {
    hide Grown, Span, Roomy, Valid, AcceptsSides;
  }

  /** The final check accepts an enlarged box exactly under that condition, for every box and image. */
  lemma AcceptedIsExact(b: Box, width: nat, height: nat)
    requires Valid(b) && Inside(b, width, height) && TooSmall(b)
    ensures Usable(Rounded(Grown(b, width, height))) <==> Accepted(b, width, height)
  {
    hide *;
    var g := Grown(b, width, height);
    var across, down := Span(g.left, g.Width()), Span(g.top, g.Height());
    AcceptedMeans(b, width, height);
    GrownSides(b, width, height);
    RoundedSpans(g);
    UsableIs(Rounded(g), across, down);
    SidesSwap(across, down);
    if Roomy(b, width, height) {
      if b.Height() <= b.Width() {
        RoomySides(g.top, g.left, g.Width(), width);
      } else {
        RoomySides(g.left, g.top, g.Height(), height);
      }
    } else if b.Height() <= b.Width() {
      CrampedSides((b.top + b.bottom) / 2.0, g.Height(), height, (b.left + b.right) / 2.0, g.Width(), width);
    } else {
      CrampedSides((b.left + b.right) / 2.0, g.Width(), width, (b.top + b.bottom) / 2.0, g.Height(), height);
    }
  }

  lemma ContainsAll(outer: Box, middle: Box, inner: Box)
    requires Contains(outer, middle) && Contains(middle, inner)
    ensures Contains(outer, inner)
  {
  }

  /** None exactly when the clamped box is invalid or is too small and, once enlarged, not accepted. */
  method MaybeResizeBbox(bbox: Box, width: nat, height: nat) returns (r: Option<Box>)
    ensures r.None? <==> var c := Clamp(bbox, width, height);
                         !Valid(c) || (TooSmall(c) && !Accepted(c, width, height))
    ensures r.Some? ==> var c := Clamp(bbox, width, height);
                        Valid(c) && r.value == if TooSmall(c) then Rounded(Grown(c, width, height)) else c
    ensures r.Some? ==> Usable(r.value) && Inside(r.value, width, height)
                        && Contains(r.value, Clamp(bbox, width, height))
    ensures r.Some? ==> forall x :: Contains(bbox, x) && Inside(x, width, height) ==> Contains(r.value, x)
    ensures r.Some? && !TooSmall(Clamp(bbox, width, height)) ==>
              forall x :: Contains(r.value, x) ==> Contains(bbox, x) && Inside(x, width, height)
  {
    hide *;
    var current := Clamp(bbox, width, height);
    var valid := ValidateBbox(current);
    if !valid {
      return None;
    }
    ClampInside(bbox, width, height);
    ResizedIsGood(bbox, width, height);
    SizeIs(current);
    if current.bottom - current.top < MIN_DIMENSION || current.right - current.left < MIN_DIMENSION {
      ScaleIs(current, width, height);
      if Lesser(current.bottom - current.top, current.right - current.left) == 0.0 {
        return None;
      }
      RoundedSize(Grown(current, width, height));
      AcceptedIsExact(current, width, height);
      current := Enlarge(current, width, height);
    } else {
      LargeStaysLarge(current);
    }
    valid := ValidateBbox(current);
    SizeIs(current);
    if !valid {
      return None;
    }
    var finalHeight := current.bottom.Floor - current.top.Floor;
    var finalWidth := current.right.Floor - current.left.Floor;
    if finalHeight as real < MIN_DIMENSION || finalWidth as real < MIN_DIMENSION {
      return None;
    }
    r := Some(current);
    forall x | Contains(bbox, x) && Inside(x, width, height) ensures Contains(current, x) {
      ClampIsCommonPart(bbox, width, height, x);
      ContainsAll(current, Clamp(bbox, width, height), x);
    }
    if !TooSmall(Clamp(bbox, width, height)) {
      forall x | Contains(current, x) ensures Contains(bbox, x) && Inside(x, width, height) {
        ClampIsCommonPart(bbox, width, height, x);
      }
    }
  }

  // ---------------------------------------------------------------- what the caller gets

  /** Sides of the enlarged box. */
  lemma GrownSize(b: Box, width: nat, height: nat)
    requires Valid(b)
    ensures Grown(b, width, height).Width() == b.Width() * Scale(b, width, height)
    ensures Grown(b, width, height).Height() == b.Height() * Scale(b, width, height)
  {
    var s := Scale(b, width, height);
    GrownIs(b, b.Width() * s, b.Height() * s, width, height);
    hide Scale, Grown, Valid, Place;
  }

  /** Growing keeps the proportions. */
  lemma GrownKeepsProportions(b: Box, width: nat, height: nat)
    requires Valid(b)
    ensures Grown(b, width, height).Width() * b.Height() == Grown(b, width, height).Height() * b.Width()
  {
    hide *;
    GrownSize(b, width, height);
    Swap(b.Width(), b.Height(), Scale(b, width, height));
  }

  // ---------------------------------------------------------------- when rounding rejects

  lemma WithRoom(short: int, long: int, bound: nat)
    ensures AcceptsSides(true, short, long, bound) <==> short > 28 || long <= 2800
  {
  }

  /** With room, a box is rejected only when its shorter side comes to lie on whole pixels and its longer side
    touches more than 2800. */
  lemma RoomyIsExact(b: Box, width: nat, height: nat)
    requires Valid(b) && Inside(b, width, height) && TooSmall(b) && Roomy(b, width, height)
    ensures var g := Grown(b, width, height);
            Usable(Rounded(g)) <==>
              if b.Height() <= b.Width() then g.top.Floor as real != g.top || Rounded(g).Width() <= 2800.0
              else g.left.Floor as real != g.left || Rounded(g).Height() <= 2800.0
  {
    hide *;
    var g := Grown(b, width, height);
    var across, down := Span(g.left, g.Width()), Span(g.top, g.Height());
    AcceptedIsExact(b, width, height);
    AcceptedMeans(b, width, height);
    WithRoom(down, across, width);
    WithRoom(across, down, height);
    GrownSides(b, width, height);
    RoundedSpans(g);
    if b.Height() <= b.Width() {
      RoomySides(g.top, g.left, g.Width(), width);
    } else {
      RoomySides(g.left, g.top, g.Height(), height);
    }
  }

  lemma LongestSide(b: Box, s: real)
    requires s > 0.0 && Lesser(b.Height(), b.Width()) * s == MIN_DIMENSION
    requires MIN_DIMENSION * Greater(b.Height(), b.Width()) <= 2799.0 * Lesser(b.Height(), b.Width())
    ensures b.Width() * s <= 2799.0 && b.Height() * s <= 2799.0
  {
    var m, l := Lesser(b.Height(), b.Width()), Greater(b.Height(), b.Width());
    MulLe(28.0 * l, 2799.0 * m, s);
    assert 2799.0 * m * s == 2799.0 * (m * s) && 28.0 * l * s == 28.0 * (l * s);
    MulLe(b.Width(), l, s);
    MulLe(b.Height(), l, s);
  }

  lemma GrownLongest(b: Box, width: nat, height: nat)
    requires Valid(b) && Inside(b, width, height) && TooSmall(b) && Roomy(b, width, height)
    requires MIN_DIMENSION * Greater(b.Height(), b.Width()) <= 2799.0 * Lesser(b.Height(), b.Width())
    ensures Grown(b, width, height).Width() <= 2799.0 && Grown(b, width, height).Height() <= 2799.0
  {
    hide *;
    GrowsWithin(b, width, height);
    GrownSize(b, width, height);
    RoomyScale(b, width, height);
    LongestSide(b, Scale(b, width, height));
  }

  /** So with room every box is accepted whose longer side is at most 2799 / 28 times the shorter: 28 pixels of the
    shorter side then make at most 2799 of the longer, and rounding adds less than two. */
  lemma RoomIsEnough(b: Box, width: nat, height: nat)
    requires Valid(b) && Inside(b, width, height) && TooSmall(b) && Roomy(b, width, height)
    requires MIN_DIMENSION * Greater(b.Height(), b.Width()) <= 2799.0 * Lesser(b.Height(), b.Width())
    ensures Usable(Rounded(Grown(b, width, height)))
  {
    hide *;
    var g := Grown(b, width, height);
    GrownLongest(b, width, height);
    RoundedSpans(g);
    SpanBounds(g.left, g.Width());
    SpanBounds(g.top, g.Height());
    RoomyIsExact(b, width, height);
  }

  lemma ShorterIs(a: real, b: real)
    ensures Lesser(a, b) in {a, b} && Lesser(a, b) <= a && Lesser(a, b) <= b
  {
  }

  /** An enlarged box is returned only if its shorter side, before rounding, is within two pixels of the minimum. */
  lemma RoundingGainsLittle(b: Box, width: nat, height: nat)
    requires Valid(b) && Inside(b, width, height) && TooSmall(b) && Usable(Rounded(Grown(b, width, height)))
    ensures Lesser(b.Height(), b.Width()) * Scale(b, width, height) > MIN_DIMENSION - 2.0
  {
    hide *;
    GrownCovers(b, width, height);
    GrownSize(b, width, height);
    RoundedCovers(Grown(b, width, height), width, height);
    SizeIs(Rounded(Grown(b, width, height)));
    ShorterIs(b.Height(), b.Width());
  }

  /** A valid box of aspect ratio exactly 100, in a large image, that rounding makes too long. */
  lemma RoundingCanReject()
    ensures var b := Box(2000.5, 2000.5, 2100.5, 2001.5);
            && Clamp(b, 5000, 5000) == b && Valid(b) && TooSmall(b) && Roomy(b, 5000, 5000)
            && !Usable(Rounded(Grown(b, 5000, 5000)))
  {
    var b := Box(2000.5, 2000.5, 2100.5, 2001.5);
    RoomyScale(b, 5000, 5000);
    assert Scale(b, 5000, 5000) == 28.0;
    GrownIs(b, 2800.0, 28.0, 5000, 5000);
    assert Grown(b, 5000, 5000) == Box(650.5, 1987.0, 3450.5, 2015.0);
    assert Rounded(Grown(b, 5000, 5000)) == Box(650.0, 1987.0, 3451.0, 2015.0);
  }
}
