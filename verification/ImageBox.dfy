// Clamping and growing a crop box (verl/verl/tools/image_zoom_in_tool.py) in
// exact real arithmetic.

module ImageBox {
  import Numbers
  import opened Results

  const MIN_DIMENSION := 28

  datatype Box = Box(left: real, top: real, right: real, bottom: real) {
    function Width(): real {
      right - left
    }

    function Height(): real {
      bottom - top
    }
  }

  function Min(x: real, y: real): real {
    if x <= y then x else y
  }

  function Max(x: real, y: real): real {
    if x >= y then x else y
  }

  /** Product and quotient by name, so that proofs can treat them as atoms. */
  function Times(x: real, y: real): real {
    x * y
  }

  function Over(x: real, y: real): real
    requires y != 0.0
  {
    x / y
  }

  function Ceil(x: real): int {
    -(-x).Floor
  }

  function Clamp(b: Box, width: nat, height: nat): Box {
    Box(Max(0.0, b.left), Max(0.0, b.top), Min(width as real, b.right), Min(height as real, b.bottom))
  }

  /** Neither empty nor more than 100 times as long as it is short. */
  predicate ValidBbox(b: Box) {
    && b.left < b.right && b.top < b.bottom
    && Over(Max(b.Height(), b.Width()), Min(b.Height(), b.Width())) <= 100.0
  }

  predicate Small(b: Box) {
    b.Height() < MIN_DIMENSION as real || b.Width() < MIN_DIMENSION as real
  }

  predicate LargeEnough(b: Box) {
    b.bottom.Floor - b.top.Floor >= MIN_DIMENSION && b.right.Floor - b.left.Floor >= MIN_DIMENSION
  }

  // ---------- what the result should be ----------

  /** The largest factor, up to the one that makes the short side 28, at which the box still fits the image. */
  function Factor(b: Box, width: nat, height: nat): real
    requires ValidBbox(b)
  {
    Min(Over(MIN_DIMENSION as real, Min(b.Height(), b.Width())),
        Min(Over(width as real, b.Width()), Over(height as real, b.Height())))
  }

  /** Start of an interval of the given size around a centre, moved as little as needed to lie in [0, limit]. */
  function Placed(centre: real, size: real, limit: real): real {
    Min(limit - size, Max(0.0, centre - size / 2.0))
  }

  function Scaled(lo: real, hi: real, factor: real, limit: real): (real, real) {
    var size := Times(hi - lo, factor);
    var start := Placed((lo + hi) / 2.0, size, limit);
    (start, start + size)
  }

  function Grown(b: Box, width: nat, height: nat): Box
    requires ValidBbox(b)
  {
    var f := Factor(b, width, height);
    var x, y := Scaled(b.left, b.right, f, width as real), Scaled(b.top, b.bottom, f, height as real);
    Box(x.0, y.0, x.1, y.1)
  }

  function Rounded(b: Box): Box {
    Box(b.left.Floor as real, b.top.Floor as real, Ceil(b.right) as real, Ceil(b.bottom) as real)
  }

  function Resized(b: Box, width: nat, height: nat): Option<Box> {
    var c := Clamp(b, width, height);
    if !ValidBbox(c) then None
    else if !Small(c) then Some(c)
    else
      var r := Rounded(Grown(c, width, height));
      if ValidBbox(r) && LargeEnough(r) then Some(r) else None
  }

  // ---------- the computation ----------

  lemma {:induction false} Quotient(x: real, y: real)
    requires y > 0.0
    ensures (x / y) * y == x
  {
  }

  lemma {:induction false} Scales(x: real, y: real, z: real)
    requires z > 0.0
    ensures x < y <==> x * z < y * z
    ensures x == y <==> x * z == y * z
  {
  }

  /** Shrinking a side to a limit rescales the other side by the same factor. */
  lemma {:induction false} ScaleDown(size: real, other: real, f: real, limit: real)
    requires size > 0.0 && f > 0.0 && Times(size, f) > limit
    ensures Times(Times(other, f), Over(limit, Times(size, f))) == Times(other, Over(limit, size))
  {
    var q, g := limit / (size * f), limit / size;
    Quotient(limit, size * f);
    Quotient(limit, size);
    assert (q * f) * size == q * (size * f);
    Scales(q * f, g, size);
    assert other * f * q == other * (q * f);
  }

  lemma {:induction false} FitsBelow(size: real, f: real, limit: real)
    requires size > 0.0
    ensures Times(size, f) <= limit <==> f <= Over(limit, size)
    ensures Times(size, Over(limit, size)) == limit
  {
    Quotient(limit, size);
    Scales(limit / size, f, size);
  }

  lemma {:induction false} OverPositive(x: real, y: real)
    requires 0.0 < x && 0.0 < y
    ensures Over(x, y) > 0.0
  {
  }

  method MaybeResizeBbox(bbox: Box, imageWidth: nat, imageHeight: nat) returns (r: Option<Box>)
    ensures r == Resized(bbox, imageWidth, imageHeight)
  {
    var clamped := Clamp(bbox, imageWidth, imageHeight);
    if !ValidBbox(clamped) {
      return None;
    }
    var current := clamped;
    if Small(clamped) {
      current := Resize(clamped, imageWidth, imageHeight);
    } else {
      UnresizedIsLarge(clamped);
    }
    hide ValidBbox, Small, Clamp, Rounded, Grown;
    if !ValidBbox(current) {
      return None;
    }
    var finalHeight := current.bottom.Floor - current.top.Floor;
    var finalWidth := current.right.Floor - current.left.Floor;
    if finalHeight < MIN_DIMENSION || finalWidth < MIN_DIMENSION {
      return None;
    }
    r := Some(current);
  }

  /** The box grown around its centre, shifted into the image and rounded outwards. */
  method Resize(c: Box, imageWidth: nat, imageHeight: nat) returns (r: Box)
    requires ValidBbox(c)
    requires 0.0 <= c.left && 0.0 <= c.top && c.right <= imageWidth as real && c.bottom <= imageHeight as real
    ensures r == Rounded(Grown(c, imageWidth, imageHeight))
  {
    hide Times, Over, Placed, Factor;
    var targetWidth, targetHeight := TargetSize(c, imageWidth, imageHeight);
    var newLeft := Start((c.left + c.right) / 2.0, targetWidth, imageWidth);
    var newTop := Start((c.top + c.bottom) / 2.0, targetHeight, imageHeight);
    var newRight, newBottom := newLeft + targetWidth, newTop + targetHeight;
    r := Box(newLeft.Floor as real, newTop.Floor as real, Ceil(newRight) as real, Ceil(newBottom) as real);
  }

  /** Short side to 28, then down again so that both sides fit the image. */
  method TargetSize(c: Box, imageWidth: nat, imageHeight: nat) returns (targetWidth: real, targetHeight: real)
    requires ValidBbox(c)
    requires 0.0 <= c.left && 0.0 <= c.top && c.right <= imageWidth as real && c.bottom <= imageHeight as real
    ensures targetWidth == Times(c.Width(), Factor(c, imageWidth, imageHeight)) <= imageWidth as real
    ensures targetHeight == Times(c.Height(), Factor(c, imageWidth, imageHeight)) <= imageHeight as real
  {
    hide Times, Over;
    var width, height := c.Width(), c.Height();
    var ratio := Over(MIN_DIMENSION as real, Min(height, width));
    OverPositive(MIN_DIMENSION as real, Min(height, width));
    OverPositive(imageWidth as real, width);
    targetWidth, targetHeight := ShrinkToFit(width, height, Times(width, ratio), Times(height, ratio), ratio, imageWidth);
    ghost var f := Min(ratio, Over(imageWidth as real, width));
    targetHeight, targetWidth := ShrinkToFit(height, width, targetHeight, targetWidth, f, imageHeight);
    ghost var g := Factor(c, imageWidth, imageHeight);
    FitsBelow(width, g, imageWidth as real);
    FitsBelow(height, g, imageHeight as real);
  }

  /** One of the two shrinking steps: `target` and `targetOther` are the sides scaled by f. */
  method ShrinkToFit(size: real, other: real, target: real, targetOther: real, ghost f: real, limit: nat)
    returns (newTarget: real, newOther: real)
    requires size > 0.0 && f > 0.0 && target == Times(size, f) && targetOther == Times(other, f)
    ensures newTarget == Times(size, Min(f, Over(limit as real, size)))
    ensures newOther == Times(other, Min(f, Over(limit as real, size)))
  {
    newTarget, newOther := target, targetOther;
    FitsBelow(size, f, limit as real);
    if target > limit as real {
      ScaleDown(size, other, f, limit as real);
      Positive(size, f);
      hide Times, Over;
      var scaleDown := Over(limit as real, target);
      newTarget := limit as real;
      newOther := Times(targetOther, scaleDown);
    }
  }

  lemma {:induction false} Positive(x: real, y: real)
    requires x > 0.0 && y > 0.0
    ensures Times(x, y) > 0.0
  {
  }

  /** Centres an interval and shifts it back inside the image. */
  method Start(centre: real, size: real, limit: nat) returns (start: real)
    requires size <= limit as real
    ensures start == Placed(centre, size, limit as real)
  {
    start := centre - size / 2.0;
    if start < 0.0 {
      start := 0.0;
    }
    if start + size > limit as real {
      start := limit as real - size;
    }
  }

  // ---------- properties ----------

  lemma {:induction false} UnresizedIsLarge(c: Box)
    requires !Small(c)
    ensures LargeEnough(c)
  {
    FloorGap(c.left, c.right, MIN_DIMENSION);
    FloorGap(c.top, c.bottom, MIN_DIMENSION);
  }

  lemma {:induction false} FloorGap(lo: real, hi: real, gap: int)
    requires hi - lo >= gap as real
    ensures hi.Floor - lo.Floor >= gap
  {
  }

  ghost predicate Inside(b: Box, width: nat, height: nat) {
    0.0 <= b.left && 0.0 <= b.top && b.right <= width as real && b.bottom <= height as real
  }

  ghost predicate Contains(outer: Box, inner: Box) {
    outer.left <= inner.left && outer.top <= inner.top && inner.right <= outer.right && inner.bottom <= outer.bottom
  }

  lemma {:induction false} FactorAtLeastOne(c: Box, width: nat, height: nat)
    requires ValidBbox(c) && Small(c) && Inside(c, width, height)
    ensures 1.0 <= Factor(c, width, height)
    ensures Times(c.Width(), Factor(c, width, height)) <= width as real
    ensures Times(c.Height(), Factor(c, width, height)) <= height as real
  {
    var f := Factor(c, width, height);
    AtLeast(Min(c.Height(), c.Width()), MIN_DIMENSION as real);
    AtLeast(c.Width(), width as real);
    AtLeast(c.Height(), height as real);
    FitsBelow(c.Width(), f, width as real);
    FitsBelow(c.Height(), f, height as real);
    hide Times, Over;
  }

  /** The factor is the largest one, up to that which makes the short side 28, at which both sides fit the image. */
  lemma {:induction false} FactorIsLargest(c: Box, width: nat, height: nat, f: real)
    requires ValidBbox(c)
    ensures f <= Factor(c, width, height) <==>
            && Times(Min(c.Height(), c.Width()), f) <= MIN_DIMENSION as real
            && Times(c.Width(), f) <= width as real && Times(c.Height(), f) <= height as real
  {
    FitsBelow(Min(c.Height(), c.Width()), f, MIN_DIMENSION as real);
    FitsBelow(c.Width(), f, width as real);
    FitsBelow(c.Height(), f, height as real);
    hide Times, Over;
  }

  lemma {:induction false} AtLeast(size: real, limit: real)
    requires 0.0 < size <= limit
    ensures Over(limit, size) >= 1.0
  {
    FitsBelow(size, 1.0, limit);
  }

  lemma {:induction false} TimesAtLeast(size: real, f: real)
    requires 0.0 < size && 1.0 <= f
    ensures size <= Times(size, f)
  {
  }

  /** An interval grown around its centre and shifted into the image still covers the original one. */
  lemma {:induction false} ScaledCovers(lo: real, hi: real, f: real, limit: real)
    requires 0.0 <= lo < hi <= limit && 1.0 <= f && Times(hi - lo, f) <= limit
    ensures 0.0 <= Scaled(lo, hi, f, limit).0 <= lo && hi <= Scaled(lo, hi, f, limit).1 <= limit
    ensures Scaled(lo, hi, f, limit).1 - Scaled(lo, hi, f, limit).0 == Times(hi - lo, f)
  {
    TimesAtLeast(hi - lo, f);
    hide Times;
  }

  /** ... and is centred there whenever the centred interval lies in the image. */
  lemma {:induction false} ScaledIsCentred(lo: real, hi: real, f: real, limit: real)
    requires 0.0 <= (lo + hi) / 2.0 - Times(hi - lo, f) / 2.0 && (lo + hi) / 2.0 + Times(hi - lo, f) / 2.0 <= limit
    ensures Scaled(lo, hi, f, limit).0 + Scaled(lo, hi, f, limit).1 == lo + hi
  {
    hide Times;
  }

  /** ... and otherwise it starts as near as the image allows to where the centred interval starts. */
  lemma {:induction false} ScaledIsNearest(lo: real, hi: real, f: real, limit: real, start: real)
    requires 0.0 <= start && start + Times(hi - lo, f) <= limit
    ensures var centred := (lo + hi) / 2.0 - Times(hi - lo, f) / 2.0;
            var s := Scaled(lo, hi, f, limit).0;
            && Scaled(lo, hi, f, limit).1 == s + Times(hi - lo, f)
            && (centred <= s <= start || start <= s <= centred)
  {
    hide Times;
  }

  lemma {:induction false} GrownCovers(c: Box, width: nat, height: nat)
    requires ValidBbox(c) && Small(c) && Inside(c, width, height)
    ensures Inside(Grown(c, width, height), width, height) && Contains(Grown(c, width, height), c)
    ensures Grown(c, width, height).Width() == Times(c.Width(), Factor(c, width, height))
    ensures Grown(c, width, height).Height() == Times(c.Height(), Factor(c, width, height))
  {
    FactorAtLeastOne(c, width, height);
    ScaledCovers(c.left, c.right, Factor(c, width, height), width as real);
    ScaledCovers(c.top, c.bottom, Factor(c, width, height), height as real);
    hide Times, Factor, Scaled;
  }

  lemma {:induction false} RoundedCovers(b: Box, width: nat, height: nat)
    requires Inside(b, width, height)
    ensures Inside(Rounded(b), width, height) && Contains(Rounded(b), b)
  {
    FloorAndCeil(b.left, width);
    FloorAndCeil(b.right, width);
    FloorAndCeil(b.top, height);
    FloorAndCeil(b.bottom, height);
    hide Ceil;
  }

  /** Rounding outwards gives the smallest box with whole edges that contains the given one. */
  lemma {:induction false} RoundedIsSmallest(b: Box, left: int, top: int, right: int, bottom: int)
    ensures Contains(Box(left as real, top as real, right as real, bottom as real), b) <==>
            Contains(Box(left as real, top as real, right as real, bottom as real), Rounded(b))
  {
    WholeEdge(b.left, left);
    WholeEdge(b.top, top);
    WholeEdge(-b.right, -right);
    WholeEdge(-b.bottom, -bottom);
  }

  lemma {:induction false} WholeEdge(x: real, k: int)
    ensures k as real <= x <==> k <= x.Floor
    ensures k <= x.Floor <==> k as real <= x.Floor as real
  {
  }

  lemma {:induction false} FloorAtLeast(y: real, k: int)
    requires k as real <= y
    ensures k <= y.Floor && y.Floor as real <= y
  {
  }

  lemma {:induction false} FloorAndCeil(x: real, limit: nat)
    ensures x.Floor as real <= x <= Ceil(x) as real
    ensures 0.0 <= x ==> 0.0 <= x.Floor as real
    ensures x <= limit as real ==> Ceil(x) as real <= limit as real
  {
    if 0.0 <= x {
      FloorAtLeast(x, 0);
    }
    if x <= limit as real {
      CeilAtMost(x, limit);
    }
  }

  lemma {:induction false} CeilAtMost(x: real, limit: int)
    requires x <= limit as real
    ensures Ceil(x) <= limit
  {
    assert (-limit) as real == -(limit as real);
    FloorAtLeast(-x, -limit);
  }

  ghost predicate HasPoint(b: Box, x: real, y: real) {
    b.left <= x <= b.right && b.top <= y <= b.bottom
  }

  function Image(width: nat, height: nat): Box {
    Box(0.0, 0.0, width as real, height as real)
  }

  /** The clamped box is the part of the box that lies in the image. */
  lemma {:induction false} ClampIsIntersection(b: Box, width: nat, height: nat)
    ensures forall x, y :: HasPoint(Clamp(b, width, height), x, y) <==>
                             HasPoint(b, x, y) && HasPoint(Image(width, height), x, y)
  {
  }

  /** ... and as long as there is such a part, that fixes all four edges. */
  lemma {:induction false} SamePointsSameBox(a: Box, b: Box, x: real, y: real)
    requires forall u, v :: HasPoint(a, u, v) <==> HasPoint(b, u, v)
    requires HasPoint(a, x, y)
    ensures a == b
  {
    assert HasPoint(a, a.left, a.top) && HasPoint(a, a.right, a.bottom);
    assert HasPoint(b, b.left, b.top) && HasPoint(b, b.right, b.bottom);
  }

  /** Every returned box lies in the image, contains every point of the given box that does, and is at least 28 on
      both floored sides; where that part needs no resizing, it is the answer, point by point. */
  lemma {:induction false} ReturnedBox(bbox: Box, width: nat, height: nat)
    requires Resized(bbox, width, height).Some?
    ensures var r := Resized(bbox, width, height).value;
            && Inside(r, width, height) && Contains(r, Clamp(bbox, width, height)) && LargeEnough(r)
            && (forall x, y :: HasPoint(bbox, x, y) && HasPoint(Image(width, height), x, y) ==> HasPoint(r, x, y))
            && (!Small(Clamp(bbox, width, height)) ==>
                  forall x, y :: HasPoint(r, x, y) ==> HasPoint(bbox, x, y) && HasPoint(Image(width, height), x, y))
  {
    var c := Clamp(bbox, width, height);
    ClampIsIntersection(bbox, width, height);
    if Small(c) {
      GrownCovers(c, width, height);
      RoundedCovers(Grown(c, width, height), width, height);
    } else {
      UnresizedIsLarge(c);
    }
    hide Grown, Rounded, ValidBbox, Image, Clamp;
    assert forall x, y :: HasPoint(c, x, y) ==> HasPoint(Resized(bbox, width, height).value, x, y);
  }

  /** What clamping leaves is refused when it is empty or more than 100 times as long as it is short; otherwise it
      is returned as it is when both sides are at least 28. */
  lemma {:induction false} AspectDecides(bbox: Box, width: nat, height: nat)
    ensures var c := Clamp(bbox, width, height);
            var short, long := Min(c.Height(), c.Width()), Max(c.Height(), c.Width());
            && (short <= 0.0 || long > 100.0 * short ==> Resized(bbox, width, height) == None)
            && (short >= MIN_DIMENSION as real && long <= 100.0 * short ==> Resized(bbox, width, height) == Some(c))
  {
    var c := Clamp(bbox, width, height);
    var short, long := Min(c.Height(), c.Width()), Max(c.Height(), c.Width());
    if short > 0.0 {
      OverAtMost(long, short, 100.0);
      TimesHundred(short);
    }
    hide Clamp, Times, Over, Grown, Rounded, LargeEnough;
  }

  /** The short side can reach 28 inside the image. */
  ghost predicate HasRoom(c: Box, width: nat, height: nat)
    requires ValidBbox(c)
  {
    Factor(c, width, height) == Over(MIN_DIMENSION as real, Min(c.Height(), c.Width()))
  }

  lemma {:induction false} RoundedSide(lo: real, hi: real, size: real)
    requires hi - lo == size
    ensures size <= (Ceil(hi) - lo.Floor) as real < size + 2.0
  {
  }

  /** With room, the grown box has its short side exactly 28, so it is never too small after rounding. */
  lemma {:induction false} RoomIsEnough(c: Box, width: nat, height: nat)
    requires ValidBbox(c) && Small(c) && Inside(c, width, height) && HasRoom(c, width, height)
    ensures Min(Grown(c, width, height).Height(), Grown(c, width, height).Width()) == MIN_DIMENSION as real
    ensures LargeEnough(Rounded(Grown(c, width, height)))
    ensures ValidBbox(Rounded(Grown(c, width, height))) <==> Resized(c, width, height) == Some(Rounded(Grown(c, width, height)))
  {
    var f, g := Factor(c, width, height), Grown(c, width, height);
    var short, long := Min(c.Height(), c.Width()), Max(c.Height(), c.Width());
    GrownCovers(c, width, height);
    FitsBelow(short, f, MIN_DIMENSION as real);
    TimesMonotone(short, long, f);
    RoundedSide(g.left, g.right, g.Width());
    RoundedSide(g.top, g.bottom, g.Height());
    assert Clamp(c, width, height) == c;
    hide Times, Over, Factor, Grown, Ceil;
  }

  lemma {:induction false} TimesMonotone(x: real, y: real, f: real)
    requires x <= y && 0.0 <= f
    ensures Times(x, f) <= Times(y, f)
  {
  }

  lemma {:induction false} OverAtMost(x: real, y: real, k: real)
    requires y > 0.0
    ensures Over(x, y) <= k <==> x <= Times(y, k)
  {
    Quotient(x, y);
    Scales(k, x / y, y);
  }

  /** With room and an aspect ratio of at most 99 the grown box is always returned. */
  lemma {:induction false} RoomAndAspectSuffice(c: Box, width: nat, height: nat)
    requires ValidBbox(c) && Small(c) && Inside(c, width, height) && HasRoom(c, width, height)
    requires Over(Max(c.Height(), c.Width()), Min(c.Height(), c.Width())) <= 99.0
    ensures Resized(c, width, height) == Some(Rounded(Grown(c, width, height)))
  {
    var f, g := Factor(c, width, height), Grown(c, width, height);
    var r := Rounded(g);
    var short, long := Min(c.Height(), c.Width()), Max(c.Height(), c.Width());
    RoomIsEnough(c, width, height);
    GrownCovers(c, width, height);
    FactorAtLeastOne(c, width, height);
    OverAtMost(long, short, 99.0);
    FitsBelow(short, f, MIN_DIMENSION as real);
    LongSide(short, long, f, 99.0);
    RoundedSide(g.left, g.right, g.Width());
    RoundedSide(g.top, g.bottom, g.Height());
    SidesOfRounded(g);
    OverAtMost(Max(r.Height(), r.Width()), Min(r.Height(), r.Width()), 100.0);
    TimesHundred(Min(r.Height(), r.Width()));
    hide Times, Over, Factor, Grown, Ceil, Resized, Rounded, LargeEnough;
  }

  lemma {:induction false} SidesOfRounded(g: Box)
    ensures Rounded(g).Width() == (Ceil(g.right) - g.left.Floor) as real
    ensures Rounded(g).Height() == (Ceil(g.bottom) - g.top.Floor) as real
  {
  }

  lemma {:induction false} LongSide(short: real, long: real, f: real, aspect: real)
    requires 0.0 < f && long <= Times(short, aspect) && Times(short, f) == MIN_DIMENSION as real
    ensures Times(long, f) <= Times(MIN_DIMENSION as real, aspect)
  {
    TimesMonotone(long, short * aspect, f);
    assert (short * aspect) * f == (short * f) * aspect;
  }

  function RoundedShort(g: Box): int {
    Numbers.Min(Ceil(g.right) - g.left.Floor, Ceil(g.bottom) - g.top.Floor)
  }

  function RoundedLong(g: Box): int {
    Numbers.Max(Ceil(g.right) - g.left.Floor, Ceil(g.bottom) - g.top.Floor)
  }

  /** With room, the grown box is refused exactly when rounding leaves its short side at 28 and takes its long side
      above 2800. */
  lemma {:induction false} RefusedExactly(c: Box, width: nat, height: nat)
    requires ValidBbox(c) && Small(c) && Inside(c, width, height) && HasRoom(c, width, height)
    ensures var g := Grown(c, width, height);
            && (Resized(c, width, height) == None <==> RoundedShort(g) == MIN_DIMENSION && RoundedLong(g) > 100 * MIN_DIMENSION)
            && (Resized(c, width, height).Some? ==> Resized(c, width, height) == Some(Rounded(g)))
  {
    var f, g := Factor(c, width, height), Grown(c, width, height);
    var r := Rounded(g);
    var short, long := Min(c.Height(), c.Width()), Max(c.Height(), c.Width());
    RoomIsEnough(c, width, height);
    GrownCovers(c, width, height);
    FactorAtLeastOne(c, width, height);
    assert Clamp(c, width, height) == c;
    OverAtMost(long, short, 100.0);
    FitsBelow(short, f, MIN_DIMENSION as real);
    LongSide(short, long, f, 100.0);
    RoundedSide(g.left, g.right, g.Width());
    RoundedSide(g.top, g.bottom, g.Height());
    SidesOfRounded(g);
    OverAtMost(Max(r.Height(), r.Width()), Min(r.Height(), r.Width()), 100.0);
    TimesHundred(Min(r.Height(), r.Width()));
    hide Times, Over, Factor, Grown, Ceil, Rounded, LargeEnough;
  }

  /** With or without room, a small box is returned grown exactly when its rounded sides are at least 28 and the
      longer is at most 100 times the shorter. */
  lemma {:induction false} GrownExactly(bbox: Box, width: nat, height: nat)
    requires ValidBbox(Clamp(bbox, width, height)) && Small(Clamp(bbox, width, height))
    ensures var g := Grown(Clamp(bbox, width, height), width, height);
            Resized(bbox, width, height) ==
            if RoundedShort(g) >= MIN_DIMENSION && RoundedLong(g) <= 100 * RoundedShort(g) then Some(Rounded(g)) else None
  {
    var g := Grown(Clamp(bbox, width, height), width, height);
    var r := Rounded(g);
    SidesOfRounded(g);
    WholeSides(g);
    if RoundedShort(g) >= MIN_DIMENSION {
      OverAtMost(Max(r.Height(), r.Width()), Min(r.Height(), r.Width()), 100.0);
      TimesHundred(Min(r.Height(), r.Width()));
    }
    hide Times, Over, Grown, Rounded, Ceil, Clamp, Small;
  }

  lemma {:induction false} WholeSides(g: Box)
    ensures LargeEnough(Rounded(g)) <==> RoundedShort(g) >= MIN_DIMENSION
  {
  }

  lemma {:induction false} TimesHundred(x: real)
    ensures Times(x, 100.0) == 100.0 * x
  {
  }

  /** No box can be returned for an image that is itself too small. */
  lemma {:induction false} TooSmallImage(bbox: Box, width: nat, height: nat)
    requires width < MIN_DIMENSION || height < MIN_DIMENSION
    ensures Resized(bbox, width, height) == None
  {
    if Resized(bbox, width, height).Some? {
      ReturnedBox(bbox, width, height);
      var r := Resized(bbox, width, height).value;
      FloorAndCeil(r.left, width);
      FloorAndCeil(r.top, height);
    }
  }

  /** Rounding can push a box at the aspect limit over it: a valid box of 1400 by 14 with room to grow is refused. */
  lemma {:induction false} RoundingCanRefuse()
    ensures var c := Box(1300.25, 100.0, 2700.25, 114.0);
            ValidBbox(c) && HasRoom(c, 4000, 4000) && Resized(c, 4000, 4000) == None
  {
    var c := Box(1300.25, 100.0, 2700.25, 114.0);
    assert Clamp(c, 4000, 4000) == c;
    assert Factor(c, 4000, 4000) == 2.0;
    assert Scaled(1300.25, 2700.25, 2.0, 4000.0) == (600.25, 3400.25);
    assert Scaled(100.0, 114.0, 2.0, 4000.0) == (93.0, 121.0);
    assert Grown(c, 4000, 4000) == Box(600.25, 93.0, 3400.25, 121.0);
    var r := Rounded(Grown(c, 4000, 4000));
    assert r == Box(600.0, 93.0, 3401.0, 121.0);
    assert !ValidBbox(r);
  }
}
