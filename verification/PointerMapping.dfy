/** Mapping a pointer of a centred, aspect-preserving root window onto the captured
    surface (crates/sigil-host/src/cursor.rs). */
module PointerMapping {
  import opened Division
  import opened Prelude

  const MIN_SURFACE: nat := 64
  const MAX_SURFACE_WIDTH: nat := 7_680
  const MAX_SURFACE_HEIGHT: nat := 4_320
  const POSITION_MAX: nat := 32_767

  datatype Surface = Surface(width: u16, height: u16)

  datatype Region = Region(offsetX: u16, offsetY: u16, width: u16, height: u16)

  datatype Position = Position(x: int, y: int)

  datatype MapError =
    | BadSurface
    | ZeroRoot
    | ScalingOverflow
    | UnrepresentableAspect
    | NegativeCoordinate
    | OutsideRoot
    | OutsideSurface
    | OutsideRange

  predicate ValidSurface(s: Surface) {
    MIN_SURFACE <= s.width <= MAX_SURFACE_WIDTH && MIN_SURFACE <= s.height <= MAX_SURFACE_HEIGHT
  }

  /** `checked_mul` on 64 bits, then the division. */
  function ScaleChecked(a: u64, b: u64, divisor: u64): Result<u64, MapError>
    requires divisor > 0
  {
    if a * b > U64_MAX then Err(ScalingOverflow) else DivBound(a * b, divisor); Ok(a * b / divisor)
  }

  predicate RootIsWider(width: u16, height: u16, s: Surface) {
    width * s.height >= height * s.width
  }

  function SurfaceRegion(width: u16, height: u16, s: Surface): Result<Region, MapError> {
    if !ValidSurface(s) then Err(BadSurface)
    else if width == 0 || height == 0 then Err(ZeroRoot)
    else
      match if RootIsWider(width, height, s) then ScaleChecked(height, s.width, width)
            else ScaleChecked(width, s.height, height)
      case Err(e) => Err(e)
      case Ok(other) =>
        var fittedWidth, fittedHeight := if RootIsWider(width, height, s) then s.width else other,
                                         if RootIsWider(width, height, s) then other else s.height;
        if fittedWidth == 0 || fittedHeight == 0 then Err(UnrepresentableAspect)
        else if fittedWidth > U16_MAX || fittedHeight > U16_MAX then Err(OutsideRange)
        // The unsigned subtractions below would underflow here; RegionIsTheAspectFit shows they never do.
        else if fittedWidth > s.width || fittedHeight > s.height then Err(OutsideSurface)
        else Ok(Region((s.width - fittedWidth) / 2, (s.height - fittedHeight) / 2, fittedWidth, fittedHeight))
  }

  function MapAxis(coordinate: int, root: u16, offset: u16, extent: u16): Result<int, MapError>
    requires root > 0
  {
    if coordinate < 0 then Err(NegativeCoordinate)
    else if coordinate >= root then Err(OutsideRoot)
    else
      match ScaleChecked(coordinate, extent, root)
      case Err(e) => Err(e)
      case Ok(within) =>
        if offset + within > U64_MAX then Err(ScalingOverflow)
        else if within >= extent then Err(OutsideSurface)
        else if offset + within > 0x7FFF_FFFF then Err(OutsideRange)
        else Ok(offset + within)
  }

  function MapPosition(width: u16, height: u16, x: int, y: int, s: Surface): Result<Position, MapError> {
    match SurfaceRegion(width, height, s)
    case Err(e) => Err(e)
    case Ok(r) =>
      match MapAxis(x, width, r.offsetX, r.width)
      case Err(e) => Err(e)
      case Ok(mx) =>
        match MapAxis(y, height, r.offsetY, r.height)
        case Err(e) => Err(e)
        case Ok(my) =>
          if 0 <= mx <= POSITION_MAX && 0 <= my <= POSITION_MAX then Ok(Position(mx, my)) else Err(OutsideRange)
  }

  // ------------------------------------------------------------------ region

  /** What the region must be, without dividing: it fills one axis, has the largest
      side the exact scaling allows on the other and is centred, the odd pixel
      falling below and right. */
  predicate Fits(width: u16, height: u16, s: Surface, r: Region)
    requires width > 0 && height > 0
  {
    && (if RootIsWider(width, height, s) then r.width == s.width && IsFloor(r.height, height * s.width, width)
        else r.height == s.height && IsFloor(r.width, width * s.height, height))
    && 0 < r.width && 0 < r.height
    && r.offsetX + r.width <= s.width && r.offsetY + r.height <= s.height
    && 0 <= s.width - r.width - 2 * r.offsetX <= 1
    && 0 <= s.height - r.height - 2 * r.offsetY <= 1
  }

  /** Whether the scaled side is at least one pixel. */
  predicate Representable(width: u16, height: u16, s: Surface) {
    if RootIsWider(width, height, s) then height * s.width >= width else width * s.height >= height
  }

  /** For every root and surface: the one error beyond bad input is an aspect that
      would vanish, the overflow and range checks never fire, and otherwise the
      region is the centred aspect fit. */
  lemma RegionIsTheAspectFit(width: u16, height: u16, s: Surface)
    requires ValidSurface(s) && width > 0 && height > 0
    ensures SurfaceRegion(width, height, s).Ok? <==> Representable(width, height, s)
    ensures SurfaceRegion(width, height, s).Err? ==> SurfaceRegion(width, height, s) == Err(UnrepresentableAspect)
    ensures SurfaceRegion(width, height, s).Ok? ==> Fits(width, height, s, SurfaceRegion(width, height, s).value)
  {
    if RootIsWider(width, height, s) {
      ScalingFits(height, s.width, width, s.height);
      DivIsFloor(height * s.width, width);
    } else {
      DivIsFloor(width * s.height, height);
      ScalingFits(width, s.height, height, s.width);
    }
  }

  lemma ScalingFits(a: u16, b: u16, divisor: u16, limit: u16)
    requires divisor > 0 && a * b <= divisor * limit && limit <= MAX_SURFACE_WIDTH
    ensures ScaleChecked(a, b, divisor) == Ok(a * b / divisor)
    ensures 0 <= a * b / divisor <= limit
    ensures a * b / divisor > 0 <==> a * b >= divisor
  {
    ProductBound(a, b, U16_MAX, U16_MAX);
    DivBound(a * b, divisor);
    DivLess(a * b, divisor, limit + 1);
    DivLess(a * b, divisor, 1);
    MulMonotone(limit, limit + 1, divisor);
  }

  // -------------------------------------------------------------------- axes

  lemma AxisInside(coordinate: int, root: u16, offset: u16, extent: u16)
    requires 0 <= coordinate < root && 0 < extent && offset + extent <= MAX_SURFACE_WIDTH
    ensures MapAxis(coordinate, root, offset, extent) == Ok(offset + coordinate * extent / root)
    ensures offset <= offset + coordinate * extent / root < offset + extent
  {
    ProductBound(coordinate, extent, U16_MAX, U16_MAX);
    DivBound(coordinate * extent, root);
    MulMonotone(coordinate + 1, root, extent);
    DivLess(coordinate * extent, root, extent);
  }

  lemma AxisMonotone(a: int, b: int, root: u16, extent: u16)
    requires 0 <= a <= b < root && 0 < extent
    ensures a * extent / root <= b * extent / root
    ensures a < b && extent >= root ==> a * extent / root < b * extent / root
    ensures extent == root ==> a * extent / root == a
  {
    MulMonotone(a, b, extent);
    DivMonotone(a * extent, b * extent, root);
    if a < b && extent >= root {
      MulMonotone(a + 1, b, extent);
      DivShift(a * extent, root);
      DivMonotone(a * extent + root, b * extent, root);
    }
    if extent == root { DivCancels(a, root); }
  }

  // ---------------------------------------------------------------- positions

  /** Mapping succeeds exactly for points of a root whose aspect can be shown, and
      always lands inside the region, so inside the surface. */
  lemma MapsIff(width: u16, height: u16, x: int, y: int, s: Surface)
    ensures MapPosition(width, height, x, y, s).Ok? <==>
              64 <= s.width <= 7_680 && 64 <= s.height <= 4_320 && width > 0 && height > 0
              && Representable(width, height, s) && 0 <= x < width && 0 <= y < height
    ensures MapPosition(width, height, x, y, s).Ok? ==>
              var r := SurfaceRegion(width, height, s).value;
              var m := MapPosition(width, height, x, y, s).value;
              && IsFloor(m.x - r.offsetX, x * r.width, width) && IsFloor(m.y - r.offsetY, y * r.height, height)
              && r.offsetX <= m.x < r.offsetX + r.width <= s.width
              && r.offsetY <= m.y < r.offsetY + r.height <= s.height
  {
    if ValidSurface(s) && width > 0 && height > 0 {
      RegionIsTheAspectFit(width, height, s);
      if Representable(width, height, s) {
        var r := SurfaceRegion(width, height, s).value;
        if 0 <= x < width { AxisInside(x, width, r.offsetX, r.width); }
        if 0 <= y < height { AxisInside(y, height, r.offsetY, r.height); }
        DivIsFloor(x * r.width, width);
        DivIsFloor(y * r.height, height);
      }
    }
  }

  /** What a refusal says: the surface, then the root, then the aspect, then each axis in
      turn; the checks for overflow and range never answer. */
  lemma RefusalsAre(width: u16, height: u16, x: int, y: int, s: Surface)
    ensures var r := MapPosition(width, height, x, y, s);
            r.Err? ==>
              r.error ==
              if !(64 <= s.width <= 7_680 && 64 <= s.height <= 4_320) then BadSurface
              else if width == 0 || height == 0 then ZeroRoot
              else if !Representable(width, height, s) then UnrepresentableAspect
              else if x < 0 || (x < width && y < 0) then NegativeCoordinate
              else OutsideRoot
  {
    hide ScaleChecked, Fits, IsFloor;
    if ValidSurface(s) && width > 0 && height > 0 {
      RegionIsTheAspectFit(width, height, s);
      if Representable(width, height, s) {
        var r := SurfaceRegion(width, height, s).value;
        FitIsInside(width, height, s, r);
        if 0 <= x < width { AxisInside(x, width, r.offsetX, r.width); }
        if 0 <= y < height { AxisInside(y, height, r.offsetY, r.height); }
      }
    }
  }

  lemma FitIsInside(width: u16, height: u16, s: Surface, r: Region)
    requires ValidSurface(s) && width > 0 && height > 0 && Fits(width, height, s, r)
    ensures 0 < r.width && 0 < r.height
    ensures r.offsetX + r.width <= MAX_SURFACE_WIDTH && r.offsetY + r.height <= MAX_SURFACE_WIDTH
  {
  }

  /** On each axis the mapping keeps order, keeps distinct points apart when it
      enlarges, and is the identity between equal sizes. */
  lemma MapsInOrder(width: u16, height: u16, x0: int, y0: int, x1: int, y1: int, s: Surface)
    requires MapPosition(width, height, x0, y0, s).Ok? && MapPosition(width, height, x1, y1, s).Ok?
    ensures var r := SurfaceRegion(width, height, s).value;
            var m0, m1 := MapPosition(width, height, x0, y0, s).value, MapPosition(width, height, x1, y1, s).value;
            && (x0 <= x1 ==> m0.x <= m1.x) && (x0 < x1 && r.width >= width ==> m0.x < m1.x)
            && (y0 <= y1 ==> m0.y <= m1.y) && (y0 < y1 && r.height >= height ==> m0.y < m1.y)
    ensures width == s.width && height == s.height ==> MapPosition(width, height, x0, y0, s).value == Position(x0, y0)
  {
    hide SurfaceRegion, MapPosition, MapAxis, ScaleChecked, IsFloor, Fits;
    MapsIff(width, height, x0, y0, s);
    MapsIff(width, height, x1, y1, s);
    RegionIsTheAspectFit(width, height, s);
    var r := SurfaceRegion(width, height, s).value;
    if x0 <= x1 { AxisMonotone(x0, x1, width, r.width); }
    if y0 <= y1 { AxisMonotone(y0, y1, height, r.height); }
    FloorIsDiv(MapPosition(width, height, x0, y0, s).value.x - r.offsetX, x0 * r.width, width);
    FloorIsDiv(MapPosition(width, height, x1, y1, s).value.x - r.offsetX, x1 * r.width, width);
    FloorIsDiv(MapPosition(width, height, x0, y0, s).value.y - r.offsetY, y0 * r.height, height);
    FloorIsDiv(MapPosition(width, height, x1, y1, s).value.y - r.offsetY, y1 * r.height, height);
    if width == s.width && height == s.height {
      EqualSizesFill(width, height, s);
      AxisMonotone(x0, x0, width, r.width);
      AxisMonotone(y0, y0, height, r.height);
    }
  }

  lemma EqualSizesFill(width: u16, height: u16, s: Surface)
    requires ValidSurface(s) && width == s.width && height == s.height
    ensures SurfaceRegion(width, height, s) == Ok(Region(0, 0, width, height))
  {
    ProductBound(height, width, U16_MAX, U16_MAX);
    DivCancels(height, width);
  }
}
