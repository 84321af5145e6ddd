/** From a pointer in the viewer's container to a pixel of the device, over the reals. */
module Mapping {
  import opened Domain

  datatype Point = Point(x: real, y: real)
  datatype Pixel = Pixel(x: int, y: int)
  datatype Size = Size(width: real, height: real)
  datatype Rotation = R0 | R90 | R180 | R270

  function Min(a: real, b: real): real {
    if a <= b then a else b
  }

  predicate Positive(s: Size) {
    0.0 < s.width && 0.0 < s.height
  }

  /** The largest factor at which the device fits into the container. */
  function Scale(container: Size, device: Size): real
    requires Positive(device)
  {
    Min(container.width / device.width, container.height / device.height)
  }

  /** The size of the content as drawn; what is left of the container is split evenly into letterbox bars. */
  function Rendered(container: Size, device: Size): Size
    requires Positive(device)
  {
    var scale := Scale(container, device);
    Size(device.width * scale, device.height * scale)
  }

  /** On one axis, from the container to the content and back. */
  function Normalize(q: real, container: real, rendered: real): real
    requires rendered != 0.0
  {
    (q - (container - rendered) / 2.0) / rendered
  }

  function Draw(n: real, container: real, rendered: real): real {
    (container - rendered) / 2.0 + n * rendered
  }

  lemma Times(c: real, d: real, s: real)
    requires 0.0 < d && 0.0 < s <= c / d
    ensures 0.0 < d * s <= c
  {
    assert d * (c / d) == c;
  }

  lemma RenderedFits(container: Size, device: Size)
    requires Positive(container) && Positive(device)
    ensures var r := Rendered(container, device);
      0.0 < Scale(container, device) && Positive(r) && r.width <= container.width && r.height <= container.height
  {
    var s := Scale(container, device);
    Times(container.width, device.width, s);
    Times(container.height, device.height, s);
  }

  function PointerToNormalized(pointer: Point, container: Size, device: Size): Option<Point> {
    if container.width <= 0.0 || container.height <= 0.0 || device.width <= 0.0 || device.height <= 0.0 then None
    else
      RenderedFits(container, device);
      var r := Rendered(container, device);
      var x, y := Normalize(pointer.x, container.width, r.width), Normalize(pointer.y, container.height, r.height);
      if x < 0.0 || x > 1.0 || y < 0.0 || y > 1.0 then None else Some(Point(x, y))
  }

  /** Where the viewer draws a normalized point. */
  function ToContainer(p: Point, container: Size, device: Size): Point
    requires Positive(device)
  {
    var r := Rendered(container, device);
    Point(Draw(p.x, container.width, r.width), Draw(p.y, container.height, r.height))
  }

  predicate InUnit(p: Point) {
    0.0 <= p.x <= 1.0 && 0.0 <= p.y <= 1.0
  }

  lemma DrawInvertsNormalize(n: real, q: real, container: real, rendered: real)
    requires rendered != 0.0
    ensures Normalize(q, container, rendered) == n <==> Draw(n, container, rendered) == q
  {
    var o := (container - rendered) / 2.0;
    if q == o + n * rendered { Quotient(n, rendered); }
  }

  lemma Quotient(n: real, r: real)
    requires r != 0.0
    ensures n * r / r == n
  {
  }

  /** A pointer denotes a normalized point exactly when that point of the content is drawn under it. */
  lemma PointerDenotes(pointer: Point, container: Size, device: Size, p: Point)
    ensures PointerToNormalized(pointer, container, device) == Some(p) <==>
      Positive(container) && Positive(device) && InUnit(p) && ToContainer(p, container, device) == pointer
  {
    hide Normalize, Draw, Rendered;
    if Positive(container) && Positive(device) {
      RenderedFits(container, device);
      var r := Rendered(container, device);
      DrawInvertsNormalize(p.x, pointer.x, container.width, r.width);
      DrawInvertsNormalize(p.y, pointer.y, container.height, r.height);
    }
  }

  /** The content is drawn inside the container, at the device's aspect ratio, and fills it on one axis. */
  lemma ContentFits(container: Size, device: Size, p: Point)
    requires Positive(container) && Positive(device) && InUnit(p)
    ensures var q := ToContainer(p, container, device); 0.0 <= q.x <= container.width && 0.0 <= q.y <= container.height
    ensures var r := Rendered(container, device);
      r.width * device.height == r.height * device.width
      && (r.width == container.width || r.height == container.height)
  {
    RenderedFits(container, device);
    var r := Rendered(container, device);
    DrawWithin(p.x, container.width, r.width);
    DrawWithin(p.y, container.height, r.height);
    RenderedFills(container, device);
  }

  lemma RenderedFills(container: Size, device: Size)
    requires Positive(container) && Positive(device)
    ensures var r := Rendered(container, device);
      r.width * device.height == r.height * device.width
      && (r.width == container.width || r.height == container.height)
  {
    hide Scale;
    Quotient(container.width, device.width);
    Quotient(container.height, device.height);
    MinIsOne(container, device);
    Swap(device.width, Scale(container, device), device.height);
  }

  lemma MinIsOne(container: Size, device: Size)
    requires Positive(device)
    ensures var s := Scale(container, device);
      s == container.width / device.width || s == container.height / device.height
  {
  }

  lemma Swap(a: real, s: real, b: real)
    ensures a * s * b == b * s * a
  {
  }

  lemma Within(x: real, r: real)
    requires 0.0 <= x <= 1.0 && 0.0 < r
    ensures 0.0 <= x * r <= r
  {
  }

  lemma DrawWithin(n: real, container: real, rendered: real)
    requires 0.0 <= n <= 1.0 && 0.0 < rendered <= container
    ensures 0.0 <= Draw(n, container, rendered) <= container
  {
    Within(n, rendered);
  }

  // ---------------- to device pixels ----------------

  /** `Math.round`: to the nearest integer, halves upward. */
  function Round(v: real): int {
    (v + 0.5).Floor
  }

  function Clamp(v: real, max: int): int {
    Snap(v * max as real, max)
  }

  /** Rounds to a pixel, and moves a pixel outside the device to its edge. */
  function Snap(v: real, max: int): int {
    var r := Round(v);
    var low := if r < 0 then 0 else r;
    if low < max - 1 then low else max - 1
  }

  lemma SnapIsClose(v: real, max: int)
    requires 1 <= max && 0.0 <= v <= max as real
    ensures -0.5 <= v - Snap(v, max) as real <= 1.0
    ensures v <= max as real - 0.5 ==> v - Snap(v, max) as real <= 0.5
    ensures v < max as real - 0.5 ==> v - Snap(v, max) as real < 0.5
  {
    var r := Round(v);
    assert r as real <= v + 0.5 < r as real + 1.0;
  }

  function Rotated(p: Point, rotation: Rotation): Point {
    match rotation
    case R0 => p
    case R90 => Point(p.y, 1.0 - p.x)
    case R180 => Point(1.0 - p.x, 1.0 - p.y)
    case R270 => Point(1.0 - p.y, p.x)
  }

  function NormalizedToDevice(p: Point, width: int, height: int, rotation: Rotation): Pixel {
    var n := Rotated(p, rotation);
    Pixel(Clamp(n.x, width), Clamp(n.y, height))
  }

  function Quarters(r: Rotation): nat {
    match r case R0 => 0 case R90 => 1 case R180 => 2 case R270 => 3
  }

  /** The rotations compose as turns of a multiple of 90 degrees, and keep the unit square. */
  lemma RotationsCompose(p: Point, a: Rotation, b: Rotation, c: Rotation)
    requires Quarters(c) == (Quarters(a) + Quarters(b)) % 4
    ensures Rotated(Rotated(p, a), b) == Rotated(p, c)
    ensures InUnit(Rotated(p, a)) <==> InUnit(p)
  {
  }

  /** Each is a turn about the centre: it keeps inner and outer products, so lengths, angles and handedness. */
  lemma RotationsAreTurns(p: Point, q: Point, r: Rotation)
    ensures var p', q' := Rotated(p, r), Rotated(q, r);
      (p'.x - 0.5) * (q'.x - 0.5) + (p'.y - 0.5) * (q'.y - 0.5) == (p.x - 0.5) * (q.x - 0.5) + (p.y - 0.5) * (q.y - 0.5)
      && (p'.x - 0.5) * (q'.y - 0.5) - (p'.y - 0.5) * (q'.x - 0.5)
         == (p.x - 0.5) * (q.y - 0.5) - (p.y - 0.5) * (q.x - 0.5)
  {
  }

  /** The corners of the unit square, clockwise on a screen from the top left. */
  function UnitCorner(k: nat): Point {
    match k % 4 case 0 => Point(0.0, 0.0) case 1 => Point(1.0, 0.0) case 2 => Point(1.0, 1.0) case _ => Point(0.0, 1.0)
  }

  /** The corner pixels of the device in the same order. */
  function CornerPixel(k: nat, width: int, height: int): Pixel {
    match k % 4
    case 0 => Pixel(0, 0)
    case 1 => Pixel(width - 1, 0)
    case 2 => Pixel(width - 1, height - 1)
    case _ => Pixel(0, height - 1)
  }

  /** Which way the rotations turn: each quarter takes a corner of the screen to the one before it on the device. */
  lemma CornersTurn(k: nat, width: int, height: int, rotation: Rotation)
    requires 1 <= width && 1 <= height
    ensures NormalizedToDevice(UnitCorner(k), width, height, rotation) ==
      CornerPixel(k + 3 * Quarters(rotation), width, height)
  {
    ClampEnds(width);
    ClampEnds(height);
    hide Clamp;
    var j := (k + 3 * Quarters(rotation)) % 4;
    assert j == (k % 4 + 3 * Quarters(rotation)) % 4;
  }

  lemma ClampEnds(max: int)
    requires 1 <= max
    ensures Clamp(0.0, max) == 0 && Clamp(1.0, max) == max - 1
  {
    assert Round(max as real) == max;
  }

  lemma ClampIsClose(v: real, max: int)
    requires 1 <= max && 0.0 <= v <= 1.0
    ensures -0.5 <= v * max as real - Clamp(v, max) as real <= 1.0
    ensures v * max as real <= max as real - 0.5 ==> v * max as real - Clamp(v, max) as real <= 0.5
    ensures v * max as real < max as real - 0.5 ==> v * max as real - Clamp(v, max) as real < 0.5
  {
    Within(v, max as real);
    SnapIsClose(v * max as real, max);
  }

  /** Pixels are in bounds for any point at all, if and only if the device has any pixels. */
  lemma PixelsAreInBounds(p: Point, width: int, height: int, rotation: Rotation)
    ensures var px := NormalizedToDevice(p, width, height, rotation);
      (0 <= px.x < width <==> 1 <= width) && (0 <= px.y < height <==> 1 <= height)
  {
  }

  /**
   * A pixel is within half a pixel of the exact place, and a place halfway between two goes to the upper one, except
   * at the far edges, where a pixel is within one.
   */
  lemma PixelsAreClose(p: Point, width: int, height: int, rotation: Rotation)
    requires 1 <= width && 1 <= height && InUnit(p)
    ensures var px, n := NormalizedToDevice(p, width, height, rotation), Rotated(p, rotation);
      && -0.5 <= n.x * width as real - px.x as real <= 1.0
      && -0.5 <= n.y * height as real - px.y as real <= 1.0
      && (n.x * width as real <= width as real - 0.5 ==> n.x * width as real - px.x as real <= 0.5)
      && (n.y * height as real <= height as real - 0.5 ==> n.y * height as real - px.y as real <= 0.5)
      && (n.x * width as real < width as real - 0.5 ==> n.x * width as real - px.x as real < 0.5)
      && (n.y * height as real < height as real - 0.5 ==> n.y * height as real - px.y as real < 0.5)
  {
    hide Clamp;
    ClampIsClose(Rotated(p, rotation).x, width);
    ClampIsClose(Rotated(p, rotation).y, height);
  }

  /** The normalized place of a pixel. */
  function Place(px: int, max: int): real
    requires max != 0
  {
    px as real / max as real
  }

  lemma ClampOfPlace(px: int, max: int)
    requires 0 <= px < max
    ensures 0.0 <= Place(px, max) <= 1.0 && Clamp(Place(px, max), max) == px
  {
    PlaceTimes(px, max);
    Fraction(px, max);
  }

  lemma Fraction(a: int, b: int)
    requires 0 <= a < b
    ensures 0.0 <= Place(a, b) <= 1.0
  {
  }

  /** Every pixel of the device can be tapped, under every rotation. */
  lemma EveryPixelIsReachable(px: Pixel, width: int, height: int, rotation: Rotation, back: Rotation)
    requires 0 <= px.x < width && 0 <= px.y < height && (Quarters(rotation) + Quarters(back)) % 4 == 0
    ensures var p := Rotated(Point(Place(px.x, width), Place(px.y, height)), back);
      InUnit(p) && NormalizedToDevice(p, width, height, rotation) == px
  {
    hide Clamp, Place, Rotated;
    var p := Point(Place(px.x, width), Place(px.y, height));
    RotationsCompose(p, back, rotation, R0);
    RotationsCompose(p, R0, R0, R0);
    NoTurn(p);
    ClampOfPlace(px.x, width);
    ClampOfPlace(px.y, height);
  }

  lemma NoTurn(p: Point)
    ensures Rotated(p, R0) == p
  {
  }

  /** Less than the drawn size of a pixel away: half of it on the one side, all of it on the other. */
  predicate WithinOne(a: real, b: real, scale: real) {
    -0.5 * scale <= a - b <= scale
  }

  /** Without rotation the tap lands under the pointer, to within the size at which one device pixel is drawn. */
  lemma UprightTapLandsUnderPointer(pointer: Point, container: Size, width: int, height: int)
    requires 1 <= width && 1 <= height
    requires PointerToNormalized(pointer, container, Size(width as real, height as real)).Some?
    ensures var device := Size(width as real, height as real);
      var px := NormalizedToDevice(PointerToNormalized(pointer, container, device).value, width, height, R0);
      var drawn := ToContainer(Point(Place(px.x, width), Place(px.y, height)), container, device);
      var one := Scale(container, device);
      WithinOne(pointer.x, drawn.x, one) && WithinOne(pointer.y, drawn.y, one)
  {
    hide Clamp, Place, Draw, Normalize, Scale, WithinOne;
    var device := Size(width as real, height as real);
    var p := PointerToNormalized(pointer, container, device).value;
    PointerDenotes(pointer, container, device, p);
    RenderedFits(container, device);
    var px := NormalizedToDevice(p, width, height, R0);
    PixelsAreClose(p, width, height, R0);
    NoTurn(p);
    var r := Rendered(container, device);
    Drawn(p.x, px.x, width, container.width, Scale(container, device), r.width);
    Drawn(p.y, px.y, height, container.height, Scale(container, device), r.height);
  }

  lemma Drawn(n: real, px: int, max: int, container: real, scale: real, r: real)
    requires 1 <= max && 0.0 < scale && -0.5 <= n * max as real - px as real <= 1.0 && r == max as real * scale
    ensures WithinOne(Draw(n, container, r), Draw(Place(px, max), container, r), scale)
  {
    hide Place, Draw;
    var size, at := max as real, Place(px, max);
    PlaceTimes(px, max);
    DrawDifference(n, at, container, r);
    Assoc(n - at, size, scale);
    assert (n - at) * size == n * size - at * size;
    Scaled((n - at) * size, scale, Draw(n, container, r) - Draw(at, container, r));
  }

  lemma PlaceTimes(px: int, max: int)
    requires max != 0
    ensures Place(px, max) * max as real == px as real
  {
  }

  lemma DrawDifference(a: real, b: real, container: real, r: real)
    ensures Draw(a, container, r) - Draw(b, container, r) == (a - b) * r
  {
  }

  lemma Assoc(a: real, b: real, c: real)
    ensures a * (b * c) == (a * b) * c
  {
  }

  lemma Scaled(x: real, scale: real, gap: real)
    requires 0.0 < scale && -0.5 <= x <= 1.0 && gap == x * scale
    ensures -0.5 * scale <= gap <= scale
  {
    NotNegative(x + 0.5, scale);
    NotNegative(1.0 - x, scale);
    assert (x + 0.5) * scale == x * scale + 0.5 * scale && (1.0 - x) * scale == scale - x * scale;
  }

  lemma NotNegative(a: real, b: real)
    requires 0.0 <= a && 0.0 <= b
    ensures 0.0 <= a * b
  {
  }

  // ---------------- under every rotation ----------------

  /** The number of device pixels along the screen's horizontal, and its vertical, axis. */
  function Across(width: int, height: int, rotation: Rotation): int {
    if rotation == R0 || rotation == R180 then width else height
  }

  function Down(width: int, height: int, rotation: Rotation): int {
    if rotation == R0 || rotation == R180 then height else width
  }

  predicate Near(a: real, b: real, tolerance: real) {
    -tolerance <= a - b <= tolerance
  }

  /**
   * Under every rotation the tap lands under the pointer: turned back and drawn, the pixel is within the
   * drawn size of one pixel, which on each axis is the content's size by the pixels along that axis.
   */
  lemma TapLandsUnderPointer(pointer: Point, container: Size, width: int, height: int, rotation: Rotation,
      back: Rotation)
    requires 1 <= width && 1 <= height && (Quarters(rotation) + Quarters(back)) % 4 == 0
    requires PointerToNormalized(pointer, container, Size(width as real, height as real)).Some?
    ensures var device := Size(width as real, height as real);
      var r := Rendered(container, device);
      var px := NormalizedToDevice(PointerToNormalized(pointer, container, device).value, width, height, rotation);
      var drawn := ToContainer(Rotated(Point(Place(px.x, width), Place(px.y, height)), back), container, device);
      Near(pointer.x, drawn.x, r.width / Across(width, height, rotation) as real)
      && Near(pointer.y, drawn.y, r.height / Down(width, height, rotation) as real)
  {
    var device := Size(width as real, height as real);
    var p := PointerToNormalized(pointer, container, device).value;
    hide Place, Draw, Scale, Rendered, PointerToNormalized, NormalizedToDevice, Near, Rotated, Across, Down;
    PointerDenotes(pointer, container, device, p);
    RenderedFits(container, device);
    var px := NormalizedToDevice(p, width, height, rotation);
    PixelIsNear(p, px, width, height, rotation, back);
    var r, q := Rendered(container, device), Rotated(Point(Place(px.x, width), Place(px.y, height)), back);
    PixelsPerAxis(width, height, rotation);
    DrawnNear(p.x, q.x, container.width, r.width, Across(width, height, rotation));
    DrawnNear(p.y, q.y, container.height, r.height, Down(width, height, rotation));
  }

  lemma PixelsPerAxis(width: int, height: int, rotation: Rotation)
    requires 1 <= width && 1 <= height
    ensures 1 <= Across(width, height, rotation) && 1 <= Down(width, height, rotation)
  {
  }

  lemma PixelIsNear(p: Point, px: Pixel, width: int, height: int, rotation: Rotation, back: Rotation)
    requires 1 <= width && 1 <= height && InUnit(p) && (Quarters(rotation) + Quarters(back)) % 4 == 0
    requires px == NormalizedToDevice(p, width, height, rotation)
    ensures var q := Rotated(Point(Place(px.x, width), Place(px.y, height)), back);
      1 <= Across(width, height, rotation) && 1 <= Down(width, height, rotation)
      && Near(p.x, q.x, 1.0 / Across(width, height, rotation) as real)
      && Near(p.y, q.y, 1.0 / Down(width, height, rotation) as real)
  {
    hide Place, NormalizedToDevice, Near, Rotated;
    PixelsAreClose(p, width, height, rotation);
    var n := Rotated(p, rotation);
    PlaceIsClose(n.x, px.x, width);
    PlaceIsClose(n.y, px.y, height);
    TurnBack(p, Point(Place(px.x, width), Place(px.y, height)), rotation, back, 1.0 / width as real,
      1.0 / height as real);
  }

  lemma PlaceIsClose(n: real, px: int, max: int)
    requires 1 <= max && -0.5 <= n * max as real - px as real <= 1.0
    ensures Near(n, Place(px, max), 1.0 / max as real)
  {
    var size, at := max as real, Place(px, max);
    PlaceTimes(px, max);
    hide Place;
    assert (n - at) * size == n * size - at * size;
    Quotient(n - at, size);
    Divided((n - at) * size, size);
  }

  lemma Divided(x: real, size: real)
    requires 0.0 < size && -1.0 <= x <= 1.0
    ensures -(1.0 / size) <= x / size <= 1.0 / size
  {
  }

  /** A rotation back takes points that are close to points that are close, and may exchange the axes. */
  lemma TurnBack(p: Point, m: Point, rotation: Rotation, back: Rotation, x: real, y: real)
    requires (Quarters(rotation) + Quarters(back)) % 4 == 0
    requires Near(Rotated(p, rotation).x, m.x, x) && Near(Rotated(p, rotation).y, m.y, y)
    ensures var q := Rotated(m, back);
      if rotation == R0 || rotation == R180 then Near(p.x, q.x, x) && Near(p.y, q.y, y)
      else Near(p.x, q.x, y) && Near(p.y, q.y, x)
  {
  }

  lemma DrawnNear(a: real, b: real, container: real, r: real, pixels: int)
    requires 1 <= pixels && 0.0 < r && Near(a, b, 1.0 / pixels as real)
    ensures Near(Draw(a, container, r), Draw(b, container, r), r / pixels as real)
  {
    var one := 1.0 / pixels as real;
    DrawDifference(a, b, container, r);
    NotNegative(one - (a - b), r);
    NotNegative((a - b) + one, r);
    assert (one - (a - b)) * r == one * r - (a - b) * r && ((a - b) + one) * r == (a - b) * r + one * r;
    assert one * r == r / pixels as real;
  }
}
