/** The value model of the drawing program: points in the plane and the four
    shape variants, with their closed-form measures and their move and resize
    rules. The source stores every coordinate and dimension as a double; here
    they are exact reals. The source's shapes are objects updated in place; here
    each update is a function from the old shape to the new one. */
module Shapes {

  /** A point in the plane. */
  datatype Coordinate = Coordinate(x: real, y: real)

  /** The approximation of pi that the source hard-codes. */
  const Pi: real := 3.1415

  /** Moves a point by (dx, dy): the displacement from the old point to the
      new one is exactly (dx, dy). */
  function TranslatePoint(p: Coordinate, dx: real, dy: real): (r: Coordinate)
    ensures r.x - p.x == dx && r.y - p.y == dy
  {
    Coordinate(p.x + dx, p.y + dy)
  }

  /** One coordinate or dimension resized: multiplied by `factor` when `up`,
      divided by it otherwise. Dividing by zero is not defined. */
  function ScaleValue(v: real, factor: real, up: bool): (r: real)
    requires up || factor != 0.0
    ensures up ==> r == v * factor
    ensures !up ==> r * factor == v
  {
    if up then v * factor else v / factor
  }

  /** Resizes a point about the origin (both coordinates). */
  function ScalePoint(p: Coordinate, factor: real, up: bool): (r: Coordinate)
    requires up || factor != 0.0
    ensures up ==> r.x == p.x * factor && r.y == p.y * factor
    ensures !up ==> r.x * factor == p.x && r.y * factor == p.y
  {
    Coordinate(ScaleValue(p.x, factor, up), ScaleValue(p.y, factor, up))
  }

  /** The four shape variants. Every variant carries the `position` it inherits
      from the common base; a triangle's is set to its first vertex when it is
      built and is never updated afterwards. */
  datatype Shape =
    | Rectangle(position: Coordinate, width: real, length: real)
    | Square(position: Coordinate, side: real)
    | Circle(position: Coordinate, radius: real)
    | Triangle(position: Coordinate, v1: Coordinate, v2: Coordinate, v3: Coordinate)

  /** A triangle as its constructor builds it: the inherited position is the
      first vertex. */
  function MakeTriangle(a: Coordinate, b: Coordinate, c: Coordinate): (t: Shape)
    ensures t.Triangle? && t.position == t.v1
    ensures t.v1 == a && t.v2 == b && t.v3 == c
  {
    Triangle(a, a, b, c)
  }

  /** An area or a perimeter. A triangle's needs square roots of side lengths,
      which this model does not compute. */
  datatype Measure = Known(value: real) | NeedsSquareRoot

  /** Every stored dimension is at least zero. */
  predicate NonNegativeDimensions(s: Shape)
  {
    match s
    case Rectangle(_, w, l) => w >= 0.0 && l >= 0.0
    case Square(_, a) => a >= 0.0
    case Circle(_, rad) => rad >= 0.0
    case Triangle(_, _, _, _) => true
  }

  /** `a` and `b` are the same variant with the same dimensions (positions and
      vertices may differ). */
  predicate SameDimensions(a: Shape, b: Shape)
  {
    match a
    case Rectangle(_, w, l) => b.Rectangle? && b.width == w && b.length == l
    case Square(_, d) => b.Square? && b.side == d
    case Circle(_, rad) => b.Circle? && b.radius == rad
    case Triangle(_, _, _, _) => b.Triangle?
  }

  /** `a` and `b` are the same variant. */
  predicate SameVariant(a: Shape, b: Shape)
  {
    (a.Rectangle? <==> b.Rectangle?) && (a.Square? <==> b.Square?) &&
    (a.Circle? <==> b.Circle?) && (a.Triangle? <==> b.Triangle?)
  }

  /** The area of a shape. Known exactly for every variant but the triangle,
      and never negative when the dimensions are not. */
  function Area(s: Shape): (r: Measure)
    ensures r.Known? <==> !s.Triangle?
    ensures r.Known? && NonNegativeDimensions(s) ==> r.value >= 0.0
  {
    match s
    case Rectangle(_, w, l) => Known(w * l)
    case Square(_, a) => Known(a * a)
    case Circle(_, rad) => Known(Pi * rad * rad)
    case Triangle(_, _, _, _) => NeedsSquareRoot
  }

  /** The perimeter of a shape. Known exactly for every variant but the
      triangle, and never negative when the dimensions are not. */
  function Perimeter(s: Shape): (r: Measure)
    ensures r.Known? <==> !s.Triangle?
    ensures r.Known? && NonNegativeDimensions(s) ==> r.value >= 0.0
  {
    match s
    case Rectangle(_, w, l) => Known(2.0 * w + 2.0 * l)
    case Square(_, a) => Known(4.0 * a)
    case Circle(_, rad) => Known(2.0 * Pi * rad)
    case Triangle(_, _, _, _) => NeedsSquareRoot
  }

  /** Moves a shape by integer deltas. A rectangle, square or circle moves its
      position; a triangle moves its three vertices and leaves its inherited
      position where it was. No dimension changes. */
  function Translate(s: Shape, dx: int, dy: int): (r: Shape)
    ensures SameDimensions(s, r)
    ensures !s.Triangle? ==> r.position == TranslatePoint(s.position, dx as real, dy as real)
    ensures s.Triangle? ==> r.position == s.position
    ensures s.Triangle? ==>
      r.v1 == TranslatePoint(s.v1, dx as real, dy as real) &&
      r.v2 == TranslatePoint(s.v2, dx as real, dy as real) &&
      r.v3 == TranslatePoint(s.v3, dx as real, dy as real)
  {
    var (fx, fy) := (dx as real, dy as real);
    match s
    case Rectangle(p, w, l) => Rectangle(TranslatePoint(p, fx, fy), w, l)
    case Square(p, a) => Square(TranslatePoint(p, fx, fy), a)
    case Circle(p, rad) => Circle(TranslatePoint(p, fx, fy), rad)
    case Triangle(p, a, b, c) =>
      Triangle(p, TranslatePoint(a, fx, fy), TranslatePoint(b, fx, fy), TranslatePoint(c, fx, fy))
  }

  /** Resizes a shape by an integer factor, up (multiply) or down (divide).
      A rectangle resizes its width and length and a circle its radius, both
      keeping their position; a square has no rule of its own and resizes its
      position only, keeping its side; a triangle resizes its three vertices and
      keeps its inherited position. */
  function Scale(s: Shape, factor: int, up: bool): (r: Shape)
    requires up || factor != 0
    ensures SameVariant(s, r)
    ensures s.Square? ==> r.position == ScalePoint(s.position, factor as real, up) && r.side == s.side
    ensures !s.Square? ==> r.position == s.position
    ensures s.Rectangle? ==>
      r.width == ScaleValue(s.width, factor as real, up) &&
      r.length == ScaleValue(s.length, factor as real, up)
    ensures s.Circle? ==> r.radius == ScaleValue(s.radius, factor as real, up)
    ensures s.Triangle? ==>
      r.v1 == ScalePoint(s.v1, factor as real, up) &&
      r.v2 == ScalePoint(s.v2, factor as real, up) &&
      r.v3 == ScalePoint(s.v3, factor as real, up)
  {
    var f := factor as real;
    match s
    case Rectangle(p, w, l) => Rectangle(p, ScaleValue(w, f, up), ScaleValue(l, f, up))
    case Square(p, a) => Square(ScalePoint(p, f, up), a)
    case Circle(p, rad) => Circle(p, ScaleValue(rad, f, up))
    case Triangle(p, a, b, c) =>
      Triangle(p, ScalePoint(a, f, up), ScalePoint(b, f, up), ScalePoint(c, f, up))
  }

  /** A double converted to `int`: the fractional part is dropped, rounding
      toward zero. */
  function TruncateToInt(v: real): (n: int)
    ensures v >= 0.0 ==> n as real <= v < n as real + 1.0
    ensures v < 0.0 ==> n as real - 1.0 < v <= n as real
  {
    if v >= 0.0 then v.Floor else -((-v).Floor)
  }

  /** The square of the distance from `p` to `q`, as the distance rule computes
      it before its square root: `q` is read through the integer getters, so
      its coordinates are truncated toward zero while `p`'s are not. */
  function DistanceSquared(p: Coordinate, q: Coordinate): (r: real)
    ensures r >= 0.0
    ensures TruncateToInt(q.x) as real == q.x && TruncateToInt(q.y) as real == q.y ==>
      r == (p.x - q.x) * (p.x - q.x) + (p.y - q.y) * (p.y - q.y)
  {
    var (dx, dy) := (p.x - TruncateToInt(q.x) as real, p.y - TruncateToInt(q.y) as real);
    SquareIsNonNegative(dx);
    SquareIsNonNegative(dy);
    dx * dx + dy * dy
  }

  /** A square is never negative. */
  lemma SquareIsNonNegative(d: real)
    ensures d * d >= 0.0
  {
    if d < 0.0 {
      assert d * d == (-d) * (-d);
    }
  }

  // Properties of points

  /** Moving a point by (dx, dy) and then by (-dx, -dy) restores it. */
  lemma TranslatePointRoundTrip(p: Coordinate, dx: real, dy: real)
    ensures TranslatePoint(TranslatePoint(p, dx, dy), -dx, -dy) == p
  {
  }

  /** Resizing a point up by a nonzero factor and then down by it restores it,
      and so does down then up. */
  lemma ScalePointRoundTrip(p: Coordinate, factor: real)
    requires factor != 0.0
    ensures ScalePoint(ScalePoint(p, factor, true), factor, false) == p
    ensures ScalePoint(ScalePoint(p, factor, false), factor, true) == p
  {
  }

  // Properties of shapes

  /** Translating by (dx, dy) and then by (-dx, -dy) restores every field. */
  lemma TranslateRoundTrip(s: Shape, dx: int, dy: int)
    ensures Translate(Translate(s, dx, dy), -dx, -dy) == s
  {
  }

  /** Two translations compose into one by the summed deltas. */
  lemma TranslateCompose(s: Shape, dx1: int, dy1: int, dx2: int, dy2: int)
    ensures Translate(Translate(s, dx1, dy1), dx2, dy2) == Translate(s, dx1 + dx2, dy1 + dy2)
  {
  }

  /** Moving a rectangle, square or circle changes neither its area nor its
      perimeter. (A triangle's measures, which read its vertices through the
      truncating distance, can change: see TriangleSideChangesUnderMove.) */
  lemma TranslateKeepsMeasures(s: Shape, dx: int, dy: int)
    requires !s.Triangle?
    ensures Area(Translate(s, dx, dy)) == Area(s)
    ensures Perimeter(Translate(s, dx, dy)) == Perimeter(s)
  {
  }

  /** Scaling up by a nonzero factor and then down by it restores every field. */
  lemma ScaleRoundTrip(s: Shape, factor: int)
    requires factor != 0
    ensures Scale(Scale(s, factor, true), factor, false) == s
  {
    ScalePointRoundTrip(s.position, factor as real);
    if s.Triangle? {
      ScalePointRoundTrip(s.v1, factor as real);
      ScalePointRoundTrip(s.v2, factor as real);
      ScalePointRoundTrip(s.v3, factor as real);
    }
  }

  /** Scaling up by f multiplies the area of a rectangle or circle by f*f and
      its perimeter by f. A square, whose side is never resized, keeps both. */
  lemma ScaleUpMeasures(s: Shape, factor: int)
    requires !s.Triangle?
    ensures var k: real := if s.Square? then 1.0 else factor as real;
      Area(Scale(s, factor, true)) == Known(k * k * Area(s).value) &&
      Perimeter(Scale(s, factor, true)) == Known(k * Perimeter(s).value)
  {
    var f := factor as real;
    match s
    case Rectangle(_, w, l) =>
      assert (w * f) * (l * f) == f * f * (w * l);
      assert 2.0 * (w * f) + 2.0 * (l * f) == f * (2.0 * w + 2.0 * l);
    case Circle(_, rad) =>
      assert Pi * (rad * f) * (rad * f) == f * f * (Pi * rad * rad);
      assert 2.0 * Pi * (rad * f) == f * (2.0 * Pi * rad);
    case Square(_, _) =>
  }

  /** Scaling down by f divides the area of a rectangle or circle by f*f and
      its perimeter by f. A square keeps both. */
  lemma ScaleDownMeasures(s: Shape, factor: int)
    requires !s.Triangle? && factor != 0
    ensures var k: real := if s.Square? then 1.0 else factor as real;
      k * k * Area(Scale(s, factor, false)).value == Area(s).value &&
      k * Perimeter(Scale(s, factor, false)).value == Perimeter(s).value
  {
    var f := factor as real;
    match s
    case Rectangle(_, w, l) =>
      var (w', l') := (w / f, l / f);
      assert w' * f == w && l' * f == l;
      assert f * f * (w' * l') == (w' * f) * (l' * f);
      assert f * (2.0 * w' + 2.0 * l') == 2.0 * (w' * f) + 2.0 * (l' * f);
    case Circle(_, rad) =>
      var rad' := rad / f;
      assert rad' * f == rad;
      assert f * f * (Pi * rad' * rad') == Pi * (rad' * f) * (rad' * f);
      assert f * (2.0 * Pi * rad') == 2.0 * Pi * (rad' * f);
    case Square(_, _) =>
  }

  /** A square measures exactly as the rectangle whose width and length are
      both its side. */
  lemma SquareIsRectangle(p: Coordinate, a: real)
    ensures Area(Square(p, a)) == Area(Rectangle(p, a, a))
    ensures Perimeter(Square(p, a)) == Perimeter(Rectangle(p, a, a))
  {
  }

  /** A sanity check of the rectangle formulas, not a property the program
      relies on: among rectangles of a given perimeter the square has the
      largest area, so perimeter squared is at least sixteen times the area,
      and exactly that when width and length agree. */
  lemma RectangleIsoperimetric(p: Coordinate, w: real, l: real)
    ensures var (a, q) := (Area(Rectangle(p, w, l)).value, Perimeter(Rectangle(p, w, l)).value);
      q * q >= 16.0 * a && (w == l ==> q * q == 16.0 * a)
  {
    var (a, q, e) := (Area(Rectangle(p, w, l)).value, Perimeter(Rectangle(p, w, l)).value, 2.0 * (w - l));
    assert q * q - 16.0 * a == e * e;
  }

  /** A circle's area is half its perimeter times its radius. */
  lemma CircleAreaFromPerimeter(p: Coordinate, rad: real)
    ensures Area(Circle(p, rad)).value * 2.0 == Perimeter(Circle(p, rad)).value * rad
  {
  }

  /** The inherited position of a triangle, its first vertex when built, is
      left behind by any nonzero move. */
  lemma TrianglePositionGoesStale(a: Coordinate, b: Coordinate, c: Coordinate, dx: int, dy: int)
    requires dx != 0 || dy != 0
    ensures var t := Translate(MakeTriangle(a, b, c), dx, dy);
      t.position == a && t.v1 != a
  {
  }

  /** A triangle's side, as the distance rule measures it, can change under a
      move: the triangle (0,0), (1,0), (0,1) scaled down by 2 has a first side
      of squared length 0 (the truncated 0.5 reads as 0), and after a move by
      (-1, 0) that side has squared length 1 (the truncated -0.5 reads as 0). */
  lemma TriangleSideChangesUnderMove()
    ensures var t := Scale(MakeTriangle(Coordinate(0.0, 0.0), Coordinate(1.0, 0.0), Coordinate(0.0, 1.0)), 2, false);
      var u := Translate(t, -1, 0);
      DistanceSquared(t.v1, t.v2) == 0.0 && DistanceSquared(u.v1, u.v2) == 1.0
  {
    var t := Scale(MakeTriangle(Coordinate(0.0, 0.0), Coordinate(1.0, 0.0), Coordinate(0.0, 1.0)), 2, false);
    assert t.v2 == Coordinate(0.5, 0.0);
    assert TruncateToInt(0.5) == 0;
    var u := Translate(t, -1, 0);
    assert u.v1 == Coordinate(-1.0, 0.0) && u.v2 == Coordinate(-0.5, 0.0);
    assert TruncateToInt(-0.5) == 0;
  }

  /** The measures of a few concrete shapes. */
  lemma WorkedExamples(p: Coordinate)
    ensures Area(Rectangle(p, 3.0, 4.0)) == Known(12.0) && Perimeter(Rectangle(p, 3.0, 4.0)) == Known(14.0)
    ensures Area(Square(p, 5.0)) == Known(25.0) && Perimeter(Square(p, 5.0)) == Known(20.0)
    ensures Area(Circle(p, 2.0)) == Known(12.566) && Perimeter(Circle(p, 2.0)) == Known(12.566)
  {
  }
}
