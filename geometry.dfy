/** Core Graphics values used by the game (CGPoint, CGVector, CGSize, CGRect),
    the screen bounds, random ranges and the math library, all over `real`. */
module Geometry {

  datatype Point = Point(x: real, y: real)
  datatype Vector = Vector(dx: real, dy: real)
  datatype Size = Size(width: real, height: real)

  /** A CGRect given by its origin (top-left corner) and a non-negative size. */
  datatype Rect = Rect(x: real, y: real, width: real, height: real)

  const ZeroSize: Size := Size(0.0, 0.0)

  /** `UIScreen.main.bounds`, fixed to one device (an iPhone in portrait). */
  const Width: real := 393.0
  const Height: real := 852.0

  function Abs(x: real): real { if x < 0.0 then -x else x }
  function Min(a: real, b: real): real { if a <= b then a else b }
  function Max(a: real, b: real): real { if a >= b then a else b }

  /** A random draw is given as a fraction `u` of the way through its range. */
  predicate Unit(u: real) { 0.0 <= u <= 1.0 }

  /** `CGFloat.random(in: lo...hi)`, with the random fraction `u` passed in. */
  function Between(lo: real, hi: real, u: real): (r: real)
    ensures lo <= hi && Unit(u) ==> lo <= r <= hi
    ensures u == 0.0 ==> r == lo
    ensures u == 1.0 ==> r == hi
  {
    MulNonnegIf(lo <= hi && Unit(u), 1.0 - u, hi - lo);
    MulNonnegIf(lo <= hi && Unit(u), u, hi - lo);
    lo + u * (hi - lo)
  }

  lemma MulNonneg(a: real, b: real)
    requires a >= 0.0 && b >= 0.0
    ensures a * b >= 0.0
  {
  }

  /** `MulNonneg` under a condition, for use inside an expression. */
  lemma MulNonnegIf(c: bool, a: real, b: real)
    requires c ==> a >= 0.0 && b >= 0.0
    ensures c ==> a * b >= 0.0
  {
    if c {
      MulNonneg(a, b);
    }
  }

  function DistSq(a: Point, b: Point): real
  {
    (a.x - b.x) * (a.x - b.x) + (a.y - b.y) * (a.y - b.y)
  }

  /** `a.intersects(b)` for rectangles of positive size: the interiors overlap
      (rectangles that only share an edge do not intersect). */
  predicate Intersects(a: Rect, b: Rect)
  {
    a.x < b.x + b.width && b.x < a.x + a.width &&
    a.y < b.y + b.height && b.y < a.y + a.height
  }

  /** A square of side `side` centred on `c`, written as the game writes its frames. */
  function Square(c: Point, side: real): (r: Rect)
    requires side > 0.0
    ensures r.width == r.height == side
    ensures r.x + side / 2.0 == c.x && r.y + side / 2.0 == c.y
  {
    Rect(c.x - side / 2.0, c.y - side / 2.0, side, side)
  }

  /** Two centred squares overlap exactly when their centres are closer than
      the sum of their half-sides on both axes. */
  lemma SquaresIntersect(p: Point, a: real, q: Point, b: real)
    requires a > 0.0 && b > 0.0
    ensures Intersects(Square(p, a), Square(q, b))
        <==> Abs(p.x - q.x) < (a + b) / 2.0 && Abs(p.y - q.y) < (a + b) / 2.0
  {
  }

  /** Not removed by the cull `x < -m || x > W + m || y < -m || y > H + m`. */
  predicate WithinMargin(p: Point, margin: real)
  {
    !(p.x < -margin || p.x > Width + margin || p.y < -margin || p.y > Height + margin)
  }

  predicate OnScreen(p: Point)
  {
    0.0 <= p.x <= Width && 0.0 <= p.y <= Height
  }

  /** The math library the game calls. Nothing about these functions is
      assumed beyond what `SinCosBounded` and `SqrtExact` state. */
  datatype Math = Math(
    sin: real -> real,
    cos: real -> real,
    sqrt: real -> real,
    atan2: (real, real) -> real,
    pi: real)

  ghost predicate SinCosBounded(m: Math)
  {
    (forall x :: -1.0 <= m.sin(x) <= 1.0) &&
    (forall x :: -1.0 <= m.cos(x) <= 1.0)
  }

  ghost predicate SqrtExact(m: Math)
  {
    forall x :: x >= 0.0 ==> m.sqrt(x) >= 0.0 && m.sqrt(x) * m.sqrt(x) == x
  }
}
