/** Path geometry of the cover window: the rounded rectangle that
    `drawWallpaper` in src/components/IPhoneWallpaper.jsx traces with one
    moveTo, four lineTo alternating with four quadraticCurveTo, and a
    closePath. Coordinates are reals because the cover's left edge
    `(width - coverSize) / 2` can be a half pixel. */
module Paths {

  datatype Point = Point(x: real, y: real)

  /** One entry of a canvas path, in the order the calls appended it. */
  datatype PathOp =
    | MoveTo(to: Point)
    | LineTo(to: Point)
    | QuadraticCurveTo(control: Point, to: Point)
    | ClosePath

  /** The pen position after an operation that moves it. */
  function EndOf(op: PathOp): Point
    requires !op.ClosePath?
  {
    match op
    case MoveTo(p) => p
    case LineTo(p) => p
    case QuadraticCurveTo(_, p) => p
  }

  /** A single subpath: a moveTo, segments, then a closePath. */
  predicate IsSubpath(path: seq<PathOp>) {
    |path| >= 2 && path[0].MoveTo? && path[|path| - 1].ClosePath? &&
    forall i :: 0 < i < |path| - 1 ==> path[i].LineTo? || path[i].QuadraticCurveTo?
  }

  /** A subpath whose last segment already ends where the moveTo started, so
      the closePath adds no edge of its own. */
  predicate IsClosedLoop(path: seq<PathOp>) {
    IsSubpath(path) && EndOf(path[|path| - 2]) == path[0].to
  }

  /** Straight edges at odd positions, quadratic corners at even ones. */
  predicate AlternatesLinesAndCorners(path: seq<PathOp>) {
    IsSubpath(path) &&
    forall i :: 0 < i < |path| - 1 ==> (path[i].LineTo? <==> i % 2 == 1)
  }

  predicate InSquare(p: Point, x: real, y: real, size: real) {
    x <= p.x <= x + size && y <= p.y <= y + size
  }

  /** Every end point and every control point lies in the square. */
  predicate PathInSquare(path: seq<PathOp>, x: real, y: real, size: real) {
    forall i :: 0 <= i < |path| ==>
      (!path[i].ClosePath? ==> InSquare(EndOf(path[i]), x, y, size)) &&
      (path[i].QuadraticCurveTo? ==> InSquare(path[i].control, x, y, size))
  }

  /** Each straight edge is horizontal or vertical. */
  predicate EdgesAxisAligned(path: seq<PathOp>) {
    IsSubpath(path) &&
    forall i :: 0 < i < |path| - 1 && path[i].LineTo? ==>
      EndOf(path[i - 1]).x == path[i].to.x || EndOf(path[i - 1]).y == path[i].to.y
  }

  /** Each corner curve bends at its control point: the control point shares
      one coordinate with where the curve starts and the other with where it
      ends, so the curve is tangent to both edges that meet there. */
  predicate CornersTangent(path: seq<PathOp>) {
    IsSubpath(path) &&
    forall i :: 0 < i < |path| - 1 && path[i].QuadraticCurveTo? ==>
      var from, c, to := EndOf(path[i - 1]), path[i].control, path[i].to;
      (c.x == to.x && c.y == from.y) || (c.x == from.x && c.y == to.y)
  }

  /** The outline of a `size` x `size` square at (x, y) with corners rounded
      by `r`, clockwise from the top edge. */
  function RoundedRect(x: real, y: real, size: real, r: real): (path: seq<PathOp>)
    ensures |path| == 10
    ensures path[0] == MoveTo(Point(x + r, y))
    ensures IsClosedLoop(path)
    ensures AlternatesLinesAndCorners(path)
    ensures EdgesAxisAligned(path)
    ensures CornersTangent(path)
  {
    [ MoveTo(Point(x + r, y)),
      LineTo(Point(x + size - r, y)),
      QuadraticCurveTo(Point(x + size, y), Point(x + size, y + r)),
      LineTo(Point(x + size, y + size - r)),
      QuadraticCurveTo(Point(x + size, y + size), Point(x + size - r, y + size)),
      LineTo(Point(x + r, y + size)),
      QuadraticCurveTo(Point(x, y + size), Point(x, y + size - r)),
      LineTo(Point(x, y + r)),
      QuadraticCurveTo(Point(x, y), Point(x + r, y)),
      ClosePath ]
  }

  /** With a radius between 0 and the side, every point the path names lies
      in the cover square. */
  lemma RoundedRectInSquare(x: real, y: real, size: real, r: real)
    requires 0.0 <= r <= size
    ensures PathInSquare(RoundedRect(x, y, size, r), x, y, size)
  {
  }

  /** Radius 0: every corner curve starts, bends and ends at the same
      square corner, and the four edges join the four corners of the square. */
  lemma SquareCorners(x: real, y: real, size: real)
    ensures var path := RoundedRect(x, y, size, 0.0);
      (forall i :: 0 < i < |path| - 1 && path[i].QuadraticCurveTo? ==>
        path[i].control == path[i].to == EndOf(path[i - 1])) &&
      path[1].to == Point(x + size, y) && path[3].to == Point(x + size, y + size) &&
      path[5].to == Point(x, y + size) && path[7].to == Point(x, y)
  {
  }

  /** Radius half the side: every straight edge has length 0, so the outline
      is four corner curves meeting at the midpoints of the sides. */
  lemma HalfSideRadius(x: real, y: real, size: real)
    ensures var path := RoundedRect(x, y, size, size / 2.0);
      forall i :: 0 < i < |path| - 1 && path[i].LineTo? ==> path[i].to == EndOf(path[i - 1])
  {
  }
}
