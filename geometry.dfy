/** Points, straight lines through two points, and the intersection of two
    straight lines, over exact reals. Rounding of coordinates to a fixed
    number of decimals is the identity in this model. */
module Geometry {

  /** A point given by its x- and y-coordinates. */
  datatype Point = Point(x: real, y: real)

  /** The point shifted by `dx` along x and by `dy` along y; both distances
      default to zero. */
  function Moved(p: Point, dx: real := 0.0, dy: real := 0.0): (q: Point)
    ensures q.x - p.x == dx && q.y - p.y == dy
  {
    Point(p.x + dx, p.y + dy)
  }

  /** Shifting back by the opposite distances gives the original point. */
  lemma MovedBack(p: Point, dx: real, dy: real)
    ensures Moved(Moved(p, dx, dy), -dx, -dy) == p
  {
  }

  /** Both distances default to zero; moving by zero is no move. */
  lemma MovedByDefault(p: Point)
    ensures Moved(p) == p
  {
  }

  /** Two shifts in a row are one shift by the summed distances. */
  lemma MovedTwice(p: Point, dx1: real, dy1: real, dx2: real, dy2: real)
    ensures Moved(Moved(p, dx1, dy1), dx2, dy2) == Moved(p, dx1 + dx2, dy1 + dy2)
  {
  }

  /** A straight line: either vertical, the points with `p.x == x` for the
      stored `x`, or sloped, the points with `p.y == a * p.x + b`. */
  datatype Straight = Vertical(x: real) | Sloped(a: real, b: real)

  /** The point lies on the line. */
  predicate OnLine(l: Straight, p: Point)
  {
    match l
    case Vertical(x) => p.x == x
    case Sloped(a, b) => p.y == a * p.x + b
  }

  /** The straight line built from two points A and B: vertical when they
      share an x-coordinate, otherwise by slope and intercept. */
  function Through(A: Point, B: Point): (l: Straight)
    ensures l.Vertical? <==> A.x == B.x
    ensures l.Vertical? ==> l.x == A.x
  {
    if A.x != B.x then
      var a := (B.y - A.y) / (B.x - A.x);
      Sloped(a, A.y - a * A.x)
    else
      Vertical(A.x)
  }

  /** Both points lie on the line built from them. */
  lemma ThroughContains(A: Point, B: Point)
    ensures OnLine(Through(A, B), A) && OnLine(Through(A, B), B)
  {
    if A.x != B.x {
      var a := (B.y - A.y) / (B.x - A.x);
      assert a * (B.x - A.x) == B.y - A.y;
    }
  }

  /** Two distinct points determine their line: any line through both is
      the one `Through` builds. */
  lemma ThroughUnique(A: Point, B: Point, l: Straight)
    requires A != B
    requires OnLine(l, A) && OnLine(l, B)
    ensures l == Through(A, B)
  {
    match l
    case Vertical(x) =>
    case Sloped(a, b) =>
      assert B.y - A.y == a * (B.x - A.x);
      assert A.x != B.x;
      assert a == (B.y - A.y) / (B.x - A.x);
  }

  /** The order of the two points does not matter. */
  lemma ThroughSymmetric(A: Point, B: Point)
    ensures Through(A, B) == Through(B, A)
  {
    if A != B {
      ThroughContains(B, A);
      ThroughUnique(A, B, Through(B, A));
    }
  }

  /** The outcome of intersecting two straight lines: their one common
      point, or no common point (parallel), or the same line (the source
      raises CoincidentStraights). */
  datatype Intersection = Pt(p: Point) | Parallel | Coincident

  /** Both lines are vertical, or both are sloped with the same slope. */
  predicate SameDirection(s: Straight, o: Straight)
  {
    (s.Vertical? && o.Vertical?) || (s.Sloped? && o.Sloped? && s.a == o.a)
  }

  /** The intersection of `s` with `o`, by the four-way case analysis on
      which of the two lines are vertical. */
  function Intersect(s: Straight, o: Straight): (r: Intersection)
    ensures r.Coincident? <==> s == o
    ensures r.Parallel? <==> SameDirection(s, o) && s != o
  {
    if s.Sloped? && o.Sloped? then
      if s.a == o.a then
        if s.b == o.b then Coincident else Parallel
      else
        var x := (o.b - s.b) / (s.a - o.a);
        Pt(Point(x, s.a * x + s.b))
    else if s.Vertical? && o.Vertical? then
      if s.x == o.x then Coincident else Parallel
    else if s.Vertical? then
      Pt(Point(s.x, o.a * s.x + o.b))
    else
      Pt(Point(o.x, s.a * o.x + s.b))
  }

  /** A found intersection point lies on both lines. */
  lemma IntersectOnBoth(s: Straight, o: Straight)
    ensures Intersect(s, o).Pt? ==> OnLine(s, Intersect(s, o).p) && OnLine(o, Intersect(s, o).p)
  {
    if s.Sloped? && o.Sloped? && s.a != o.a {
      var x := (o.b - s.b) / (s.a - o.a);
      assert (s.a - o.a) * x == o.b - s.b;
    }
  }

  /** What the three outcomes mean for an arbitrary point q: a found point is
      the only common point, parallel lines share no point, and coincident
      lines share every point. */
  lemma IntersectMeaning(s: Straight, o: Straight, q: Point)
    ensures Intersect(s, o).Pt? ==> (OnLine(s, q) && OnLine(o, q) <==> q == Intersect(s, o).p)
    ensures Intersect(s, o).Parallel? ==> !(OnLine(s, q) && OnLine(o, q))
    ensures Intersect(s, o).Coincident? ==> (OnLine(s, q) <==> OnLine(o, q))
  {
    IntersectOnBoth(s, o);
    if s.Sloped? && o.Sloped? && s.a != o.a && OnLine(s, q) && OnLine(o, q) {
      assert (s.a - o.a) * q.x == o.b - s.b;
      assert q.x == (o.b - s.b) / (s.a - o.a);
    }
  }

  /** Intersecting `o` with `s` gives the same outcome as `s` with `o`. */
  lemma IntersectSymmetric(s: Straight, o: Straight)
    ensures Intersect(s, o) == Intersect(o, s)
  {
    var r := Intersect(s, o);
    if r.Pt? {
      IntersectMeaning(o, s, r.p);
    }
  }

  /** A line intersected with itself is always coincident. */
  lemma IntersectSelf(l: Straight)
    ensures Intersect(l, l) == Coincident
  {
  }

  /** The line through two points and the line through the same points in
      the other order are coincident. */
  lemma ReorderedThroughCoincident(A: Point, B: Point)
    ensures Intersect(Through(A, B), Through(B, A)) == Coincident
  {
    ThroughSymmetric(A, B);
  }

  /** The vertical line x = 3 meets y = 2x + 1 at (3, 7). */
  lemma IntersectVerticalExample()
    ensures Intersect(Vertical(3.0), Sloped(2.0, 1.0)) == Pt(Point(3.0, 7.0))
  {
  }
}
