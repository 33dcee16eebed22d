/** Star assembly: corner vertices on a circle, one chord per corner, inner
    vertices at chord intersections, and the interleaved vertex list.
    `sin` and `cos` are parameters, since the model has no trigonometry. */
module Stars {
  import opened Geometry

  /** The value of `math.pi` as written in decimal. */
  const Pi: real := 3.141592653589793

  datatype Option<T> = None | Some(value: T)

  /** Why a star cannot be built: the two configuration checks (assertion
      failures in the source) and the two kinds of StarError. */
  datatype Failure = TooFewCorners | SlopeOutOfRange | OverlappingChords | ParallelChords

  datatype Result<T> = Ok(value: T) | Err(error: Failure)

  /** A built star: its parameters as stored and its vertices, corner and
      inner vertices alternating. */
  datatype Star = Star(center: Point, outerDiameter: real, firstCornerSlope: real, vertices: seq<Point>)

  /** The configuration checks made before anything is computed. */
  predicate ValidConfig(corners: int, firstCornerSlope: real)
  {
    corners > 4 && 0.0 <= firstCornerSlope <= 2.0 * Pi
  }

  /** The point at distance `radius` from the center, in the direction
      `slope` measured clockwise from the +y axis. */
  function AtSlope(center: Point, radius: real, slope: real, sin: real -> real, cos: real -> real): Point
  {
    Point(center.x + sin(slope) * radius, center.y + cos(slope) * radius)
  }

  /** The slope of corner i: corners are spaced `2 * Pi / corners` apart,
      starting from `firstCornerSlope`. */
  function CornerSlope(firstCornerSlope: real, corners: int, i: int): real
    requires corners > 0
  {
    (2.0 * Pi / (corners as real)) * (i as real) + firstCornerSlope
  }

  function CornerVertex(center: Point, radius: real, firstCornerSlope: real, corners: int,
                        sin: real -> real, cos: real -> real, i: int): Point
    requires corners > 0
  {
    AtSlope(center, radius, CornerSlope(firstCornerSlope, corners, i), sin, cos)
  }

  function CornerVertices(center: Point, radius: real, firstCornerSlope: real, corners: nat,
                          sin: real -> real, cos: real -> real): (cv: seq<Point>)
    requires corners > 0
    ensures |cv| == corners
  {
    seq(corners, i => CornerVertex(center, radius, firstCornerSlope, corners, sin, cos, i))
  }

  /** Euclidean remainder: the remainder is the one `r` in `[0, m)` with
      `x == q * m + r`. */
  lemma ModUnique(x: int, m: int, q: int, r: int)
    requires m > 0 && x == q * m + r && 0 <= r < m
    ensures x % m == r
  {
    var d, e := x / m, x % m;
    assert x == d * m + e;
    var k := q - d;
    assert e - r == k * m;
  }

  /** Adding after reducing modulo n is adding before reducing. */
  lemma ModAdd(a: int, b: int, n: int)
    requires n > 0
    ensures (a % n + b) % n == (a + b) % n
  {
    var x := a % n + b;
    var q := a / n;
    assert a + b == x + q * n;
    ModUnique(a + b, n, x / n + q, x % n);
  }

  /** The corner that chord i leads to. */
  function ChordEnd(i: int, style: int, corners: int): (j: int)
    requires corners > 0
    ensures 0 <= j < corners
  {
    (i + style) % corners
  }

  /** The index of the chord that chord i is intersected with. */
  function PartnerIndex(i: int, style: int, corners: int): (j: int)
    requires corners > 0
    ensures 0 <= j < corners
  {
    (i - (style - 1)) % corners
  }

  /** Chord i joins corner i and corner `(i + style) % corners`. */
  function Chords(cv: seq<Point>, style: int): (ch: seq<Straight>)
    requires |cv| > 0
    ensures |ch| == |cv|
  {
    seq(|cv|, i requires 0 <= i < |cv| => Through(cv[i], cv[ChordEnd(i, style, |cv|)]))
  }

  /** The intersection that gives inner vertex i. */
  function InnerAt(ch: seq<Straight>, style: int, i: int): Intersection
    requires 0 <= i < |ch|
  {
    Intersect(ch[i], ch[PartnerIndex(i, style, |ch|)])
  }

  /** The first index from `from` on whose chords do not meet in one point. */
  function FirstDegenerate(ch: seq<Straight>, style: int, from: nat): (k: Option<nat>)
    decreases |ch| - from
    ensures k.None? <==> forall i :: from <= i < |ch| ==> InnerAt(ch, style, i).Pt?
    ensures k.Some? ==> from <= k.value < |ch| && !InnerAt(ch, style, k.value).Pt?
    ensures k.Some? ==> forall i :: from <= i < k.value ==> InnerAt(ch, style, i).Pt?
  {
    if from >= |ch| then None
    else if !InnerAt(ch, style, from).Pt? then Some(from)
    else FirstDegenerate(ch, style, from + 1)
  }

  /** Chord i passes through corner i and through corner `(i + style) % corners`. */
  lemma ChordsJoinCorners(cv: seq<Point>, style: int, i: int)
    requires 0 <= i < |cv|
    ensures OnLine(Chords(cv, style)[i], cv[i]) && OnLine(Chords(cv, style)[i], cv[ChordEnd(i, style, |cv|)])
  {
  }

  /** The first pair of chords that does not meet is the one FirstDegenerate finds. */
  lemma FirstDegenerateIs(ch: seq<Straight>, style: int, k: nat)
    requires k < |ch| && !InnerAt(ch, style, k).Pt?
    requires forall i :: 0 <= i < k ==> InnerAt(ch, style, i).Pt?
    ensures FirstDegenerate(ch, style, 0) == Some(k)
  {
    var d := FirstDegenerate(ch, style, 0);
    assert d.Some?;
  }

  /** The inner vertices, when every pair of chords meets in one point. */
  function InnerVertices(ch: seq<Straight>, style: int): (iv: seq<Point>)
    requires forall i :: 0 <= i < |ch| ==> InnerAt(ch, style, i).Pt?
    ensures |iv| == |ch|
  {
    seq(|ch|, i requires 0 <= i < |ch| => InnerAt(ch, style, i).p)
  }

  /** `chain(*zip(outer, inner))`: the two lists alternated, cut to the
      shorter one as `zip` does. */
  function Interleave<T>(outer: seq<T>, inner: seq<T>): (r: seq<T>)
    ensures |r| == 2 * (if |outer| <= |inner| then |outer| else |inner|)
    ensures forall i :: 0 <= i < |outer| && i < |inner| ==> r[2 * i] == outer[i] && r[2 * i + 1] == inner[i]
  {
    if outer == [] || inner == [] then []
    else
      var rest := Interleave(outer[1..], inner[1..]);
      assert forall i :: 1 <= i < |outer| && i < |inner| ==> rest[2 * (i - 1)] == outer[i] && rest[2 * (i - 1) + 1] == inner[i];
      [outer[0], inner[0]] + rest
  }

  /** The inner vertices, or the error raised at the first pair of chords
      that does not meet in one point. */
  function InnerResult(ch: seq<Straight>, style: int): Result<seq<Point>>
  {
    match FirstDegenerate(ch, style, 0)
    case Some(k) => Err(if InnerAt(ch, style, k).Coincident? then OverlappingChords else ParallelChords)
    case None => Ok(InnerVertices(ch, style))
  }

  /** The star the constructor builds, or why it fails. */
  function StarOf(center: Point, outerDiameter: real, sin: real -> real, cos: real -> real,
                  firstCornerSlope: real := 0.0, corners: int := 5, style: int := 2): Result<Star>
  {
    if corners <= 4 then Err(TooFewCorners)
    else if !(0.0 <= firstCornerSlope <= 2.0 * Pi) then Err(SlopeOutOfRange)
    else
      var cv := CornerVertices(center, outerDiameter / 2.0, firstCornerSlope, corners, sin, cos);
      StarFrom(center, outerDiameter, firstCornerSlope, cv, InnerResult(Chords(cv, style), style))
  }

  /** The star whose vertices interleave the corner and inner vertices, or
      the error of the inner-vertex step. */
  function StarFrom(center: Point, outerDiameter: real, firstCornerSlope: real,
                    cv: seq<Point>, inner: Result<seq<Point>>): Result<Star>
  {
    match inner
    case Err(e) => Err(e)
    case Ok(iv) => Ok(Star(center, outerDiameter, firstCornerSlope, Interleave(cv, iv)))
  }

  /** StarOf after the configuration checks, given the corner vertices and
      the outcome of the inner-vertex step. */
  lemma StarOfSteps(center: Point, outerDiameter: real, firstCornerSlope: real, corners: int, style: int,
                    sin: real -> real, cos: real -> real, cv: seq<Point>, inner: Result<seq<Point>>)
    requires ValidConfig(corners, firstCornerSlope)
    requires cv == CornerVertices(center, outerDiameter / 2.0, firstCornerSlope, corners, sin, cos)
    requires inner == InnerResult(Chords(cv, style), style)
    ensures StarOf(center, outerDiameter, sin, cos, firstCornerSlope, corners, style)
         == StarFrom(center, outerDiameter, firstCornerSlope, cv, inner)
  {
  }

  /** The first loop of the constructor: one corner vertex per corner. */
  method PlaceCorners(center: Point, outerRadius: real, firstCornerSlope: real, corners: int,
                      sin: real -> real, cos: real -> real) returns (cornerVertices: seq<Point>)
    requires corners > 0
    ensures cornerVertices == CornerVertices(center, outerRadius, firstCornerSlope, corners, sin, cos)
  {
    var spacingAngle := 2.0 * Pi / corners as real;
    cornerVertices := [];
    for i := 0 to corners
      invariant cornerVertices == CornerVertices(center, outerRadius, firstCornerSlope, corners, sin, cos)[..i]
    {
      var cornerSlope := spacingAngle * i as real + firstCornerSlope;
      var vertex := Point(center.x + sin(cornerSlope) * outerRadius, center.y + cos(cornerSlope) * outerRadius);
      assert cornerSlope == CornerSlope(firstCornerSlope, corners, i);
      assert vertex == AtSlope(center, outerRadius, cornerSlope, sin, cos);
      cornerVertices := cornerVertices + [vertex];
    }
  }

  /** The second loop of the constructor: chord i from corner i to corner
      `(i + style) % corners`. */
  method DrawChords(cornerVertices: seq<Point>, style: int) returns (straights: seq<Straight>)
    requires |cornerVertices| > 0
    ensures straights == Chords(cornerVertices, style)
  {
    var corners := |cornerVertices|;
    straights := [];
    for i := 0 to corners
      invariant straights == Chords(cornerVertices, style)[..i]
    {
      var straight := Through(cornerVertices[i], cornerVertices[(i + style) % corners]);
      straights := straights + [straight];
    }
  }

  /** The third loop of the constructor: inner vertex i from chords i and
      `(i - (style - 1)) % corners`, leaving with the error at the first pair
      that is coincident or parallel. */
  method FindInnerVertices(straights: seq<Straight>, style: int) returns (r: Result<seq<Point>>)
    requires |straights| > 0
    ensures r == InnerResult(straights, style)
  {
    var corners := |straights|;
    var innerVertices: seq<Point> := [];
    for i := 0 to corners
      invariant |innerVertices| == i
      invariant forall j :: 0 <= j < i ==> InnerAt(straights, style, j) == Pt(innerVertices[j])
    {
      var vertex := Intersect(straights[i], straights[(i - (style - 1)) % corners]);
      if vertex.Coincident? {
        FirstDegenerateIs(straights, style, i);
        return Err(OverlappingChords);
      }
      if vertex.Parallel? {
        FirstDegenerateIs(straights, style, i);
        return Err(ParallelChords);
      }
      innerVertices := innerVertices + [vertex.p];
    }
    assert FirstDegenerate(straights, style, 0) == None;
    assert innerVertices == InnerVertices(straights, style);
    return Ok(innerVertices);
  }

  /** Builds a star as the source's constructor does: the two configuration
      checks, then the three loops, then the interleaving. */
  method NewStar(center: Point, outerDiameter: real, sin: real -> real, cos: real -> real,
                 firstCornerSlope: real := 0.0, corners: int := 5, style: int := 2) returns (r: Result<Star>)
    ensures r == StarOf(center, outerDiameter, sin, cos, firstCornerSlope, corners, style)
  {
    if corners <= 4 {
      return Err(TooFewCorners);
    }
    if !(0.0 <= firstCornerSlope <= 2.0 * Pi) {
      return Err(SlopeOutOfRange);
    }
    var cornerVertices := PlaceCorners(center, outerDiameter / 2.0, firstCornerSlope, corners, sin, cos);
    var straights := DrawChords(cornerVertices, style);
    var inner := FindInnerVertices(straights, style);
    StarOfSteps(center, outerDiameter, firstCornerSlope, corners, style, sin, cos, cornerVertices, inner);
    match inner
    case Err(e) =>
      return Err(e);
    case Ok(innerVertices) =>
      return Ok(Star(center, outerDiameter, firstCornerSlope, Interleave(cornerVertices, innerVertices)));
  }

  /** `get_x_coordinates`: the x-coordinates of the vertices, in order. */
  function XCoordinates(star: Star): (xs: seq<real>)
    ensures |xs| == |star.vertices|
    ensures forall k :: 0 <= k < |xs| ==> xs[k] == star.vertices[k].x
  {
    seq(|star.vertices|, k requires 0 <= k < |star.vertices| => star.vertices[k].x)
  }

  /** `get_y_coordinates`: the y-coordinates of the vertices, in order. */
  function YCoordinates(star: Star): (ys: seq<real>)
    ensures |ys| == |star.vertices|
    ensures forall k :: 0 <= k < |ys| ==> ys[k] == star.vertices[k].y
  {
    seq(|star.vertices|, k requires 0 <= k < |star.vertices| => star.vertices[k].y)
  }

  /** Round trip of the two accessors: pairing the i-th x- and y-coordinate
      gives back the i-th vertex. */
  lemma CoordinatesGiveVertices(star: Star)
    ensures |XCoordinates(star)| == |YCoordinates(star)| == |star.vertices|
    ensures forall k :: 0 <= k < |star.vertices| ==> Point(XCoordinates(star)[k], YCoordinates(star)[k]) == star.vertices[k]
  {
  }

  /** The corner vertices of the star StarOf builds. */
  function StarCorners(center: Point, outerDiameter: real, firstCornerSlope: real, corners: int,
                       sin: real -> real, cos: real -> real): (cv: seq<Point>)
    requires corners > 0
    ensures |cv| == corners
  {
    CornerVertices(center, outerDiameter / 2.0, firstCornerSlope, corners, sin, cos)
  }

  /** The chords of the star StarOf builds. */
  function StarChords(center: Point, outerDiameter: real, firstCornerSlope: real, corners: int, style: int,
                      sin: real -> real, cos: real -> real): (ch: seq<Straight>)
    requires corners > 0
    ensures |ch| == corners
  {
    Chords(StarCorners(center, outerDiameter, firstCornerSlope, corners, sin, cos), style)
  }

  /** The configuration errors are raised exactly when a check fails, the
      corner count being checked first. */
  lemma StarRejectsConfig(center: Point, outerDiameter: real, firstCornerSlope: real, corners: int, style: int,
                          sin: real -> real, cos: real -> real)
    ensures StarOf(center, outerDiameter, sin, cos, firstCornerSlope, corners, style) == Err(TooFewCorners)
            <==> corners <= 4
    ensures StarOf(center, outerDiameter, sin, cos, firstCornerSlope, corners, style) == Err(SlopeOutOfRange)
            <==> corners > 4 && !(0.0 <= firstCornerSlope <= 2.0 * Pi)
  {
    if ValidConfig(corners, firstCornerSlope) {
      var ch := StarChords(center, outerDiameter, firstCornerSlope, corners, style, sin, cos);
      var cv := StarCorners(center, outerDiameter, firstCornerSlope, corners, sin, cos);
      StarOfSteps(center, outerDiameter, firstCornerSlope, corners, style, sin, cos, cv, InnerResult(ch, style));
    }
  }

  /** A valid configuration gives a star exactly when every chord meets its
      partner chord in one point. */
  lemma StarSucceeds(center: Point, outerDiameter: real, firstCornerSlope: real, corners: int, style: int,
                     sin: real -> real, cos: real -> real)
    ensures StarOf(center, outerDiameter, sin, cos, firstCornerSlope, corners, style).Ok?
            <==> ValidConfig(corners, firstCornerSlope)
                 && forall i :: 0 <= i < corners ==>
                      InnerAt(StarChords(center, outerDiameter, firstCornerSlope, corners, style, sin, cos), style, i).Pt?
  {
    if ValidConfig(corners, firstCornerSlope) {
      var ch := StarChords(center, outerDiameter, firstCornerSlope, corners, style, sin, cos);
      var cv := StarCorners(center, outerDiameter, firstCornerSlope, corners, sin, cos);
      StarOfSteps(center, outerDiameter, firstCornerSlope, corners, style, sin, cos, cv, InnerResult(ch, style));
    }
  }

  /** The first chord pair that does not meet decides the error: overlapping
      chords when coincident, parallel chords otherwise; no star is built. */
  lemma StarFailsAtFirstDegenerate(center: Point, outerDiameter: real, firstCornerSlope: real, corners: int, style: int,
                                   sin: real -> real, cos: real -> real, k: nat)
    requires ValidConfig(corners, firstCornerSlope) && k < corners
    requires !InnerAt(StarChords(center, outerDiameter, firstCornerSlope, corners, style, sin, cos), style, k).Pt?
    requires forall i :: 0 <= i < k ==>
               InnerAt(StarChords(center, outerDiameter, firstCornerSlope, corners, style, sin, cos), style, i).Pt?
    ensures StarOf(center, outerDiameter, sin, cos, firstCornerSlope, corners, style)
         == Err(if InnerAt(StarChords(center, outerDiameter, firstCornerSlope, corners, style, sin, cos), style, k).Coincident?
                then OverlappingChords else ParallelChords)
  {
    var ch := StarChords(center, outerDiameter, firstCornerSlope, corners, style, sin, cos);
    var cv := StarCorners(center, outerDiameter, firstCornerSlope, corners, sin, cos);
    FirstDegenerateIs(ch, style, k);
    StarOfSteps(center, outerDiameter, firstCornerSlope, corners, style, sin, cos, cv, InnerResult(ch, style));
  }

  /** `vertices` alternates the corners `cv` with the intersections of the
      chords `ch`: vertex 2i is corner i and vertex 2i + 1 is where chord i
      meets its partner chord. */
  predicate Assembled(vertices: seq<Point>, cv: seq<Point>, ch: seq<Straight>, style: int)
  {
    && |ch| == |cv| && |vertices| == 2 * |cv|
    && forall i :: 0 <= i < |cv| ==> vertices[2 * i] == cv[i] && InnerAt(ch, style, i) == Pt(vertices[2 * i + 1])
  }

  /** Successful inner vertices interleaved with the corners form an
      assembled vertex list. */
  lemma InnerResultAssembled(cv: seq<Point>, ch: seq<Straight>, style: int)
    requires |cv| == |ch| && InnerResult(ch, style).Ok?
    ensures Assembled(Interleave(cv, InnerResult(ch, style).value), cv, ch, style)
  {
    assert FirstDegenerate(ch, style, 0) == None;
    var iv := InnerVertices(ch, style);
    var v := Interleave(cv, iv);
    forall i | 0 <= i < |cv|
      ensures v[2 * i] == cv[i] && InnerAt(ch, style, i) == Pt(v[2 * i + 1])
    {
      assert v[2 * i + 1] == iv[i];
    }
  }

  /** A built star keeps its parameters and has two vertices per corner:
      vertex 2i is corner vertex i and vertex 2i+1 is inner vertex i, the
      point where chord i meets its partner chord. */
  lemma StarVertices(center: Point, outerDiameter: real, firstCornerSlope: real, corners: int, style: int,
                     sin: real -> real, cos: real -> real)
    requires StarOf(center, outerDiameter, sin, cos, firstCornerSlope, corners, style).Ok?
    ensures corners > 4
    ensures var star := StarOf(center, outerDiameter, sin, cos, firstCornerSlope, corners, style).value;
            var cv := StarCorners(center, outerDiameter, firstCornerSlope, corners, sin, cos);
            var ch := StarChords(center, outerDiameter, firstCornerSlope, corners, style, sin, cos);
            && star.center == center && star.outerDiameter == outerDiameter && star.firstCornerSlope == firstCornerSlope
            && Assembled(star.vertices, cv, ch, style)
  {
    var ch := StarChords(center, outerDiameter, firstCornerSlope, corners, style, sin, cos);
    var cv := StarCorners(center, outerDiameter, firstCornerSlope, corners, sin, cos);
    StarOfSteps(center, outerDiameter, firstCornerSlope, corners, style, sin, cos, cv, InnerResult(ch, style));
    InnerResultAssembled(cv, ch, style);
  }

  /** With every default taken (first corner slope 0, five corners, style
      2) the configuration checks pass, each chord is intersected with the
      chord before it, and a star is built exactly when every such pair
      meets in one point. */
  lemma DefaultStar(center: Point, outerDiameter: real, sin: real -> real, cos: real -> real)
    ensures StarOf(center, outerDiameter, sin, cos) == StarOf(center, outerDiameter, sin, cos, 0.0, 5, 2)
    ensures ValidConfig(5, 0.0)
    ensures forall i :: 0 <= i < 5 ==> PartnerIndex(i, 2, 5) == (i + 4) % 5
    ensures StarOf(center, outerDiameter, sin, cos).Ok?
        <==> forall i :: 0 <= i < 5 ==> InnerAt(StarChords(center, outerDiameter, 0.0, 5, 2, sin, cos), 2, i).Pt?
  {
    StarSucceeds(center, outerDiameter, 0.0, 5, 2, sin, cos);
    forall i | 0 <= i < 5
      ensures PartnerIndex(i, 2, 5) == (i + 4) % 5
    {
      if i == 0 {
        ModUnique(i - 1, 5, -1, 4);
        ModUnique(i + 4, 5, 0, 4);
      } else {
        ModUnique(i - 1, 5, 0, i - 1);
        ModUnique(i + 4, 5, 1, i - 1);
      }
    }
  }

  /** When `style - 1` is a multiple of the corner count (style 1 in
      particular), every chord is intersected with itself, so construction
      always fails with overlapping chords. */
  lemma SelfPairedStyleFails(center: Point, outerDiameter: real, firstCornerSlope: real, corners: int, style: int,
                             sin: real -> real, cos: real -> real)
    requires ValidConfig(corners, firstCornerSlope)
    requires (style - 1) % corners == 0
    ensures StarOf(center, outerDiameter, sin, cos, firstCornerSlope, corners, style) == Err(OverlappingChords)
  {
    var ch := StarChords(center, outerDiameter, firstCornerSlope, corners, style, sin, cos);
    ModUnique(0 - (style - 1), corners, -((style - 1) / corners), 0);
    assert PartnerIndex(0, style, corners) == 0;
    IntersectSelf(ch[0]);
    StarFailsAtFirstDegenerate(center, outerDiameter, firstCornerSlope, corners, style, sin, cos, 0);
  }

  /** Style 1, the case above for every corner count. */
  lemma StyleOneFails(center: Point, outerDiameter: real, firstCornerSlope: real, corners: int,
                      sin: real -> real, cos: real -> real)
    requires ValidConfig(corners, firstCornerSlope)
    ensures StarOf(center, outerDiameter, sin, cos, firstCornerSlope, corners, 1) == Err(OverlappingChords)
  {
    SelfPairedStyleFails(center, outerDiameter, firstCornerSlope, corners, 1, sin, cos);
  }
}
