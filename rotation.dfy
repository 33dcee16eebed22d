/** Rotational symmetry of star construction: turning the first corner on
    by one spacing angle rotates the vertex list by two places, provided
    `sin` and `cos` take the same values at `firstCornerSlope` and at
    `firstCornerSlope + 2 * Pi`. */
module StarRotation {
  import opened Geometry
  import opened Stars

  /** The first corner slope turned on by one spacing angle. */
  function Turned(firstCornerSlope: real, corners: int): real
    requires corners > 0
  {
    firstCornerSlope + 2.0 * Pi / corners as real
  }

  /** `sin` and `cos` repeat after one full turn at the first corner slope.
      This is an idealisation: `Pi` is the decimal 3.141592653589793, not the
      number pi, so the true sine and cosine do not repeat exactly after
      `2 * Pi`. Under this hypothesis the rotation lemmas state the ideal
      rotational symmetry exactly, where a floating-point star has it only up to
      rounding. */
  predicate PeriodicAt(sin: real -> real, cos: real -> real, t: real)
  {
    sin(t + 2.0 * Pi) == sin(t) && cos(t + 2.0 * Pi) == cos(t)
  }

  /** Slopes with the same sine and cosine give the same point. */
  lemma SameSinCos(center: Point, radius: real, t: real, u: real, sin: real -> real, cos: real -> real)
    requires sin(t) == sin(u) && cos(t) == cos(u)
    ensures AtSlope(center, radius, t, sin, cos) == AtSlope(center, radius, u, sin, cos)
  {
    var p, q := AtSlope(center, radius, t, sin, cos), AtSlope(center, radius, u, sin, cos);
    assert p.x == center.x + sin(t) * radius == q.x;
    assert p.y == center.y + cos(t) * radius == q.y;
  }

  /** Corner i of the turned star is corner i + 1 of the original one,
      wrapping round to corner 0. */
  lemma TurnedCorner(center: Point, radius: real, firstCornerSlope: real, corners: int,
                     sin: real -> real, cos: real -> real, i: int)
    requires corners > 0 && 0 <= i < corners
    requires PeriodicAt(sin, cos, firstCornerSlope)
    ensures CornerVertex(center, radius, Turned(firstCornerSlope, corners), corners, sin, cos, i)
         == CornerVertex(center, radius, firstCornerSlope, corners, sin, cos, (i + 1) % corners)
  {
    var spacing := 2.0 * Pi / corners as real;
    assert CornerSlope(Turned(firstCornerSlope, corners), corners, i)
        == spacing * (i + 1) as real + firstCornerSlope;
    if i + 1 < corners {
      ModUnique(i + 1, corners, 0, i + 1);
      assert CornerSlope(firstCornerSlope, corners, i + 1) == spacing * (i + 1) as real + firstCornerSlope;
    } else {
      ModUnique(i + 1, corners, 1, 0);
      assert spacing * corners as real == 2.0 * Pi;
      assert CornerSlope(Turned(firstCornerSlope, corners), corners, i) == firstCornerSlope + 2.0 * Pi;
      assert CornerSlope(firstCornerSlope, corners, 0) == firstCornerSlope;
      SameSinCos(center, radius, firstCornerSlope + 2.0 * Pi, firstCornerSlope, sin, cos);
    }
  }

  /** Chord i of the turned star is chord i + 1 of the original one. */
  lemma TurnedChord(cv: seq<Point>, cv': seq<Point>, style: int, i: int)
    requires |cv| > 0 && |cv'| == |cv| && 0 <= i < |cv|
    requires forall j :: 0 <= j < |cv| ==> cv'[j] == cv[(j + 1) % |cv|]
    ensures Chords(cv', style)[i] == Chords(cv, style)[(i + 1) % |cv|]
  {
    var n := |cv|;
    var i1 := (i + 1) % n;
    var j := ChordEnd(i, style, n);
    var e := ChordEnd(i1, style, n);
    assert (j + 1) % n == e by {
      ModAdd(i + style, 1, n);
      ModAdd(i + 1, style, n);
      assert i + style + 1 == i + 1 + style;
    }
    assert cv'[i] == cv[i1];
    assert cv'[j] == cv[e];
    assert Chords(cv', style)[i] == Through(cv'[i], cv'[j]);
    assert Chords(cv, style)[i1] == Through(cv[i1], cv[e]);
  }

  /** Inner vertex i of the turned star comes from the same pair of chords
      as inner vertex i + 1 of the original one. */
  lemma TurnedInner(ch: seq<Straight>, ch': seq<Straight>, style: int, i: int)
    requires |ch| > 0 && |ch'| == |ch| && 0 <= i < |ch|
    requires forall j :: 0 <= j < |ch| ==> ch'[j] == ch[(j + 1) % |ch|]
    ensures InnerAt(ch', style, i) == InnerAt(ch, style, (i + 1) % |ch|)
  {
    var n := |ch|;
    var i1 := (i + 1) % n;
    var j := PartnerIndex(i, style, n);
    var e := PartnerIndex(i1, style, n);
    assert (j + 1) % n == e by {
      ModAdd(i - (style - 1), 1, n);
      ModAdd(i + 1, -(style - 1), n);
      assert i - (style - 1) + 1 == i + 1 + -(style - 1);
    }
    assert ch'[i] == ch[i1];
    assert ch'[j] == ch[e];
  }

  /** The index one place back, modulo n. */
  lemma Predecessor(j: int, n: int) returns (i: int)
    requires n > 0 && 0 <= j < n
    ensures 0 <= i < n && (i + 1) % n == j
  {
    if j == 0 {
      i := n - 1;
      ModUnique(i + 1, n, 1, 0);
    } else {
      i := j - 1;
      ModUnique(i + 1, n, 0, j);
    }
  }

  /** Pair i of the turned star's vertices is pair i + 1 of the original
      star's, given that its corners and inner intersections are. */
  lemma TurnedPairs(v: seq<Point>, v': seq<Point>, cv: seq<Point>, cv': seq<Point>,
                    ch: seq<Straight>, ch': seq<Straight>, style: int, n: int)
    requires n > 0 && |cv| == |cv'| == n
    requires Assembled(v, cv, ch, style) && Assembled(v', cv', ch', style)
    requires forall i :: 0 <= i < n ==> cv'[i] == cv[(i + 1) % n]
    requires forall i :: 0 <= i < n ==> InnerAt(ch', style, i) == InnerAt(ch, style, (i + 1) % n)
    ensures forall i :: 0 <= i < n ==>
              v'[2 * i] == v[2 * ((i + 1) % n)] && v'[2 * i + 1] == v[2 * ((i + 1) % n) + 1]
  {
    forall i | 0 <= i < n
      ensures v'[2 * i] == v[2 * ((i + 1) % n)] && v'[2 * i + 1] == v[2 * ((i + 1) % n) + 1]
    {
      var i1 := (i + 1) % n;
      assert v'[2 * i] == cv'[i] == cv[i1] == v[2 * i1];
      assert Pt(v'[2 * i + 1]) == InnerAt(ch', style, i) == InnerAt(ch, style, i1) == Pt(v[2 * i1 + 1]);
    }
  }

  /** A list of n pairs in which pair i of `v'` is pair i + 1 of `v`
      (wrapping round) is `v` rotated by two places. */
  lemma PairShift<T>(v: seq<T>, v': seq<T>, n: int)
    requires n > 0 && |v| == |v'| == 2 * n
    requires forall i :: 0 <= i < n ==>
               v'[2 * i] == v[2 * ((i + 1) % n)] && v'[2 * i + 1] == v[2 * ((i + 1) % n) + 1]
    ensures forall k :: 0 <= k < 2 * n ==> v'[k] == v[(k + 2) % (2 * n)]
  {
    forall k | 0 <= k < 2 * n
      ensures v'[k] == v[(k + 2) % (2 * n)]
    {
      var i := k / 2;
      var b := k % 2;
      assert k == 2 * i + b;
      var i1 := (i + 1) % n;
      assert (k + 2) % (2 * n) == 2 * i1 + b by {
        if i + 1 < n {
          ModUnique(i + 1, n, 0, i + 1);
          ModUnique(k + 2, 2 * n, 0, 2 * (i + 1) + b);
        } else {
          ModUnique(i + 1, n, 1, 0);
          ModUnique(k + 2, 2 * n, 1, b);
        }
      }
      if b == 0 {
        assert v'[2 * i] == v[2 * i1];
      } else {
        assert v'[2 * i + 1] == v[2 * i1 + 1];
      }
    }
  }

  /** Corners and inner intersections of the turned star are those of the
      original one, shifted by one place. */
  lemma TurnedParts(center: Point, outerDiameter: real, firstCornerSlope: real, corners: int, style: int,
                    sin: real -> real, cos: real -> real)
    requires corners > 0 && PeriodicAt(sin, cos, firstCornerSlope)
    ensures var cv := StarCorners(center, outerDiameter, firstCornerSlope, corners, sin, cos);
            var cv' := StarCorners(center, outerDiameter, Turned(firstCornerSlope, corners), corners, sin, cos);
            forall j :: 0 <= j < corners ==> cv'[j] == cv[(j + 1) % corners]
    ensures var ch := StarChords(center, outerDiameter, firstCornerSlope, corners, style, sin, cos);
            var ch' := StarChords(center, outerDiameter, Turned(firstCornerSlope, corners), corners, style, sin, cos);
            forall j :: 0 <= j < corners ==> InnerAt(ch', style, j) == InnerAt(ch, style, (j + 1) % corners)
  {
    var n := corners;
    var first' := Turned(firstCornerSlope, n);
    var cv := StarCorners(center, outerDiameter, firstCornerSlope, n, sin, cos);
    var cv' := StarCorners(center, outerDiameter, first', n, sin, cos);
    forall j | 0 <= j < n
      ensures cv'[j] == cv[(j + 1) % n]
    {
      TurnedCorner(center, outerDiameter / 2.0, firstCornerSlope, n, sin, cos, j);
    }
    var ch := StarChords(center, outerDiameter, firstCornerSlope, n, style, sin, cos);
    var ch' := StarChords(center, outerDiameter, first', n, style, sin, cos);
    forall j | 0 <= j < n
      ensures ch'[j] == ch[(j + 1) % n]
    {
      TurnedChord(cv, cv', style, j);
    }
    forall j | 0 <= j < n
      ensures InnerAt(ch', style, j) == InnerAt(ch, style, (j + 1) % n)
    {
      TurnedInner(ch, ch', style, j);
    }
  }

  /** The turned star is built exactly when the original one is. */
  lemma TurnedSucceeds(center: Point, outerDiameter: real, firstCornerSlope: real, corners: int, style: int,
                       sin: real -> real, cos: real -> real)
    requires ValidConfig(corners, firstCornerSlope) && ValidConfig(corners, Turned(firstCornerSlope, corners))
    requires PeriodicAt(sin, cos, firstCornerSlope)
    ensures StarOf(center, outerDiameter, sin, cos, Turned(firstCornerSlope, corners), corners, style).Ok?
        <==> StarOf(center, outerDiameter, sin, cos, firstCornerSlope, corners, style).Ok?
  {
    var n := corners;
    var first' := Turned(firstCornerSlope, n);
    TurnedParts(center, outerDiameter, firstCornerSlope, n, style, sin, cos);
    var ch := StarChords(center, outerDiameter, firstCornerSlope, n, style, sin, cos);
    var ch' := StarChords(center, outerDiameter, first', n, style, sin, cos);
    StarSucceeds(center, outerDiameter, firstCornerSlope, n, style, sin, cos);
    StarSucceeds(center, outerDiameter, first', n, style, sin, cos);
    if forall j :: 0 <= j < n ==> InnerAt(ch, style, j).Pt? {
      forall j | 0 <= j < n
        ensures InnerAt(ch', style, j).Pt?
      {
        assert InnerAt(ch', style, j) == InnerAt(ch, style, (j + 1) % n);
      }
    }
    if forall j :: 0 <= j < n ==> InnerAt(ch', style, j).Pt? {
      forall j | 0 <= j < n
        ensures InnerAt(ch, style, j).Pt?
      {
        var i := Predecessor(j, n);
        assert InnerAt(ch', style, i) == InnerAt(ch, style, j);
      }
    }
  }

  /** The vertex lists assembled from the original and from the turned
      corners and chords are rotations of each other by two places. */
  lemma RotatedVertices(center: Point, outerDiameter: real, firstCornerSlope: real, corners: int, style: int,
                        sin: real -> real, cos: real -> real, v: seq<Point>, v': seq<Point>)
    requires corners > 0 && PeriodicAt(sin, cos, firstCornerSlope)
    requires Assembled(v, StarCorners(center, outerDiameter, firstCornerSlope, corners, sin, cos),
                       StarChords(center, outerDiameter, firstCornerSlope, corners, style, sin, cos), style)
    requires Assembled(v', StarCorners(center, outerDiameter, Turned(firstCornerSlope, corners), corners, sin, cos),
                       StarChords(center, outerDiameter, Turned(firstCornerSlope, corners), corners, style, sin, cos), style)
    ensures |v'| == |v| == 2 * corners
    ensures forall k :: 0 <= k < 2 * corners ==> v'[k] == v[(k + 2) % (2 * corners)]
  {
    var n := corners;
    var first' := Turned(firstCornerSlope, n);
    TurnedParts(center, outerDiameter, firstCornerSlope, n, style, sin, cos);
    var cv := StarCorners(center, outerDiameter, firstCornerSlope, n, sin, cos);
    var cv' := StarCorners(center, outerDiameter, first', n, sin, cos);
    var ch := StarChords(center, outerDiameter, firstCornerSlope, n, style, sin, cos);
    var ch' := StarChords(center, outerDiameter, first', n, style, sin, cos);
    TurnedPairs(v, v', cv, cv', ch, ch', style, n);
    PairShift(v, v', n);
  }

  /** Turning the first corner on by one spacing angle (and staying within
      `[0, 2 * Pi]`) rotates the vertex list of a built star by two places:
      vertex k of the turned star is vertex `(k + 2) % (2 * corners)` of the
      original one. */
  lemma TurnedStar(center: Point, outerDiameter: real, firstCornerSlope: real, corners: int, style: int,
                   sin: real -> real, cos: real -> real)
    requires ValidConfig(corners, firstCornerSlope) && ValidConfig(corners, Turned(firstCornerSlope, corners))
    requires PeriodicAt(sin, cos, firstCornerSlope)
    requires StarOf(center, outerDiameter, sin, cos, firstCornerSlope, corners, style).Ok?
    ensures StarOf(center, outerDiameter, sin, cos, Turned(firstCornerSlope, corners), corners, style).Ok?
    ensures var v := StarOf(center, outerDiameter, sin, cos, firstCornerSlope, corners, style).value.vertices;
            var v' := StarOf(center, outerDiameter, sin, cos, Turned(firstCornerSlope, corners), corners, style).value.vertices;
            |v'| == |v| == 2 * corners
            && forall k :: 0 <= k < 2 * corners ==> v'[k] == v[(k + 2) % (2 * corners)]
  {
    var first' := Turned(firstCornerSlope, corners);
    TurnedSucceeds(center, outerDiameter, firstCornerSlope, corners, style, sin, cos);
    StarVertices(center, outerDiameter, firstCornerSlope, corners, style, sin, cos);
    StarVertices(center, outerDiameter, first', corners, style, sin, cos);
    RotatedVertices(center, outerDiameter, firstCornerSlope, corners, style, sin, cos,
                    StarOf(center, outerDiameter, sin, cos, firstCornerSlope, corners, style).value.vertices,
                    StarOf(center, outerDiameter, sin, cos, first', corners, style).value.vertices);
  }
}
