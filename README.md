# eightstars geometry, in Dafny

This project models the geometry core of the `eightstars` package. That core is the module
`src/eightstars/geometry.py`, and it defines three things:

- **Points.** `Point` stores two coordinates. `moved` returns a shifted copy.
- **Straight lines.** `Straight` builds the line through two points A and B. It is either
  vertical (`x = A.x` when both points share an x-coordinate) or sloped, `y = a·x + b`. Its
  `intersection` method returns one of three outcomes: the common point, `None` when the
  lines are parallel, or the exception `CoincidentStraights` when they are the same line.
- **Stars.** `Star` places its corners. It has at least 5 of them, set on a circle of half
  the outer diameter and spaced `2π / corners` apart, starting at `first_corner_slope`.
  One chord runs from corner `i` to corner `(i + style) % corners`. Inner vertex `i` is
  where chord `i` meets chord `(i - (style - 1)) % corners`. The list of vertices
  alternates corner and inner vertices. Construction fails with `StarError` when a
  pair of chords is parallel or coincident. `get_x_coordinates` and `get_y_coordinates`
  project the vertices.

Coordinates are exact reals, and rounding to a number of decimals is the identity. `sin`
and `cos` are parameters of the star construction. `math.pi` is the decimal constant
`3.141592653589793`. The Python assertions on the configuration become the error values
`TooFewCorners` and `SlopeOutOfRange`. The two `StarError` cases become
`OverlappingChords` (coincident chords) and `ParallelChords`.

The project has three files:

- `geometry.dfy` (module `Geometry`): points, lines and intersection. These are pure
  datatypes and functions.
- `star.dfy` (module `Stars`): star construction.
  - `NewStar` is the constructor as a method. Like the source, it runs three loops.
    Each loop is its own method, proved equal to a specification function:
    - `PlaceCorners` is proved equal to `CornerVertices`;
    - `DrawChords` is proved equal to `Chords`;
    - `FindInnerVertices` is proved equal to `InnerResult`.
  - `NewStar` itself is proved equal to the pure function `StarOf`.
  - The lemmas about `StarOf` state what the constructor promises.
- `rotation.dfy` (module `StarRotation`): a symmetry of `StarOf`. Turning the first
  corner on by one spacing angle rotates the list of vertices by two places.

## Model

| member | source | states |
|---|---|---|
| Geometry.Moved | src/eightstars/geometry.py:31-41 | the new point differs from the old one by exactly `dx` in x and `dy` in y |
| Geometry.MovedBack | src/eightstars/geometry.py:41 | moving by `(dx, dy)` and then by `(-dx, -dy)` gives back the original point |
| Geometry.MovedByDefault | src/eightstars/geometry.py:31 | `Moved(p)`, with both distances at their default of 0, is `p` |
| Geometry.MovedTwice | src/eightstars/geometry.py:41 | two moves in a row equal one move by the summed distances |
| Geometry.Through | src/eightstars/geometry.py:68-73 | the line is vertical exactly when `A.x == B.x`, and then its `x` is `A.x` |
| Geometry.ThroughContains | src/eightstars/geometry.py:68-73 | both A and B lie on the line built from them, in the vertical and the sloped case |
| Geometry.ThroughUnique | src/eightstars/geometry.py:68-73 | for distinct A and B, every line through both is the one built from them |
| Geometry.ThroughSymmetric | src/eightstars/geometry.py:55-73 | the line from A to B equals the line from B to A |
| Geometry.Intersect | src/eightstars/geometry.py:89-119 | the result is `Coincident` exactly when the two lines are equal; it is `Parallel` exactly when they have the same direction (both vertical, or equal slopes) but are not equal; otherwise it is a point |
| Geometry.IntersectOnBoth | src/eightstars/geometry.py:85-87 | a point result lies on both lines. When one line is vertical, the point has that line's x and takes y from the other line's equation |
| Geometry.IntersectMeaning | src/eightstars/geometry.py:75-119 | a point result is the only point on both lines; parallel lines share no point; coincident lines share every point |
| Geometry.IntersectSymmetric | src/eightstars/geometry.py:89-119 | intersecting o with s gives the same outcome as s with o |
| Geometry.IntersectSelf | src/eightstars/geometry.py:89-106 | a line intersected with itself is always coincident, in both the vertical and the sloped case |
| Geometry.ReorderedThroughCoincident | src/eightstars/geometry.py:55-106 | the lines through A, B and through B, A are coincident |
| Geometry.IntersectVerticalExample | src/eightstars/geometry.py:110-113 | `x = 3` meets `y = 2x + 1` at `(3, 7)` |
| Stars.ChordEnd | src/eightstars/geometry.py:197 | the far corner of chord i, `(i + style) % corners`, is a valid corner index for every style, negative styles included |
| Stars.PartnerIndex | src/eightstars/geometry.py:204 | the partner chord index, `(i - (style - 1)) % corners`, is a valid chord index for every style, the index made negative by subtracting included |
| Stars.ChordsJoinCorners | src/eightstars/geometry.py:194-198 | chord i passes through corner i and through corner `(i + style) % corners` |
| Stars.FirstDegenerate | src/eightstars/geometry.py:200-212 | the search finds nothing exactly when every later pair of chords meets in a point; a found index is the first pair that does not, with every earlier pair meeting in a point |
| Stars.Interleave | src/eightstars/geometry.py:215-217 | the result has twice the shorter length (as `zip` truncates); element 2i is `outer[i]` and element 2i+1 is `inner[i]` |
| Stars.PlaceCorners | src/eightstars/geometry.py:182-192 | the loop builds exactly the corner vertices of `CornerVertices` |
| Stars.DrawChords | src/eightstars/geometry.py:194-198 | the loop builds exactly the chords of `Chords`: chord i is the line from corner i to corner `(i + style) % corners` |
| Stars.FindInnerVertices | src/eightstars/geometry.py:200-213 | the loop returns the inner vertices, or the error of the first pair of chords that does not meet in one point (`InnerResult`) |
| Stars.NewStar | src/eightstars/geometry.py:144-217 | the constructor returns exactly `StarOf`: a configuration error, a chord error, or the star. Its defaults are the source's: first corner slope 0, 5 corners, style 2 |
| Stars.DefaultStar | src/eightstars/geometry.py:148-150 | with all defaults, `StarOf` is its 0, 5, 2 configuration. That configuration passes both checks. Each chord is paired with the chord before it. A star is built exactly when each such pair meets in one point |
| Stars.XCoordinates | src/eightstars/geometry.py:219-226 | as many x-coordinates as vertices; entry k is `vertices[k].x` |
| Stars.YCoordinates | src/eightstars/geometry.py:228-235 | as many y-coordinates as vertices; entry k is `vertices[k].y` |
| Stars.CoordinatesGiveVertices | src/eightstars/geometry.py:219-235 | pairing the x- and y-coordinates back up gives the vertex list |
| Stars.StarRejectsConfig | src/eightstars/geometry.py:172-175 | construction fails with `TooFewCorners` exactly when `corners <= 4`. It fails with `SlopeOutOfRange` exactly when there are enough corners but the first corner slope is outside `[0, 2π]` |
| Stars.StarSucceeds | src/eightstars/geometry.py:172-213 | a star is built exactly when the configuration is valid and every chord meets its partner chord in one point |
| Stars.StarFailsAtFirstDegenerate | src/eightstars/geometry.py:200-212 | when pair k is the first pair of chords that does not meet in a point, construction fails with `OverlappingChords` if that pair is coincident and with `ParallelChords` if it is parallel |
| Stars.InnerResultAssembled | src/eightstars/geometry.py:213-217 | when every pair of chords meets, interleaving the corners with the inner vertices gives a list where vertex 2i is corner i and vertex 2i+1 is the meeting point of chord i and its partner |
| Stars.StarVertices | src/eightstars/geometry.py:177-217 | a built star keeps its center, outer diameter and first corner slope. It has `2 * corners` vertices: vertex 2i is corner vertex i, and vertex 2i+1 is where chord i meets its partner chord |
| Stars.SelfPairedStyleFails | src/eightstars/geometry.py:203-208 | for a valid configuration where `style - 1` is a multiple of `corners`, chord 0 is paired with itself, so construction fails with `OverlappingChords` |
| Stars.StyleOneFails | src/eightstars/geometry.py:203-208 | with style 1 every valid configuration fails with `OverlappingChords` |
| StarRotation.TurnedCorner | src/eightstars/geometry.py:182-192 | if `sin` and `cos` repeat after a full turn, corner i of the star turned on by one spacing angle is corner `(i + 1) % corners` of the original |
| StarRotation.TurnedChord | src/eightstars/geometry.py:194-198 | shifting the corners by one place shifts the chords by one place |
| StarRotation.TurnedInner | src/eightstars/geometry.py:200-204 | shifting the chords by one place shifts the chord pairs by one place |
| StarRotation.PairShift | src/eightstars/geometry.py:215-217 | n pairs, each moved one pair on (wrapping round), form the list rotated by two places |
| StarRotation.TurnedSucceeds | src/eightstars/geometry.py:172-213 | when both first corner slopes (the original and the turned one) lie in `[0, 2π]` with more than 4 corners, and `sin`, `cos` repeat after `2 * Pi` at the first slope, the turned star is built exactly when the original is |
| StarRotation.TurnedStar | src/eightstars/geometry.py:182-217 | when both first corner slopes lie in `[0, 2π]` with more than 4 corners, `sin`, `cos` repeat after `2 * Pi` at the first slope, and the original star is built, then the turned star is built too. Turning the first corner on by one spacing angle rotates the vertex list by two places: vertex k of the turned star is vertex `(k + 2) % (2 * corners)` of the original |

## Left out

- Rounding (`round(x, decimals)` for points, slopes, intercepts, the outer diameter and the
  first corner slope) is the identity, and the `decimals` parameters are dropped. So two
  quirks make no difference here:
  - `moved` uses the default 5 decimals instead of the point's own;
  - `Star`'s `decimals` reaches only `outer_diameter` and `first_corner_slope` (lines
    178-179). The corner points (line 188), the chords (lines 196-197) and the intersection
    points (line 119) use the default 5.

  Several properties hold only without rounding:
  - every `OnLine` lemma: `ThroughContains`, `ThroughUnique`, `IntersectOnBoth` and
    `IntersectMeaning`. With `a` and `b` rounded (lines 69-70), A and B need not lie
    exactly on the stored line;
  - `ThroughSymmetric`, `IntersectSymmetric` and `ReorderedThroughCoincident`.
  In the source, `Straight(A, B).b` and `Straight(B, A).b` are rounded from different
  expressions (line 70). The intersection's `y` is also taken from whichever line is `self`
  (line 101). So with rounding, points in swapped order can give `None` instead of
  `CoincidentStraights`.
- IEEE floating point: coordinates are exact reals, so equality and division are exact.
- `sin` and `cos` are parameters of the star construction and nothing is assumed about
  them. So where corners fall on the circle, and that inner vertices lie closer to the
  center, are not modelled.
- `StarRotation` assumes, through `PeriodicAt`, that `sin` and `cos` repeat exactly after
  `2 * Pi`. Since `Pi` is the decimal constant, the true sine and cosine do not. So
  `TurnedStar` states the idealised symmetry, which a floating-point star has only up to
  rounding.
- `math.pi` is the decimal constant `3.141592653589793`, not π.
- Python's `assert` disappears under `python -O`. The model always performs the two checks.
- The `Star` docstring calls the size a radius, but the code halves `outer_diameter` to get
  the radius. The model follows the code.
- `Point.__str__` and `Straight.__str__` format floats as text, so they are not modelled.
- `setup.py` is packaging metadata.
- Exceptions are modelled as error values. The source's messages are not.
