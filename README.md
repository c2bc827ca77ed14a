# petrify in Dafny

A model of the computational core of petrify, a Python library for
constructive solid geometry and CNC toolpath generation. Every coordinate is
an exact `real`. The model covers:

- **Gauss elimination** (`solve_matrix`, petrify/solver.py). It is a method
  working in place on an `array2<real>`. It is proved equal to a recursive
  specification, and that specification is proved sound: a solution
  satisfies the system, and a zero pivot means the matrix is singular.
- **Trapezoidal sweep decomposition** (petrify/decompose.py). The edge heap
  of `Sliced` is a class, and the sweep is a loop proved against a
  level-by-level specification. The staircase test and its transpose are
  computed exactly.
- **The planar kernel** (petrify/plane/...):
  - vector and point algebra with the class rules of `+` and `-`;
  - lines, rays and segments, their intersection and clamped projection;
  - `Matrix2` and its inverse;
  - polygon orientation, shift, envelope, even-odd containment and the
    classification of a `ComplexPolygon2`;
  - the naive edge offset of petrify/plane.py and its interior/exterior
    composition in engines/pyoffset.py;
  - the `solve_matrix`-based inset helpers of edge.py and util.py.
- **The 3-D kernel** (petrify/space/...):
  - vector and point algebra;
  - `Matrix3` as a 4 x 4 homogeneous transform, with product, transpose,
    determinant and inverse;
  - quaternions;
  - point/line/plane connections and intersections;
  - undirected segments, bases and planar projection.
- **Solid and mesh lists**: extrusion rings and boxes (solid.py), and fan
  triangulation (engines/pymesh.py).
- **STL files** (stl.py): the ASCII and binary readers and writers,
  including the short number format and the round trip from writing back to
  reading.
- **SVG input** (formats/svg.py): the `transform` attribute parser, paths
  and the SAX group stack.
- **Machining**: `frange`, scanline toolpaths and batching, motions and
  their G-code, cut phases and their command streams, the time a cut takes,
  and the small value objects of petrify/machine.
- **Value helpers**: the dispatch helpers of generic.py, the shapes of
  shape.py and the unit conversions.

Where the source needs something the model does not compute, it is a
parameter:

- a square root (`mag`, `sqrt`, a magnitude `d` with `d * d` given);
- a trigonometric function (`sin`, `cos`);
- Python's float parsing and `'{0}'.format` (`parse`, `show`);
- `struct` float packing (`pack`, `unpack`);
- the external `simplify`.

Python exceptions the source lets escape are `None` or an error variant of
the result: AssertionError, ZeroDivisionError, IndexError, TypeError and
NotImplemented. File I/O is modelled as byte and text values.

## Model

| member | source | states |
|---|---|---|
| Solver.PivotFirstMax | petrify/solver.py:6-11 | the pivot's absolute entry is maximal among the rows scanned, and every earlier row is strictly smaller |
| Solver.ElimRowCombines | petrify/solver.py:18-24 | an eliminated row is the old row plus c times the pivot row in every later column, with the pivot column zeroed |
| Solver.TriangulateBalanced | petrify/solver.py:5-24 | forward elimination keeps the solutions: whatever solves (or is annihilated by) the triangulated system does the same for the original |
| Solver.TriangulateShape | petrify/solver.py:5-24 | the triangulated matrix is upper triangular with nonzero pivots, except perhaps the last |
| Solver.BackSubstSolves | petrify/solver.py:27-31 | back substitution from an upper-triangular system yields a vector solving it |
| Solver.BackSubstSucceeds | petrify/solver.py:27-31 | back substitution fails only on a zero diagonal entry |
| Solver.SolveSound | petrify/solver.py:1-33 | a returned vector satisfies every equation of the original system |
| Solver.SolveNoneSingular | petrify/solver.py:1-33 | a ZeroDivisionError happens only on a singular system: there is then a nonzero vector the matrix annihilates |
| Solver.KernelFromZeroColumn | petrify/solver.py:19-29 | a column zero from the diagonal down, above nonzero pivots, gives a nonzero kernel vector |
| Solver.TriangulateNoneSingular | petrify/solver.py:18-19 | forward elimination stops only on a column that makes the system singular |
| Solver.SolveUnique | petrify/solver.py:1-33 | a system with exactly one solution y (and a trivial kernel) is solved to y |
| Solver.SolveExample | tests/test_solver.py:6-12 | solve_matrix([[0,1,-1,-2],[1,1,1,13],[1,-2,0,3]]) is [7, 2, 4] |
| SolverArray.FindPivot | petrify/solver.py:6-11 | the scan over the array returns Pivot of the current contents |
| SolverArray.SwapTails | petrify/solver.py:13-16 | the array afterwards is SwapTail of its old contents |
| SolverArray.EliminateRow | petrify/solver.py:19-24 | row k of the array becomes ElimRow of its old contents; every other row is unchanged |
| SolverArray.EliminateColumn | petrify/solver.py:18-24 | every row below i is eliminated in place, as EliminateBelow does |
| SolverArray.TriangulateMatrix | petrify/solver.py:5-24 | the elimination loop leaves Triangulate of the old contents, or stops exactly where it fails |
| SolverArray.MoveKnownColumn | petrify/solver.py:30-31 | rows above r move A[k][r] x[r] to the right-hand side, as SubtractColumn does |
| SolverArray.BackSubstitute | petrify/solver.py:26-31 | the back-substitution loop returns BackSubst of the array's contents |
| SolverArray.SolveMatrix | petrify/solver.py:1-33 | the in-place algorithm returns Solve of the original contents: a solution of the system, or None exactly on the division by zero |
| Decompose.Sliced.constructor | petrify/decompose.py:9-12 | the queue holds one (lower height, segment) entry per edge, sorted by height |
| Decompose.Sliced.Departures | petrify/decompose.py:14-17 | removes exactly the leading entries keyed y and returns their segments that are not horizontal at y |
| Decompose.LeadingExact | petrify/decompose.py:15 | takewhile's count is the length of the longest prefix keyed y |
| Decompose.SortByKeySorted | petrify/decompose.py:11-12 | the queue order is sorted by key and a permutation of the entries |
| Decompose.InitialHeapProperties | petrify/decompose.py:9-12 | one entry per edge, keyed by the edge's lower height, sorted by key |
| Decompose.LevelsSorted | petrify/decompose.py:38 | the levels are strictly increasing and exactly the vertex heights |
| Decompose.DeparturesTakeLevel | petrify/decompose.py:14-17 | the removed prefix is keyed y, the next entry is not, and the result is the non-horizontal segments removed |
| Decompose.MovingMembers | petrify/decompose.py:17 | a segment is returned exactly when it is in the removed entries and not horizontal at y |
| Decompose.GrouperPairs | petrify/decompose.py:19-21 | grouper(2, xs): pair k is (xs[2k], xs[2k+1]), an odd tail padded with None |
| Decompose.YlOnLevel | petrify/decompose.py:23-24 | an intersection with the horizontal line lies at its height |
| Decompose.WallsOrdered | petrify/decompose.py:46 | the walls of a pair come out ordered by edge index |
| Decompose.OrderIsLastIndex | petrify/decompose.py:36 | order[l] is the last index at which segment l occurs |
| Decompose.EmitQuads | petrify/decompose.py:45-58 | the loop over the active pairs appends ActiveUpTo's quads and keeps its walls, in order |
| Decompose.KeyDepartures | petrify/decompose.py:60-61 | the loop over the departing segments keys each by its crossing x, as DeparturesUpTo does |
| Decompose.AdvanceLevel | petrify/decompose.py:43-65 | one level of the sweep computes LevelStep of the old state, and the queue afterwards is the new state's |
| Decompose.SweepLevels | petrify/decompose.py:42-65 | the level loop computes SweepUpTo over all levels |
| Decompose.Trapezoidal | petrify/decompose.py:26-67 | the method computes TrapezoidalSpec(points, minArea) |
| Decompose.PairStepShape | petrify/decompose.py:48-58 | one pair yields [left@prior, left@level, right@level, right@prior] and keeps only walls with no endpoint on the level |
| Decompose.ActiveShape | petrify/decompose.py:45-58 | each active pair emits exactly one quad spanning prior to level |
| Decompose.LevelStepCount | petrify/decompose.py:45-53 | each level adds exactly one quad per active pair |
| Decompose.SweepShape | petrify/decompose.py:42-65 | after n levels prior is levels[n-1] and every quad spans the strip between two consecutive levels |
| Decompose.KeepLargeFilters | petrify/decompose.py:67 | the filter keeps exactly the quads with area above the threshold, in order |
| Decompose.TrapezoidalStrips | petrify/decompose.py:26-67 | every kept quad lies between two consecutive vertex heights, bottom corners on the lower and top corners on the upper, with area above the threshold |
| Decompose.TriArea | petrify/decompose.py:69-70 | the triangle area is nonnegative |
| Decompose.TrapArea | petrify/decompose.py:72-74 | the quad area is nonnegative |
| Decompose.TriAreaSymmetric | petrify/decompose.py:69-70 | the triangle area does not depend on the order of the corners |
| DecomposeExamples.StaircaseDecomposition | tests/test_decompose.py:7-47 | the staircase splits into exactly the 4 quads the test expects, bottom strip first |
| DecomposeExamples.TurnedStaircaseDecomposition | tests/test_decompose.py:49-54 | the transposed staircase splits into 3 quads |
| PyOffset.CollectFails | petrify/engines/pyoffset.py:4-6 | collecting fails exactly when one of the offsets failed |
| PyOffset.SurvivorsExact | petrify/engines/pyoffset.py:6 | an index survives exactly when its outcome is a polygon; survivors increase and stay in range |
| PyOffset.CollectKeepsOrder | petrify/engines/pyoffset.py:4-6 | the k-th result is the polygon of the k-th surviving outcome |
| PyOffset.OutcomeAt | petrify/engines/pyoffset.py:5 | each outcome is the offset of the polygon at the same position |
| PyOffset.OffsetComplexProperties | petrify/engines/pyoffset.py:3-11 | the interior is offset by -amount and the exterior by +amount, each kept in its own list, and the result fails exactly when one offset fails |
| PlanePoint.Normalized | petrify/plane/point.py:186-197 | given the magnitude d: the result keeps the class, scaled back by d gives the vector, and a zero magnitude returns a copy |
| PlanePoint.RoundHalfEven | petrify/plane/point.py:247-254 | Python's round lands within half a unit of the value |
| PlanePoint.Snap | petrify/plane/point.py:256-266 | a zero grid is the ZeroDivisionError (None); any other grid snaps and keeps the class |
| PlanePoint.SnapProperties | petrify/plane/point.py:256-266 | on a positive grid snapping succeeds and each coordinate moves by at most half a grid step; (1.15, 1.15) snaps to (1.25, 1.25) on 0.25 |
| PlanePoint.GetItem | petrify/plane/point.py:73-74 | indices -2 .. 1 read x or y; any other index is an IndexError |
| PlanePoint.MutableV2.IAdd | petrify/plane/point.py:109-116 | += adds a vector's coordinates, or items 0 and 1 of any indexable operand, in place, returns the same object and never changes its class; a one-item operand updates x and then fails (IndexError, None), a longer one succeeds on its first two items, and an operand that cannot be indexed fails with nothing changed |
| PlanePoint.MutableV2.SetItem | petrify/plane/point.py:76-79 | the coordinate GetItem reads at that index becomes the value and the other stays; a bad index changes nothing |
| PlanePoint.AddSubClasses | petrify/plane/point.py:91-133 | Vector op Vector and Point op Point give a Vector, mixed operands a Point, coordinates added or subtracted |
| PlanePoint.AddCommutes | petrify/plane/point.py:107 | __radd__ is __add__: the sum is the same either way round |
| PlanePoint.SubAddInverse | petrify/plane/point.py:91-133 | subtracting and adding back a vector restores the point |
| PlanePoint.RSubReversesSub | petrify/plane/point.py:135-143 | the reflected subtraction is the ordinary one with operands exchanged, always a Vector; a pair operand is refused |
| PlanePoint.ClassExamples | petrify/plane/point.py:24-31 | the class doctests: Point + Vector is a Point, Vector + Vector a Vector, Point * 2 a Point, Vector / 5 a Vector (also lines 272-275) |
| PlanePoint.EqProperties | petrify/plane/point.py:51-65 | equality compares coordinates with any 2-D operand or pair, ignores the class, is symmetric and agrees with the hash; other operands are NotImplemented |
| PlanePoint.MulKeepsClass | petrify/plane/point.py:145-151 | scalar multiplication keeps the class and scales both coordinates; other operands are refused |
| PlanePoint.DivUndoesMul | petrify/plane/point.py:145-169 | dividing by a nonzero scalar undoes multiplying by it |
| PlanePoint.RTrueDivSwapsOperands | petrify/plane/point.py:168-169 | s / v computes v / s, as operate does |
| PlanePoint.DotProperties | petrify/plane/point.py:199-208 | the dot product is symmetric, v . v is the squared magnitude, and (2, 1) . (2, 3) is 7 |
| PlanePoint.CrossProperties | petrify/plane/point.py:210-211 | the perpendicular is orthogonal, as long, and applied twice negates |
| PlanePoint.ReflectedProperties | petrify/plane/point.py:213-228 | reflection on a unit normal flips the normal component, keeps the length and undoes itself; (1, 1) on (0, 1) gives (1, -1) |
| PlanePoint.ZeroVectorIsTruthy | petrify/plane/point.py:67-71 | under Python 3 the zero vector is truthy, since __nonzero__ is ignored and __len__ is 2 |
| PlaneLine.ConstructAsWritten | petrify/plane/line.py:24-50 | as written: a constructed line has the requested class, a point anchor and one to three arguments; the zero-direction guard is inert |
| PlaneLine.GuardNeverFiresAsWritten | petrify/plane/line.py:32-50 | as written, two equal points build a line whose direction is the zero vector |
| PlaneLine.Construct | petrify/plane/line.py:24-50 | corrected: succeeds exactly when the as-written construction does with a nonzero direction, and then agrees with it |
| PlaneLine.ThroughRefusesCoincident | petrify/plane/line.py:32-50 | corrected: two coincident points are refused |
| PlaneLine.ThroughReachesEnd | petrify/plane/line.py:32-34 | two-point construction stores b - a, so p1 is a and p2 is b (also lines 76-78) |
| PlaneLine.ScaledConstruction | petrify/plane/line.py:25-30 | the (point, vector, length) form stores the vector scaled to the length through its magnitude |
| PlaneLine.AlongKeeps | petrify/plane/line.py:35-37 | the (point, vector) form keeps its arguments and refuses only the zero direction |
| PlaneLine.UInNests | petrify/plane/line.py:84-85 | segment parameters are [0, 1], ray parameters u >= 0, and each range lies inside the next (also lines 155-156, 170-171) |
| PlaneLine.TranslateKeepsDirection | petrify/plane/line.py:52-53 | + w moves the anchor by w and keeps the class and direction |
| PlaneLine.TranslateByPointFails | petrify/plane/line.py:52-53 | adding a point makes the anchor a vector, which the constructor refuses |
| PlaneLine.TranslateExample | petrify/plane/line.py:18-19 | the doctest: Line(Point(1, 1), Point(2, 1)) + Vector(1, 1) is Line(Point(2, 2), Vector(1, 0)) |
| PlaneLine.ScaleProperties | petrify/plane/line.py:55-57 | a nonzero factor scales anchor and direction; zero leaves no direction, refused |
| PlaneLine.NegateReverses | petrify/plane/line.py:59-78 | negation runs from the old p2 back to the old anchor, differs from the original, and twice gives it back |
| PlaneLine.EqualLinesHashAlike | petrify/plane/line.py:62-66 | equal lines hash alike; equality ignores the class |
| PlaneLine.Segment.Swap | petrify/plane/line.py:179-183 | _swap starts at the old far end, reverses the direction and returns the same object |
| PlaneLine.SwapIsNegation | petrify/plane/line.py:59-60 | _swap gives the negated segment: the same points traversed the other way (also lines 179-183) |
| PlaneUtil.IntersectOnBoth | petrify/plane/util.py:7-22 | for non-parallel objects, a point is returned exactly when both parameters are in range, and it lies on both |
| PlaneUtil.ParallelNeverIntersects | petrify/plane/util.py:8-10 | parallel directions never intersect, even on coinciding lines, and their connection fails (also lines 97-106) |
| PlaneUtil.LinesAlwaysMeet | petrify/plane/util.py:7-22 | two unbounded non-parallel lines always meet |
| PlaneUtil.IntersectExamples | petrify/plane/line.py:101-105 | the doctest: the two lines meet at the origin, and parallel ones give None |
| PlaneUtil.ClampProperties | petrify/plane/util.py:84-118 | clamping lands in the object's range and leaves in-range parameters alone |
| PlaneUtil.ConnectPointLineProperties | petrify/plane/util.py:78-88 | the connecting segment starts at P and ends on L at an in-range parameter; on an unbounded line that is the orthogonal foot |
| PlaneUtil.FootOrthogonal | petrify/plane/util.py:81-83 | the residual from the foot is orthogonal to the line's direction |
| PlaneUtil.ConnectPointLineExample | petrify/plane/line.py:124-126 | the doctest: Point(1, 0) connects to the origin on Line(Point(0, 2), Vector(0, -2)) |
| PlaneUtil.ConnectAtIntersection | petrify/plane/util.py:97-119 | when the two objects intersect, the connection runs from the intersection to itself |
| PlaneUtil.ConnectLinesEnds | petrify/plane/util.py:108-119 | both ends of the connection lie on their objects at in-range parameters |
| PlaneMatrix.Apply | petrify/plane/__init__.py:109-160 | a transformed point stays a point and a transformed vector a vector |
| PlaneMatrix.Matrix2.constructor | petrify/plane/__init__.py:64-73 | a new matrix is the identity |
| PlaneMatrix.Matrix2.IMul | petrify/plane/__init__.py:162-192 | `m *= other` sets m to the product of the old m and the old other (so `m *= m` squares it) and returns m itself |
| PlaneMatrix.Matrix2.SetItem | petrify/plane/__init__.py:102-107 | an integer key in -9 .. 8 writes that slot; any other key is refused and changes nothing |
| PlaneMatrix.ColumnMajorRoundTrip | petrify/plane/__init__.py:97-107 | `from_values` of a matrix's column-major slots rebuilds it, reading back the values gives them again, and item i of the rebuilt matrix is value i |
| PlaneMatrix.FromValuesNeedsNine | petrify/plane/__init__.py:200-205 | `from_values` succeeds exactly on nine values |
| PlaneMatrix.SetThenGet | petrify/plane/__init__.py:97-107 | an assigned slot reads back the value, every other slot is unchanged, and keys outside -9 .. 8 are refused |
| PlaneMatrix.IdentityNeutral | petrify/plane/__init__.py:195-198 | the identity is neutral for multiplication on both sides and fixes every point and vector |
| PlaneMatrix.AdjugateProduct | petrify/plane/__init__.py:251-281 | a matrix times its adjugate is the determinant times the identity |
| PlaneMatrix.InverseProperties | petrify/plane/__init__.py:259-281 | a matrix with determinant below 0.001 in size inverts to the identity; any other matrix times its inverse is the identity |
| PlaneMatrix.ApplyComposes | petrify/plane/__init__.py:109-160 | for affine matrices (bottom row 0, 0, 1) applying a product is applying the right factor then the left, and products stay affine |
| PlaneMatrix.ScaleApplies | petrify/plane/__init__.py:206-219 | `scale(x, y)` multiplies the coordinates of points and vectors; the doctest takes (1, 1) to (2, 3) |
| PlaneMatrix.TranslateApplies | petrify/plane/__init__.py:220-233 | `translate(x, y)` moves points by (x, y) and leaves vectors alone; the doctest takes (1, 1) to (3, 4) |
| PlanePolygon.Segments | petrify/space/__init__.py:112-115 | one edge per point, edge i running from point i to the next point, wrapping around (the 2-D polygon inherits `segments` from AbstractPolygon, which is not part of this model; the 3-D definition cited is the same rule) |
| PlanePolygon.Reversed | petrify/plane/__init__.py:486-495 | the reversal has the same length and element i is element n-1-i |
| PlanePolygon.SliceStart | petrify/plane/__init__.py:591-600 | where Python's `points[n:]` begins: n itself in range, len + n for a negative n in range, never past the end |
| PlanePolygon.MinX | petrify/plane/__init__.py:614 | the least x: no point lies left of it and some point has it |
| PlanePolygon.MinY | petrify/plane/__init__.py:615 | the least y: no point lies below it and some point has it |
| PlanePolygon.MaxX | petrify/plane/__init__.py:616 | the greatest x: no point lies right of it and some point has it |
| PlanePolygon.MaxY | petrify/plane/__init__.py:617 | the greatest y: no point lies above it and some point has it |
| PlanePolygon.Build | petrify/plane/__init__.py:641-660 | the classifying loop of `ComplexPolygon2(polygons)` builds exactly the reference classification of all inputs |
| PlanePolygon.ClassifyInput | petrify/plane/__init__.py:645-659 | one pass of the loop files input ix as the reference classification does |
| PlanePolygon.SignedAreaReversed | petrify/plane/__init__.py:404-415 | reversing a polygon negates the shoelace sum `clockwise` tests |
| PlanePolygon.OrientationProperties | petrify/plane/__init__.py:380-415 | `to_clockwise` is clockwise exactly when the area is nonzero, `to_counterclockwise` never is, each returns the polygon itself or its reversal as `clockwise` decides, and the points are kept |
| PlanePolygon.OrientationExamples | petrify/plane/__init__.py:380-415 | the doctests: (2, 0), (0, 0), (1, 1) is clockwise, its reversal is not, and each conversion gives the other |
| PlanePolygon.ShiftRotates | petrify/plane/__init__.py:591-600 | `shift(n)` keeps the length and the points, and for 0 <= n <= len point i is old point (i + n) mod len |
| PlanePolygon.ShiftExample | petrify/plane/__init__.py:595-597 | the doctest: the triangle shifted by 1 |
| PlanePolygon.EnvelopeBounds | petrify/plane/__init__.py:602-618 | the envelope exists iff there are points, contains every point, has non-negative size, and each side touches a point |
| PlanePolygon.EnvelopeExample | petrify/plane/__init__.py:606-608 | the doctest: Rectangle(Point(0, 0), Vector(2, 1)) |
| PlanePolygon.VertexContained | petrify/plane/__init__.py:583-585 | the start of every edge of nonzero length counts as inside |
| PlanePolygon.ContainsInsideExample | petrify/plane/__init__.py:576-578 | the doctest: the triangle contains (1, 0.5) |
| PlanePolygon.ContainsOutsideExample | petrify/plane/__init__.py:579-580 | the doctest: the triangle does not contain (0.5, 1.5) |
| PlanePolygon.ClassifyProperties | petrify/plane/__init__.py:645-659 | every polygon that simplifies is kept, as an interior or an exterior, and every kept polygon is clockwise or flat |
| PlanePolygon.ClassifyMembership | petrify/plane/__init__.py:645-659 | an interior is an oriented input whose first point some other input contains; an exterior one whose first point no other input contains |
| PlanePolygon.LenSplits | petrify/plane/__init__.py:694-706 | `len` counts the points of the exteriors plus those of the interiors, and `polygons` lists the exteriors first |
| PlaneOffset.MagnitudeSystem | petrify/plane.py:1079-1085 | `magnitude` builds a well-formed 2 x 3 augmented system for the solver |
| PlaneOffset.InwardsUpTo | petrify/plane.py:1089 | the list of inward normals, when none of them raises, has one normal per segment |
| PlaneOffset.CornersUpTo | petrify/plane.py:1106-1114 | the corner list, when no corner raises, has one point per surviving edge |
| PlaneOffset.Eliminate | petrify/plane.py:1090-1101 | the elimination loop builds exactly the reference list of surviving (edge, normal) pairs |
| PlaneOffset.KeepOrDrop | petrify/plane.py:1091-1101 | one pass of the elimination loop extends the surviving list as the reference does for that edge |
| PlaneOffset.RemnantStep | petrify/plane.py:1091-1101 | edge i joins the survivors exactly when its corner rays do not meet or meet further away (relative to the motion) than the amount; an edge that raises makes the whole offset raise |
| PlaneOffset.RemnantFailsOnward | petrify/plane.py:1091-1101 | once one edge raises, the elimination raises |
| PlaneOffset.Corners | petrify/plane.py:1106-1114 | the corner loop builds exactly the reference corner list |
| PlaneOffset.AddCorner | petrify/plane.py:1107-1114 | one pass of the corner loop appends the corner of edge j with its predecessor |
| PlaneOffset.CornersStep | petrify/plane.py:1107-1114 | each corner is the meeting point of the two surviving carriers plus -amount times the solved motion |
| PlaneOffset.CornersFailOnward | petrify/plane.py:1107-1114 | once one corner raises, the corner loop raises |
| PlaneOffset.Offset | petrify/plane.py:1061-1116 | `offset(amount)` computes the reference outcome: a polygon, None, or a raised error |
| PlaneOffset.InwardRayExists | petrify/plane.py:1033-1059 | `inwards` has a ray for every edge except one of zero length |
| PlaneOffset.InwardRayPerpendicular | petrify/plane.py:1042-1059 | the inward ray is perpendicular to its edge whichever way the crossing count turns it |
| PlaneOffset.InwardsPerpendicular | petrify/plane.py:1033-1059 | the inward normal is perpendicular to its edge |
| PlaneOffset.InwardRayExample | petrify/plane.py:1037-1039 | the triangle's bottom edge: the upward ray from its midpoint crosses the boundary once |
| PlaneOffset.InwardsExample | petrify/plane.py:1037-1039 | the doctest: the inward normal of the triangle's bottom edge is (0, 1) |
| PlaneOffset.MagnitudeMovesAlongLine | petrify/plane.py:1079-1085 | the solved motion is the normal moved along the line by the solved parameter, as the comment's equation says |
| PlaneOffset.MotionParallel | petrify/plane.py:1079-1085 | the motion differs from the normal by a multiple of the line |
| PlaneOffset.RemnantIgnoresSign | petrify/plane.py:1087-1101 | which edges survive depends only on the square of the amount |
| PlaneOffset.OffsetShape | petrify/plane.py:1103-1116 | None exactly when no edge survives, otherwise one corner per surviving edge; an empty polygon raises |
| PlaneOffset.CornerOnMovedLine | petrify/plane.py:1107-1114 | each new corner lies on the next surviving edge's line moved by -amount along its normal |
| OffsetExamples.MagnitudeSolved | petrify/plane.py:1079-1085 | a nonsingular `magnitude` system moves by Cramer's weight times the inward direction |
| OffsetExamples.SquareNormals | petrify/plane.py:1033-1059 | the unit square's inward normals point right, down, left and up |
| OffsetExamples.SquareRemnant | petrify/plane.py:1091-1101 | all four edges of the square survive below a squared amount of 1/4, none from there on |
| OffsetExamples.SquareCorners | petrify/plane.py:1106-1114 | the square's corners each move by -amount along their bisector |
| OffsetExamples.SquareOffset | petrify/plane.py:1061-1116 | the unit square offset by any amount below 1/2 in size is the square with its corners moved, and from 1/2 on is None |
| OffsetExamples.SquareInsetExample | petrify/plane.py:1066-1068 | the doctest `square.offset(-0.1)` |
| OffsetExamples.SquareOutsetExample | petrify/plane.py:1069-1070 | the doctest `square.offset(0.1)` |
| OffsetExamples.SquareCollapseExample | petrify/plane.py:1071-1072 | the doctest `square.offset(10) is None` |
| Edge.Columns | petrify/edge.py:93-94 | the matrix built from the columns is a 3 x 4 augmented system |
| Edge.InsetSystem | petrify/edge.py:86-94 | `edge_inset`'s matrix is a 3 x 4 augmented system |
| Edge.InsetWeights | petrify/edge.py:95-96 | the solver returns three weights |
| Edge.EdgeInsetFails | petrify/edge.py:86-97 | `edge_inset` raises only when edge, lateral and normal are linearly dependent |
| Edge.ScaledInset | petrify/edge.py:96-97 | the inset is the edge scaled by the solved weight, in the edge's class |
| Edge.EdgeInsetProperties | petrify/edge.py:86-97 | the solved weights satisfy w edge == inwards + u lateral + v normal, lateral = inwards x normal, as the comment promises |
| Edge.EdgeInsetUnique | petrify/edge.py:86-97 | when the system has exactly one solution, the inset is that solution's multiple of the edge |
| Edge.EdgeInsetAxisExample | tests/test_edge.py:9-15 | edge (1, 0, 0), inwards (0.1, 0, 0), normal (0, 0, 1) give (0.1, 0, 0) |
| Edge.EdgeInsetDiagonalExample | tests/test_edge.py:16-22 | edge (1, -1, 0), inwards (0.5, 0, 0) give (0.5, -0.5, 0) |
| Edge.Touching | petrify/edge.py:78-79 | the comprehension keeps exactly the segments touching the point other than the edge, in order |
| Edge.Minus | petrify/edge.py:81-82 | `a - b` on two 3-D values agrees with the space subtraction |
| Edge.Plus | petrify/edge.py:84 | `a + b` on two 3-D values agrees with the space addition |
| Edge.PolygonInsetNeighbours | petrify/edge.py:77-79 | an inset exists only when the polygon has segments and each end of the edge has exactly one other segment touching it |
| Edge.PolygonInsetEnds | petrify/edge.py:68-84 | the inset is the reversed edge with each end moved along its neighbouring segment by the `edge_inset` weight |
| Edge.PolygonInsetNeedsOneNeighbour | petrify/edge.py:78-79 | a second segment touching either end makes the one-element unpack fail |
| Edge.Faces | petrify/edge.py:26-27 | the faces are exactly the polygons that have the edge, in order; `has_edge` raising on any polygon raises |
| Edge.ChamferFaces | petrify/edge.py:27-29 | exactly two faces carry the edge, or the assertion fails |
| Edge.Matching | petrify/edge.py:34-35 | the comprehension keeps exactly the face's segments equal to the edge in either direction |
| Edge.FaceEdgeProperties | petrify/edge.py:34-35 | each face's copy of the edge is one of its segments and equals the edge up to direction |
| Edge.ChamferPolygons | petrify/edge.py:45-54 | the chamfer is five polygons |
| Edge.Insets | petrify/edge.py:56-58 | `insets` is the first two polygons |
| Edge.Endcaps | petrify/edge.py:64-66 | `endcaps` is every polygon after the cut |
| Edge.ChamferPolygonsProperties | petrify/edge.py:45-54 | every corner of the chamfer is an end of a face's edge or of an inset; the insets are quads and the end caps triangles |
| EdgeExamples.PlanarInset | petrify/edge.py:86-97 | in the xy plane with inwards along y, the inset is the edge scaled by the weight that gives it that y component |
| EdgeExamples.PolygonInsetExample | tests/test_edge.py:24-38 | the polygon (1, 3), (2, 2), (3, 2), (4, 3): the edge (2, 2)-(3, 2) moved by (0, 0.5, 0) becomes (3.5, 2.5)-(1.5, 2.5) |
| EdgeExamples.PolygonInsetCutExample | tests/test_edge.py:40-54 | the clockwise unit square: the edge (1, 0)-(0, 0) moved by (0, 0.1, 0) becomes (0, 0.1)-(1, 0.1) |
| Util.IndexBy | petrify/util.py:3-12 | the loop builds exactly the reference grouping Grouped(it, f) |
| Util.GroupedProperties | petrify/util.py:6-11 | a key is present iff some item has it; its list is the items with that key in input order; absent keys collect nothing |
| Util.GroupedSnoc | petrify/util.py:7-11 | one more item is appended to the end of its own key's list, other keys unchanged |
| Util.IndexByExample | petrify/util.py:3-12 | [1, 2, 3, 4] grouped by parity gives {1: [1, 3], 0: [2, 4]} |
| Util.LocateCircleProperties | petrify/util.py:14-27 | a found circle has x in [0, 1], a nonzero line length, centre p + npn r, and centre = l.p + v x + nl r (it touches the line at x) |
| Util.CircleTouches | petrify/util.py:16-24 | any solution of the 2x3 system places p + npn r on the line's normal at l.p + v x |
| Util.LocateCircleSingular | petrify/util.py:24-29 | a singular system (ZeroDivisionError) gives None, and the system has a nonzero kernel vector |
| Util.LocateCircleUnique | petrify/util.py:24-27 | with a unique solution y the result is the circle y describes, or None off the segment |
| Util.TestConfiguration | tests/test_util.py:8-11 | for the test segment and normal, a circle exists iff 0 <= p.y - p.x + 1 <= 1, centred at (p.x - p.y, p.y) |
| Util.LocateCircleExampleInside | tests/test_util.py:13 | p = (1, 1) gives [(0, 1), 1, 1] |
| Util.LocateCircleExampleStart | tests/test_util.py:14 | p = (1, 0) gives [(1, 0), 0, 0] |
| Util.LocateCircleExamplesOff | tests/test_util.py:15-16 | p = (-5, 0) and p = (5, 0) give None |
| Solid.PerpendicularOnUnitAxes | tests/test_solid.py:6-20 | on every axis with 0/1 coordinates the result is orthogonal to it |
| Solid.PerpendicularFailsAsWritten | petrify/solid.py:43-44 | the axis (1, 1, 2) gives (1, 1, -2), dot product -2 |
| Solid.PerpendicularCorrectedOrthogonal | petrify/solid.py:37-44 | the corrected helper is orthogonal to every axis, nonzero, and equals the original when z is 0 or 1 or x = y = 0 |
| Solid.ConvertCoordinates | petrify/solid.py:63-69 | convert = origin + x bx + y by + dz bz, component by component |
| Solid.ConvertUnit | petrify/solid.py:63-76 | the unit projection maps (x, y) at dz to the point (x, y, dz) |
| Solid.SliceProjectUnit | petrify/solid.py:84-85 | a slice maps point by point, in order, to its points at its level |
| Solid.NewExtrusionRejects | petrify/solid.py:103-106 | unequal slice sizes or no slices fail the assertion |
| Solid.GeneratePolygonsFails | petrify/solid.py:110-129 | generation raises exactly when the slices have fewer than two points, or two points with the first point of the bottom face or of the reversed top face at the origin: `Polygon3.__init__` calls `Plane(*points[0:3])` (space/__init__.py lines 87-88), which refuses fewer than two arguments and divides by the magnitude of the first of two (lines 441-453) |
| Solid.GeneratePolygonsShape | petrify/solid.py:110-121 | 2 + n (k - 1) polygons, bottom first, reversed top last |
| Solid.GeneratePolygonsRing | petrify/solid.py:115-121 | polygon 1 + j n + i is quad i of ring j reversed |
| Solid.MiddleCount | petrify/solid.py:117-118 | the rings hold n (k - 1) quads |
| Solid.MiddleAt | petrify/solid.py:117-129 | quad i of ring j sits at j n + i of the middle list |
| Solid.QuadWraps | petrify/solid.py:127-129 | the last quad joins index n - 1 back to index 0 |
| Solid.NewBox | petrify/solid.py:233-252 | a box always builds: the extrusion of its footprint at origin.z and extent.z |
| Solid.BoxSize | petrify/solid.py:235-255 | size() has the coordinates of the size argument, and equals it for a vector size |
| Solid.BoxFaces | petrify/solid.py:233-252 | six faces: the footprint (ox,oy),(ox,ey),(ex,ey),(ex,oy) at oz first, reversed at ez last |
| Solid.PolygonExtrusionTopAsWritten | petrify/solid.py:273-279 | the top face lies at z = 1 whatever the height |
| Solid.PolygonExtrusionTopCorrected | petrify/solid.py:268-279 | corrected: the top face lies at z = height |
| Solid.TopLevel | petrify/solid.py:110-121 | a two-slice extrusion of a footprint of three or more points builds, and its last polygon lies at the top slice's level |
| PyMesh.TriangulateInRange | petrify/engines/pymesh.py:6-8 | every fan triangle is (0, a, a + 1) with 0 < a < a + 1 < size |
| PyMesh.Facet | petrify/engines/pymesh.py:10-16 | the loop produces exactly the reference face list Facets(ps) |
| PyMesh.AppendFan | petrify/engines/pymesh.py:14-15 | the inner loop appends the fan shifted by ix, in order |
| PyMesh.FacetsCount | petrify/engines/pymesh.py:10-16 | there are sum(max(len - 2, 0)) faces |
| PyMesh.FacetsInRange | petrify/engines/pymesh.py:10-16 | every face has increasing indices below the total point count |
| PyMesh.FacetsLastFan | petrify/engines/pymesh.py:13-16 | the last polygon's fan starts at the number of points before it |
| PyMesh.FacetExample | petrify/engines/pymesh.py:10-16 | two squares and a triangle give (0,1,2) (0,2,3) (4,5,6) (4,6,7) (8,9,10) |
| SpacePoint.Normalized | petrify/space/point.py:208-217 | given the magnitude d: a nonzero d gives the vector divided by it, in its class; a zero d raises |
| SpacePoint.Snap | petrify/space/point.py:286-297 | a zero grid is the ZeroDivisionError (None); any other grid snaps and keeps the class |
| SpacePoint.GetItem | petrify/space/point.py:90-91 | indices -3 .. 2 read a coordinate; any other index is an IndexError |
| SpacePoint.MutableV3.constructor | petrify/space/point.py:53-56 | a new vector or point holds the given coordinates |
| SpacePoint.MutableV3.Normalize | petrify/space/point.py:200-206 | `normalize` divides the coordinates in place by a nonzero magnitude, leaves a zero vector alone, and returns the same object |
| SpacePoint.MutableV3.IAdd | petrify/space/point.py:127-136 | += adds a vector's coordinates, or items 0, 1 and 2 of any indexable operand, in place, keeps the class and returns the same object; a shorter operand (a pair, a 2-D vector) updates the coordinates it has and then fails (IndexError, None), a longer one succeeds on its first three items, and an operand that cannot be indexed fails with nothing changed |
| SpacePoint.MutableV3.SetItem | petrify/space/point.py:93-96 | the coordinate GetItem reads at that index becomes the value, the others stay, and a bad index changes nothing |
| SpacePoint.AddSubClasses | petrify/space/point.py:108-156 | Vector op Vector and Point op Point give a Vector, mixed operands a Point, a triple keeps the left class; + commutes, (u - w) + w is u, and other operands are refused |
| SpacePoint.ClassExamples | petrify/space/point.py:20-52 | the doctests of Vector3 and Point3: sum, difference, scaling, division and normalizing (0, 0, 5) |
| SpacePoint.EqProperties | petrify/space/point.py:66-80 | equality needs the same class and coordinates, is symmetric, agrees with the hash, and compares a triple by coordinates only |
| SpacePoint.MulDivProperties | petrify/space/point.py:157-181 | scalar multiplication keeps the class, division by a nonzero scalar undoes it, and a vector operand or a zero divisor is refused |
| SpacePoint.DotProperties | petrify/space/point.py:195-231 | the dot product is symmetric and v . v is the squared magnitude |
| SpacePoint.CrossOrthogonal | petrify/space/point.py:232-238 | the cross product is orthogonal to both operands and always a Vector |
| SpacePoint.CrossAntiCommutes | petrify/space/point.py:232-238 | swapping the operands negates the cross product, and v x v is zero |
| SpacePoint.CrossBasis | petrify/space/point.py:300-312 | the basis vectors are right-handed: bx x by == bz, by x bz == bx, bz x bx == by |
| SpacePoint.ReflectProperties | petrify/space/point.py:239-252 | reflecting across a unit normal negates the normal component, keeps the length and the class, and undoes itself |
| SpacePoint.Reflect | petrify/space/point.py:239-252 | a normal whose squared magnitude is not exactly 1 fails the assertion (None); any unit normal reflects |
| SpacePoint.SnapProperties | petrify/space/point.py:286-297 | on a positive grid snapping succeeds and each coordinate moves by at most half a grid step; (1.15, 1.15, 0.9) snaps to (1.25, 1.25, 1.0) on 0.25 |
| SpacePoint.NormalizedIsUnit | petrify/space/point.py:208-217 | normalizing by the true magnitude gives a unit vector |
| SpaceTransform.Apply | petrify/space/transform.py:71-147 | a transformed point stays a point and a transformed vector a vector |
| SpaceTransform.Matrix3.constructor | petrify/space/transform.py:20-24 | a new matrix is the identity |
| SpaceTransform.Matrix3.IMul | petrify/space/transform.py:148-201 | `M *= other` sets M to the product of the old M and the old other (so `M *= M` squares it) and returns M itself |
| SpaceTransform.Matrix3.TransposeInPlace | petrify/space/transform.py:216-225 | `transpose()` replaces the slots by the transpose of the old ones |
| SpaceTransform.Matrix3.Transposed | petrify/space/transform.py:226-232 | `transposed()` is a new matrix holding the transpose, the original unchanged |
| SpaceTransform.Matrix3.SetItem | petrify/space/transform.py:63-70 | an integer key in -16 .. 15 writes that slot; any other key is refused and changes nothing |
| SpaceTransform.QuaternionObject.constructor | petrify/space/transform.py:503-508 | a new quaternion is 1 |
| SpaceTransform.QuaternionObject.IMul | petrify/space/transform.py:574-589 | `q *= other` sets q to the Hamilton product of the old values and returns q itself |
| SpaceTransform.QuaternionObject.SetIdentity | petrify/space/transform.py:604-609 | `identity()` resets the quaternion to 1 in place and returns it |
| SpaceTransform.ColumnMajorRoundTrip | petrify/space/transform.py:57-62 | `new` of a matrix's column-major slots rebuilds it, reading them back gives them again, and item i of the rebuilt matrix is value i |
| SpaceTransform.NewNeedsSixteen | petrify/space/transform.py:233-239 | `new` succeeds exactly on sixteen values |
| SpaceTransform.SetThenGet | petrify/space/transform.py:57-70 | an assigned slot reads back the value, every other slot is unchanged, and keys outside -16 .. 15 are refused |
| SpaceTransform.TransposeInvolution | petrify/space/transform.py:216-232 | transposing twice restores the matrix, and slot key of the transpose is slot 4 (key mod 4) + key / 4 of the original |
| SpaceTransform.IdentityNeutral | petrify/space/transform.py:240-252 | the identity is neutral for multiplication on both sides and fixes every point and vector |
| SpaceTransform.ApplyComposes | petrify/space/transform.py:71-147 | for a right factor with bottom row (0, 0, 0, 1) applying a product is applying the right factor then the left, and products keep that row |
| SpaceTransform.AdjugateProduct | petrify/space/transform.py:392-437 | a matrix times its adjugate is the determinant times the identity |
| SpaceTransform.InverseProperties | petrify/space/transform.py:406-437 | a matrix with determinant below 0.001 in size inverts to the identity; any other matrix times its inverse is the identity |
| SpaceTransform.ScaleApplies | petrify/space/transform.py:253-268 | `scale(x, y, z)` multiplies the coordinates of points and vectors; the doctest takes (1, 1, 1) to (1, 2, 1) |
| SpaceTransform.TranslateApplies | petrify/space/transform.py:269-284 | `translate(x, y, z)` moves points and leaves vectors alone; the doctest takes (1, 1, 1) to (2, 3, 2) |
| SpaceTransform.QuaternionProperties | petrify/space/transform.py:522-573 | 1 is neutral for the product, conjugation undoes itself and reverses products |
| SpaceTransform.ConjugateProduct | petrify/space/transform.py:598-630 | a quaternion times its conjugate is its squared magnitude |
| SpaceUtil.ConnectPointLineProperties | petrify/space/util.py:7-18 | the connection exists exactly for a point; it starts there and ends on the line at a parameter the line admits, and for an unbounded line the residual is orthogonal to the direction |
| SpaceUtil.ConnectPointPlaneLands | petrify/space/util.py:27-31 | with a unit normal the connection starts at the point and ends on the plane |
| SpaceUtil.ConnectPointPlaneFails | petrify/space/util.py:27-31 | the connection fails exactly on a zero magnitude or a start that is not a point |
| SpaceUtil.IntersectLinePlaneProperties | petrify/space/util.py:165-176 | a line meets a plane exactly when it is not parallel to it and the crossing parameter is one the line admits; the point lies on both |
| SpaceUtil.IntersectLinePlaneExample | petrify/space/__init__.py:227-230 | the doctest: Line(origin, (1, 1, 1)) meets the plane z = 2 at (2, 2, 2) |
| SpaceUtil.OrthonormalWeights | petrify/space/util.py:178-192 | for orthogonal unit normals the anchor weights are the planes' offsets |
| SpaceUtil.IntersectPlanesProperties | petrify/space/util.py:178-192 | two planes meet exactly when their normals are not parallel; the anchor satisfies both plane equations and the direction n1 x n2 is orthogonal to both normals |
| SpaceUtil.PmapComponents | petrify/space/util.py:194-195 | `_pmap` builds the given class from f applied to each coordinate list |
| SpaceUtil.PmapSumAppend | petrify/space/util.py:194-195 | `_pmap(Point, sum, points)` grows by each appended point's coordinates |
| SpaceShapes.Through | petrify/space/__init__.py:168-195 | the two-argument constructor needs a point first; it stores that point and a vector direction |
| SpaceShapes.Flipped | petrify/space/__init__.py:314-315 | `flipped` is the segment from the far end back along -v |
| SpaceShapes.Segment3.constructor | petrify/space/__init__.py:168-195 | a new segment holds the given anchor and direction |
| SpaceShapes.Segment3.Swap | petrify/space/__init__.py:293-297 | `_swap` moves the anchor to the old far end, negates the direction and returns the same object |
| SpaceShapes.Link | petrify/space/__init__.py:168-195 | `LineSegment3(a, b)` of two points is the constructor's segment from a to b |
| SpaceShapes.Project | petrify/space/__init__.py:575-583 | each coordinate of the projection is origin + bx * x + by * y |
| SpaceShapes.ProjectPoints | petrify/space/__init__.py:629-630 | projecting a polygon keeps one point per point |
| SpaceShapes.ProjectList | petrify/space/__init__.py:635-637 | each polygon of the list is projected point by point, in order |
| SpaceShapes.ThroughReachesEnd | petrify/space/__init__.py:168-195 | the two-point form ends at its second point, the point-vector form keeps the vector, and the result is well formed |
| SpaceShapes.SegmentEqUndirected | petrify/space/__init__.py:299-306 | segment equality is reflexive and symmetric and ignores direction |
| SpaceShapes.SegmentRefusesOthers | petrify/space/__init__.py:299-331 | comparing a segment with, or asking whether it touches, anything but a segment or a point raises |
| SpaceShapes.FlippedSwapsEnds | petrify/space/__init__.py:314-318 | flipping swaps the endpoints, keeps the segment well formed and undoes itself |
| SpaceShapes.TouchesProperties | petrify/space/__init__.py:320-331 | a point touches exactly when it is an endpoint; a segment touches itself and its flip |
| SpaceShapes.SegmentsJoinNeighbours | petrify/space/__init__.py:112-115 | `segments()` succeeds exactly on a non-empty list of points, one segment per point, segment i from point i to the next, wrapping around |
| SpaceShapes.HasEdgeWitness | petrify/space/__init__.py:132-134 | a segment equal to the edge makes `has_edge` true |
| SpaceShapes.HasOwnEdges | petrify/space/__init__.py:132-134 | every segment of a polygon, in either direction, is an edge of it |
| SpaceShapes.ProjectExamples | petrify/space/__init__.py:529-534 | the doctest: Point2(2, 3) projects to Point(1, 2, 3) and Vector2(-2, -3) to Vector(1, -2, -3) |
| SpaceShapes.TranslatedExample | petrify/space/__init__.py:537-541 | the doctest: the xy basis moved by (0, 0, 2) projects Point2(2, 3) to Point(2, 3, 2) |
| SpaceShapes.ProjectKinds | petrify/space/__init__.py:575-583 | a planar point projects to a point and a planar vector to a vector with the same coordinates |
| SpaceShapes.ProjectSameCoordinates | petrify/space/__init__.py:575-583 | the projected coordinates do not depend on the class of the operand |
| SpaceShapes.BasisAddTranslates | petrify/space/__init__.py:558-570 | adding a vector to a basis moves every projection by it and keeps the axes; a non-vector operand is refused, and a point added to a point origin fails the constructor's point assertion |
| SpaceShapes.ProjectPlanarShape | petrify/space/__init__.py:628-638 | a simple polygon projects to itself as the only exterior and no interior; a complex polygon to its chosen list, point by point |
| SpaceShapes.ProjectPlanarExample | petrify/space/__init__.py:607-614 | the doctest: the triangle (0, 0), (0, 2), (1, 1) on the xy basis |
| Shape.NewRectangle | petrify/shape.py:33-42 | a rectangle stores its origin and size and its extent is origin + size; an operand that cannot be added raises |
| Shape.NewCircle | petrify/shape.py:52-60 | a circle has one point per segment and stores its origin and radius |
| Shape.ArcAngles | petrify/shape.py:98 | the angles exist unless segments is 1 (a division by zero) |
| Shape.Arc | petrify/shape.py:88-100 | `arc` exists unless segments is 1 and has one point per sampled angle |
| Shape.RectangleOrientation | petrify/shape.py:33-42 | four corners from the origin to the extent; clockwise exactly when both offsets of the extent from the origin have the same sign |
| Shape.RectangleSize | petrify/shape.py:33-42 | for a vector size the extent is the origin moved by it, and the rectangle is clockwise exactly when the size's coordinates have the same sign |
| Shape.CircleAroundZero | petrify/shape.py:52-60 | every point of a circle lies at the radius from (0, 0), wherever its origin is |
| Shape.CircleMissesOrigin | petrify/shape.py:52-60 | a circle at (5, 0) with radius 1 has a point 4 away from its origin |
| Shape.NewCircleCorrected | petrify/shape.py:52-60 | the corrected circle has one point per segment and stores its origin and radius |
| Shape.CircleCorrectedAroundOrigin | petrify/shape.py:52-60 | every corrected point lies at the radius from the origin, and at origin (0, 0) the points are the source's |
| Shape.ArcOnCircle | petrify/shape.py:88-100 | every point of an arc lies at the radius from its center |
| Shape.ArcEndsAtEnd | petrify/shape.py:98 | an arc ends on its end angle |
| Shape.ArcEvenlySpaced | petrify/shape.py:98 | with at least two segments and distinct ends, an arc samples exactly `segments` evenly spaced angles from start to end |
| Shape.ArcExample | petrify/shape.py:93-95 | the doctest: a half circle of radius 5 about (5, 0) in three samples |
| SpaceShapes.HashDisagreesAsWritten | petrify/space/__init__.py:278-279 | as written, a segment and its flip are equal but hash differently |
| SpaceShapes.UndirectedHashConsistent | petrify/space/__init__.py:278-306 | corrected, the hash ignores direction, so equal segments hash alike |
| Stl.Stream.ReadLine | petrify/stl.py:98 | `readline(limit)` returns the bytes up to and including the next newline, at most limit of them, and moves past them |
| Stl.Stream.Read | petrify/stl.py:147 | `read(n)` returns the next n bytes, fewer at the end of the file, and moves past them |
| Stl.ParseAll | petrify/stl.py:111 | the numbers exist exactly when every word parses, one number per word in order |
| Stl.ReadAsciiLine | petrify/stl.py:91-111 | reading one line of at most 1024 bytes and checking its keywords gives the reference outcome and position |
| Stl.Pass | petrify/stl.py:122-131 | a pass never moves backwards, and every line it reads before the end of the file moves it forwards |
| Stl.NextFacet | petrify/stl.py:114-139 | a found facet lies strictly after the position the search started from |
| Stl.ReadAsciiFacet | petrify/stl.py:114-139 | the retry loop gives the reference result of `_read_ascii_facet` |
| Stl.ReadFacetLines | petrify/stl.py:123-129 | the seven reads of one pass give the reference pass |
| Stl.ReadPolysFromStlFile | petrify/stl.py:155-182 | reading a file gives the reference result: ASCII facets, binary records, or the crash |
| Stl.ReadAsciiPolygons | petrify/stl.py:168-172 | the ASCII loop appends, in order, every facet the reference reader finds |
| Stl.ReadBinaryPolygons | petrify/stl.py:175-181 | the binary loop reads count records of 50 bytes in order, or fails when the file ends inside one |
| Stl.LineStepEndOfFile | petrify/stl.py:98-103 | a line ends the file exactly when it is empty or its first word, in any case, is "endsolid" |
| Stl.LineStepBlank | petrify/stl.py:98-103 | a nonempty line of whitespace raises on `words[0]` |
| Stl.LineStepValues | petrify/stl.py:98-111 | a line gives numbers exactly when it starts with the watch words in any case, is not "endsolid", and its other words parse; they are those words in order |
| Stl.LineStepMalformed | petrify/stl.py:106-110 | a line whose words differ from the watch words at a shared place is malformed |
| Stl.NextFacetFound | petrify/stl.py:114-139 | every facet returned has three different vertices and comes from a complete seven-line pass at or after the start |
| Stl.NextFacetSkips | petrify/stl.py:130-135 | a malformed line or a zero-area facet is skipped and reading goes on after the pass |
| Stl.NextFacetAtEnd | petrify/stl.py:132-133 | at the end of the file, or at an "endsolid" line, there is no facet |
| Stl.AsciiFacetsNondegenerate | petrify/stl.py:130-131 | every triangle read from an ASCII file has three different vertices |
| Stl.BinaryFacetsShape | petrify/stl.py:142-152 | a binary file of count records gives count triangles of three numbers per vertex |
| Stl.SolidPrefixIsAscii | petrify/stl.py:162-166 | a file starting with "solid " in any case is read as ASCII |
| Stl.EmptyFileCrashesAsWritten | petrify/stl.py:162-176 | as written, an empty file raises instead of returning None |
| Stl.ReadStlCorrectedAgrees | petrify/stl.py:162-176 | corrected, only the empty file returns None and every other file reads as before |
| StlText.LowerKeeps | petrify/stl.py:166 | text without capitals is its own lower-casing |
| StlText.Words | petrify/stl.py:104 | `split()` gives the maximal runs of non-whitespace, in order |
| StlText.WordsJoin | petrify/stl.py:41-44 | splitting words joined by single spaces gives back the words: `split` undoes `join` |
| StlText.LineEnd | petrify/stl.py:98 | `readline(limit)` stops just after the first newline, after limit bytes, or at the end of the data |
| StlText.Digits | petrify/stl.py:19 | the digits `%d` prints, with no leading zero |
| StlText.DigitsRoundTrip | petrify/stl.py:19 | reading back the digits of n gives n |
| StlText.RStrip | petrify/stl.py:19 | `rstrip(c)` is the longest prefix whose remainder is all c and that does not itself end in c |
| StlText.RStripUnique | petrify/stl.py:19 | those properties single out the result of `rstrip` |
| StlText.FloatFmtShape | petrify/stl.py:15-20 | `_float_fmt` writes a minus only for a nonzero value, the whole part in full, and the decimals without trailing zeros |
| StlText.FloatFmtRoundTrip | petrify/stl.py:15-20 | `_float_fmt` loses nothing: the text reads back as the same number of millionths, with the minus kept exactly when the value is not zero |
| StlText.FloatFmtCharacters | petrify/stl.py:15-20 | the text holds only digits, '-' and '.' |
| StlText.FloatFmtExampleHalf | petrify/stl.py:15-20 | 1.5 prints as "1.5" |
| StlText.FloatFmtExampleTen | petrify/stl.py:15-20 | 10 prints as "10" |
| StlText.FloatFmtExampleNegativeZero | petrify/stl.py:20 | a negative value that rounds to zero prints as "0" |
| StlText.FloatFmtExampleQuarter | petrify/stl.py:15-20 | -0.25 prints as "-0.25" |
| StlWrite.FanShape | petrify/stl.py:67-76 | a polygon of n vertices gives n - 2 triangles (v0, vk, vk+1) |
| StlWrite.FanCorners | petrify/stl.py:67-76 | every fan corner is a vertex of the polygon and the first vertex is in every triangle |
| StlWrite.Triangulate | petrify/stl.py:66-76 | the first loop builds the fans of all polygons, in order |
| StlWrite.AppendFan | petrify/stl.py:68-76 | the inner loop appends the fan of one polygon, the remainders never wrapping |
| StlWrite.WriteAll | petrify/stl.py:81-87 | the facet loop appends every triangle's text or record, in order |
| StlWrite.LeftJustify | petrify/stl.py:79 | `%-80s` pads on the right with spaces to the width and never cuts |
| StlWrite.Le32 | petrify/stl.py:80 | `struct.pack('<I', n)` is four bytes, least significant first, and fails when n does not fit |
| StlWrite.Record | petrify/stl.py:30-39 | a binary record is 50 bytes: twelve single floats and a zero attribute count |
| StlWrite.SavePolysToStlFile | petrify/stl.py:58-88 | the file holds the header and count, or "solid Model", then one facet per fan triangle, then "endsolid Model" in ASCII |
| StlWrite.StlWriteFile | petrify/formats/stl.py:40-58 | `STL.write` refuses a solid without a length unit and otherwise writes the binary file of its polygons |
| StlWrite.BinaryFileSize | petrify/stl.py:78-82 | a binary file is 84 + 50 n bytes for n triangles |
| StlWrite.Le32RoundTrip | petrify/stl.py:80 | the packed count unpacks to the count |
| StlWrite.HeaderShape | petrify/stl.py:79 | the header is the title padded with spaces to 80 bytes, with no newline |
| StlRoundTrip.RecordDecodes | petrify/stl.py:30-39 | a record reads back as its vertices; the normal is skipped |
| StlRoundTrip.BinaryRoundTrip | petrify/stl.py:78-82 | a binary file reads back to its triangles in order, each number packed and unpacked |
| StlRoundTrip.WordLineValues | petrify/stl.py:41-55 | a written line read with its own keywords gives back its numbers |
| StlRoundTrip.FacetReads | petrify/stl.py:40-55 | one written facet, read by one pass, gives the corners as printed and reading goes on right after it |
| StlRoundTrip.EndRead | petrify/stl.py:88 | after the last facet the reader meets "endsolid Model" and stops |
| StlRoundTrip.FacetTextsRead | petrify/stl.py:86-88 | the facets written as text and the closing line read back as the triangles whose printed corners differ |
| StlRoundTrip.AsciiRoundTrip | petrify/stl.py:84-88 | saving as ASCII and reading back gives the triangles as printed with six decimals, minus those printing made degenerate, in order |
| StlRoundTrip.SaveThenRead | petrify/stl.py:58-88 | save then read: binary gives back every fan triangle packed and unpacked, ASCII every fan triangle as printed that stays nondegenerate |
| Svg.FirstLine | petrify/formats/svg.py:22 | `.` stops at the first newline: the result is a newline-free prefix followed by a newline or the end |
| Svg.LastIndex | petrify/formats/svg.py:22 | the greedy `(.*)\(` ends at the last '(' of the line, or there is none |
| Svg.SplitComma | petrify/formats/svg.py:27 | `split(',')` always gives at least one piece |
| Svg.Floats | petrify/formats/svg.py:27 | every piece converts, one number per piece in order, or some piece is refused |
| Svg.NewPath | petrify/formats/svg.py:54-60 | `Path.__init__` holds the flip scale(1, -1) times each transform in turn |
| Svg.Times | petrify/formats/svg.py:62-64 | `path * f` is a new path with the uniform scale by f in front of the transforms |
| Svg.Samples | petrify/formats/svg.py:101-105 | a curve contributes int(length / min_length) - 1 samples, never fewer than none |
| Svg.ScanCommand | petrify/formats/svg.py:97-109 | one pass of the loop extends the lists as the reference step does |
| Svg.Polygons | petrify/formats/svg.py:73-114 | `polygons` raises exactly when a curve meets a zero min_length, and otherwise gives the simplified point lists that survive |
| Svg.Present | petrify/formats/svg.py:153 | the non-None group transforms, never more than the stack holds |
| Svg.Transforms | petrify/formats/svg.py:153-156 | one matrix per transform text, or an error |
| Svg.ParseTransforms | petrify/formats/svg.py:155 | the loop gives the reference list of parsed transforms |
| Svg.AppendTransform | petrify/formats/svg.py:155 | one pass appends the matrix of text n |
| Svg.Handler.constructor | petrify/formats/svg.py:141-144 | a new handler has an empty stack and no paths |
| Svg.Handler.StartElement | petrify/formats/svg.py:146-158 | a `g` pushes its transform or None; a `path` stores its entry under its id exactly when that entry can be built; other tags change nothing |
| Svg.Handler.EndElement | petrify/formats/svg.py:160-162 | a closing `g` pops and fails on an empty stack; the paths are unchanged |
| Svg.GroupsOf | petrify/formats/svg.py:22-26 | a name and bracketed parameters on one line match as those two groups |
| Svg.GroupsMatch | petrify/formats/svg.py:22-26 | the match succeeds exactly when the first line has a '(' before a ')' |
| Svg.GroupsShape | petrify/formats/svg.py:22-26 | on a match, the name and the bracketed parameters open the first line |
| Svg.SplitCommaProperties | petrify/formats/svg.py:27 | `split(',')` and `','.join` undo each other, the pieces hold no comma, and there is one more piece than commas |
| Svg.JoinThenSplit | petrify/formats/svg.py:27 | comma-free pieces survive joining and splitting |
| Svg.ParsedAffine | petrify/formats/svg.py:23-43 | every parsed matrix keeps the bottom row (0, 0, 1) |
| Svg.MatrixAttribute | petrify/formats/svg.py:28-33 | `matrix(a, b, c, d, e, f)` maps a point (x, y) to (a x + c y + e, b x + d y + f) and drops e and f for a vector, as section 7.4 of SVG 1.1 lays out |
| Svg.NoCommaRaises | petrify/formats/svg.py:27-37 | values separated by spaces are one value, so `matrix`, `translate` and `scale` without commas raise |
| Svg.SpaceSeparatedTranslateRaises | petrify/formats/svg.py:27-35 | `translate(10 20)` raises |
| Svg.TranslateAttribute | petrify/formats/svg.py:34-35 | two values make `translate` the translation by them |
| Svg.ScaleAttribute | petrify/formats/svg.py:36-37 | two values make `scale` the scaling by them |
| Svg.UnknownNameNone | petrify/formats/svg.py:28-43 | any other name gives None once its values parse |
| Svg.RotateApplies | petrify/formats/svg.py:39-40 | `rotate(a)` turns counter-clockwise about the origin |
| Svg.RotateAboutRaisesAsWritten | petrify/formats/svg.py:41-43 | as written, three-value `rotate` raises; the corrected parser turns about (x, y) |
| Svg.CorrectedAgreesElsewhere | petrify/formats/svg.py:23-43 | the corrected parser differs from the written one only on three-value `rotate` |
| Svg.RotateAboutCentre | petrify/formats/svg.py:41-43 | the corrected three-value rotate turns every point about (x, y) and keeps (x, y) fixed |
| Svg.SourceOrderTurnsAboutNegated | petrify/formats/svg.py:43 | the source's product, read with its second factor as a translation, keeps (-x, -y) fixed instead of (x, y) |
| Svg.ComposeApplies | petrify/formats/svg.py:58-60 | the composed transform applies the list right to left: the first transform acts last |
| Svg.PathApplies | petrify/formats/svg.py:70-71 | `path.t(w)` applies the transforms, innermost first, and then flips the y axis |
| Svg.TimesApplies | petrify/formats/svg.py:62-64 | `path * f` scales by f just before the flip |
| Svg.StepShape | petrify/formats/svg.py:97-109 | a line or curve appends its points; any other command closes a non-empty current list and starts a new one |
| Svg.PointListsProperties | petrify/formats/svg.py:94-111 | no list is empty, together the lists hold every emitted point in order, and each non-line command starts a list |
| Svg.PresentMembers | petrify/formats/svg.py:153 | a text is present exactly when the stack holds it |
| Svg.PathEntryProperties | petrify/formats/svg.py:152-158 | a stored path has its id, its `d` text, one matrix per group transform and its own, and maps points by the group transforms outermost last and then flips |
| Svg.RotatedPathRefused | petrify/formats/svg.py:152-158 | a path whose own transform is a three-value `rotate` is never stored |
| Svg.TransformsSnoc | petrify/formats/svg.py:155 | the last text's matrix follows those of the texts before it |
| Svg.StackDepth | petrify/formats/svg.py:146-162 | the stack is as deep as the groups left open, and a run of events fails exactly when some prefix closes more groups than were open |
| Commands.Translate | petrify/machine/commands.py:7-10 | adding a planar vector (or point) leaves the command unchanged; any other operand is NotImplemented (None), and only then |
| Commands.IntTextRoundTrip | petrify/machine/commands.py:20 | the decimal text written for an integer reads back as that integer |
| Commands.ToolChangeNumber | petrify/machine/commands.py:19-20 | a tool change line is "M6 T" followed by text that reads back as the tool number |
| Commands.PauseMessage | petrify/machine/commands.py:26-27 | a pause line is "M0 " followed by the message verbatim |
| Commands.ToolPauseNumber | petrify/machine/commands.py:29-31 | a tool pause carries "Tool to " and the tool number, behind "M0 " |
| Conversions.InToMm | petrify/conversions.py:12-13 | a vector of 25.4 on every axis |
| Conversions.MmToIn | petrify/conversions.py:14 | a vector whose every axis times 25.4 is 1 |
| Conversions.Rounded | petrify/space/point.py:218-223 | rounding keeps the point/vector class |
| Conversions.Round | petrify/space/point.py:223 | `round(v, place)` lies within half a step 10^-place of v |
| Conversions.RoundByWithinHalfStep | petrify/space/point.py:223 | rounding by a positive factor s lands on a whole multiple of 1 / s, at most half of 1 / s from v |
| Conversions.ScaleAdds | petrify/space/point.py:218-223 | the rounding factor is a power of ten: 10^(a + b) = 10^a 10^b |
| Conversions.Inverse | petrify/conversions.py:12-14 | scaling by in_to_mm and then mm_to_in is the identity on every axis |
| Conversions.RoundedExample | petrify/conversions.py:6-7 | the doctest: mm_to_in rounded to 4 places is (0.0394, 0.0394, 0.0394) |
| Generic.Vector | petrify/generic.py:14-22 | two arguments give a planar vector, three a spatial one, anything else NotImplemented |
| Generic.Point | petrify/generic.py:37-45 | two arguments give a planar point, three a spatial one, anything else NotImplemented |
| Generic.Create | petrify/generic.py:52-59 | the planar class for the plane, the spatial class for space, NotImplemented otherwise |
| Generic.EmbeddingFromUnique | petrify/generic.py:47-50 | succeeds exactly when the arguments are nonempty and share one embedding, and returns that embedding |
| Generic.MixedRefused | petrify/generic.py:47-50 | mixing planar and spatial arguments fails every generic constructor (also lines 78-147) |
| Generic.UniformDispatch | petrify/generic.py:78-147 | uniform planar arguments reach the planar class, spatial ones the spatial class, unchanged |
| Generic.EmptyRefused | petrify/generic.py:47-50 | no arguments fail the embedding assertion in every constructor |
| Engrave.NewEngrave | petrify/machine/engrave.py:4-7 | construction succeeds exactly for a positive depth, storing polygon and depth |
| Engrave.Scale | petrify/machine/engrave.py:9-12 | a scalar scales polygon and depth (refused when the new depth is not positive); any other operand is NotImplemented |
| Engrave.ScaleComposes | petrify/machine/engrave.py:9-12 | scaling by s then t equals scaling by s t, for positive factors |
| Pocket.NewPocket | petrify/machine/pocket.py:4-14 | construction succeeds exactly for a positive depth; a complex polygon's interior/exterior are copied, a plain one is the sole exterior |
| Pocket.PocketBoundaries | petrify/machine/pocket.py:7-12 | a polygon is among interior or exterior exactly when it belongs to the outline |
| Tool.MachineForgetsClearance | petrify/machine/tool.py:15-17 | machines built with different clearances are equal |
| Part.NewPart | petrify/machine/part.py:2-6 | construction succeeds exactly for a positive depth, storing the fields |
| Part.NewTab | petrify/machine/part.py:9-16 | built with the constructor as written: a tab exists exactly when the direction has the vector class (a zero direction included); both tab lines keep the line's class and direction, and for a zero direction both run through the line's point |
| Part.Intersect | petrify/machine/part.py:18-21 | the crossing with the first tab line, else with the second, else None |
| Part.Somes | petrify/machine/part.py:20 | drops exactly the Nones, keeping the first value first |
| Part.TabSymmetric | petrify/machine/part.py:13-16 | the two anchors sit symmetrically about the line's point, offset at right angles to the direction |
| Part.TabApart | petrify/machine/part.py:13-16 | the two tab lines are 2 width apart |
| Part.TabAnchors | petrify/machine/part.py:13-16 | the anchors are p + m width and p + m (-width) |
| Part.UnitNormal | petrify/machine/part.py:13 | the normalized perpendicular has unit length and is orthogonal to the direction |
| Frange.FrangeValues | petrify/machine/util.py:3-9 | the generator yields exactly Frange(a, b, step, inclusive); a zero step with a != b is the ZeroDivisionError |
| Frange.CountedValues | petrify/machine/util.py:4-7 | the loop yields a + ix step for each index below the count, skipping b |
| Frange.CountedMembers | petrify/machine/util.py:5-7 | a value is yielded iff it is a + ix step for some index below the count and differs from b |
| Frange.EndValue | petrify/machine/util.py:7-9 | b is never yielded by the loop; inclusive appends it once at the end |
| Frange.EmptyRange | petrify/machine/util.py:4-9 | frange(a, a) is [a] when inclusive and empty otherwise |
| Frange.Bounds | petrify/machine/util.py:4-7 | with a positive step the values lie in [a, b), with a negative one in (b, a] |
| Frange.DescendingExample | tests/machine/test_util.py:8-12 | frange(-1, -5, -1, inclusive) is -1, -2, -3, -4, -5 |
| Feed.PlanarToolpath.constructor | petrify/machine/feed.py:20-21 | a new toolpath holds exactly its start point |
| Feed.PlanarToolpath.MoveTo | petrify/machine/feed.py:23-24 | move_to appends exactly one point |
| Feed.PlanarToolpath.Segments | petrify/machine/feed.py:26-27 | one segment per consecutive pair of path points, in order |
| Feed.PlanarToolpath.Current | petrify/machine/feed.py:29-31 | the current point is the last one; an empty path is the IndexError |
| Feed.PairsSnoc | petrify/machine/feed.py:23-27 | move_to adds exactly one segment, from the old current point to the new one |
| Feed.FollowLine | petrify/machine/feed.py:38-56 | one later scanline appends exactly the moves LineMoves prescribes from the current point |
| Feed.NewScanlineToolpath | petrify/machine/feed.py:35-56 | an empty scanline list is the IndexError; otherwise the path is ScanPath(scanlines) |
| Feed.ScanPathAxisAligned | petrify/machine/feed.py:38-56 | over horizontal scanlines every step of the path changes x or y, never both |
| Feed.LineMovesReach | petrify/machine/feed.py:41-53 | one scanline's moves visit both its endpoints and end on one of them |
| Feed.ScanPathCovers | petrify/machine/feed.py:35-56 | the path visits both endpoints of every scanline and ends on an endpoint of the last |
| Feed.FirstMatch | petrify/machine/feed.py:70-77 | the index of the first open shape whose last interval holds an endpoint of the line, or None when no shape does |
| Feed.FindMatch | petrify/machine/feed.py:70-77 | the inner loop returns FirstMatch |
| Feed.BatchLevel | petrify/machine/feed.py:67-82 | the middle loop places one level's lines as PlaceLines does |
| Feed.BatchScanlinesLoop | petrify/machine/feed.py:58-87 | the nested loops compute BatchScanlines(levels) |
| Feed.PlaceLineConserves | petrify/machine/feed.py:68-82 | placing a line adds exactly that line to the held shapes |
| Feed.BatchConserves | petrify/machine/feed.py:58-87 | the output holds every input scanline exactly once (as multisets) |
| Feed.BatchChained | petrify/machine/feed.py:70-82 | every output shape is a nonempty chain, each line overlapping the previous in x |
| Feed.ClosedShapesKept | petrify/machine/feed.py:84-85 | shapes closed after k levels stay closed, unchanged and first |
| Feed.BatchRising | petrify/machine/feed.py:66-87 | with levels at strictly rising y, every shape takes at most one line per level, in level order |
| Feed.BoundingLinesMembers | petrify/machine/feed.py:89-93 | a segment is kept exactly when it belongs to one of the polygons and is not horizontal |
| Feed.NewLinearStepFeed | petrify/machine/feed.py:102-105 | construction succeeds exactly for 0 < stepover <= 1, storing the fields |
| Motion.Merge | petrify/machine/motion.py:83-89 | each field is other's when truthy, else self's |
| Motion.MergeDropsZeroAsWritten | petrify/machine/motion.py:83-89 | Motion(z=5).merge(Motion(z=0)) keeps z = 5 where the corrected merge gives 0 |
| Motion.MergeCorrectedFields | petrify/machine/motion.py:83-89 | corrected: a field comes from other exactly when other gives it |
| Motion.MergeCorrectedMonoid | petrify/machine/motion.py:83-89 | the corrected merge is associative with the empty motion as identity |
| Motion.MergeAgreesWithoutZeros | petrify/machine/motion.py:83-89 | the two merges agree when other gives no zero |
| Motion.Shift | petrify/machine/motion.py:67-75 | x and y move by v where set, except a coordinate moved onto zero keeps its old value; z and f stay |
| Motion.Add | petrify/machine/motion.py:67-69 | a motion plus anything but a planar vector is NotImplemented |
| Motion.ShiftCorrected | petrify/machine/motion.py:67-75 | corrected: x and y move by v wherever set; z and f stay |
| Motion.ShiftDropsZeroAsWritten | petrify/machine/motion.py:70-75 | Motion(x=1) + (-1, 0) stays at x = 1 as written, 0 when corrected |
| Motion.ShiftCorrectedInverse | petrify/machine/motion.py:67-75 | corrected translation by v and then -v gives the motion back |
| Motion.ShiftCorrectedCompose | petrify/machine/motion.py:67-75 | corrected translation by u then v is translation by u + v |
| Motion.ShiftInverse | petrify/machine/motion.py:67-75 | as written, translating by v and back by -v restores the motion when no coordinate is zero on the way |
| Motion.Gcode | petrify/machine/motion.py:91-98 | a line exists exactly when the feed is set |
| Motion.GcodeWordsShape | petrify/machine/motion.py:91-98 | "G01" first, the feed word last, and an X/Y/Z word exactly when that coordinate is truthy |
| Motion.GcodeSplits | petrify/machine/motion.py:98 | splitting the line on whitespace gives back the words |
| Motion.PassMoves | petrify/machine/motion.py:186-192 | one pass emits len(path) + 3 motions |
| Motion.PassShape | petrify/machine/motion.py:186-192 | clearance, over to the start, plunge to the step, along the path, retract; every motion has a feed |
| Motion.CutStepsCount | petrify/machine/motion.py:184-192 | CutSteps emits len(path) + 3 motions per pass per step |
| Motion.Label | petrify/machine/motion.py:187-192 | every command is paired with the same parent |
| Motion.Relabel | petrify/machine/motion.py:169-170 | the inner commands, in order, each under the new parent |
| Motion.AnnotatedRelabels | petrify/machine/motion.py:163-170 | an annotated phase has its inner commands unchanged, each under the annotated phase |
| Motion.ShiftAll | petrify/machine/motion.py:216-219 | each command translated, parents kept, in order |
| Motion.AddToBatch | petrify/machine/motion.py:198-201 | batch + v is a moved batch of the same phases for a planar vector, else NotImplemented |
| Motion.CommandsAllConcat | petrify/machine/motion.py:206-209 | a batch's commands are each phase's commands in turn |
| Motion.ThenAppends | petrify/machine/motion.py:203-209 | then runs the batch's phases and then the new one |
| Motion.ThenDropsTranslation | petrify/machine/motion.py:203-219 | then on a moved batch builds a plain batch, so the translation is dropped |
| Motion.MovedTranslates | petrify/machine/motion.py:216-219 | a moved batch translates every motion by v and keeps literal G-code lines and parents |
| Motion.ShiftAllInverse | petrify/machine/motion.py:216-219 | moving by v and then -v gives the commands back when no coordinate is zero on the way |
| Motion.Time | petrify/machine/motion.py:112-124 | the loop returns the time Run computes, and fails exactly where Run does (a zero feed rate) |
| Motion.AdvanceMerges | petrify/machine/motion.py:117-118 | the state update is the merge as written |
| Motion.TimeKeepsNonzeroAsWritten | petrify/machine/motion.py:112-124 | a move to x = 5 then x = 0 at feed 1 takes 5 time units, where a corrected merge would give 10 |
| Motion.RunStops | petrify/machine/motion.py:119-122 | once a zero feed rate has failed the run, it stays failed |
| Motion.TimeNonnegative | petrify/machine/motion.py:112-124 | with positive feeds and a nonnegative square root the time and the feed rate are nonnegative |
| Motion.MotionsOnly | petrify/machine/motion.py:115-116 | only motion commands remain |
| Motion.TimeIgnoresCodes | petrify/machine/motion.py:115-116 | literal G-code lines take no time |
| Motion.CmdLine | petrify/machine/motion.py:91-98 | a literal G-code line is written verbatim; only a motion without a feed rate has no line |
| Motion.WriteGcode | petrify/machine/motion.py:107-110 | the write loop produces exactly CutText: each command's line and a newline, in command order, stopping at a motion without a feed |
| Motion.CutTextFails | petrify/machine/motion.py:91-110 | writing a cut fails exactly when one of its motions has no feed rate |
| Motion.CutTextConcat | petrify/machine/motion.py:107-110 | the text of two command lists in turn is the first text followed by the second |
| Motion.OneLine | petrify/machine/motion.py:107-110 | one command writes its own line followed by a newline |

## Left out

- Square roots, `math.sin`/`math.cos`, `acos` and `atan2` have no definition here; where the source needs one it is a parameter. So `magnitude`/`normalized` take the magnitude as an argument, and `Polygon2.is_convex`, `angle`, the `Matrix2`/`Matrix3` rotations, quaternion rotations, Euler angles, slerp and `Quaternion.normalize` are not modelled.
- Floating point is exact real arithmetic. Rounding error, `inf` and `nan` do not exist in the model, so `_float_fmt` of an infinite or NaN value is not covered; `struct` float packing and `'{0}'.format` of a float are parameters.
- `Polygon3.__init__` derives its `Plane` from the first three points through a normalized cross product (a square root); the normal and offset it computes are not modelled, and where the plane's normal is needed (`Edge.PolygonInset`) it is a parameter. Whether `Plane(...)` raises is modelled (`SpaceShapes.PlaneAccepts`) for the faces an extrusion builds; see the next line for projections.
- SpaceShapes.ProjectList: like `ProjectPlanar`, it builds a `Polygon3` from every projected polygon without the plane check, so a projected polygon of fewer than three points is built where `Polygon3.__init__` raises.
- Circle–line and circle–circle intersection, cylinders, spheres, `look_at` and perspective matrices need square roots or trigonometry and are not modelled.
- `AbstractPolygon.simplify`, `inverted`, `index_of` and `centered` are not part of this model: `AbstractPolygon` is imported from petrify/geometry.py, which does not define it; `simplify` is a parameter wherever it is called (`ComplexPolygon2`, SVG `polygons`).
- `decompose.rebuild`, called at petrify/machine/slice.py:32, is not defined in petrify/decompose.py; slicing via CSG is not part of this model.
- pycsg, pymesh and pyclipper booleans, geomdl (`bezier`), svg.path's parsing of the `d` attribute and its curve sampling, pint units and numpy are foreign libraries: svg.path's commands come in as values and their sampling as a parameter.
- Svg.Handler.StartElement: stores a path with the transforms of its groups and its own, but not the pint unit factor `units.u.file * self.scale` the source multiplies it by (the units library is not modelled).
- Stl.ReadStl: reads vertices as positions; the conversion into pycsg `Vertex`/`Polygon` objects, and their plane normal, are not modelled (the normal written to a facet is a parameter of the writer).
- File opening, reading and writing, the xml.sax parser set-up and the engine selection through module globals are I/O and plumbing: files are byte strings and text values.
- petrify/visualize.py and every `mesh`/`render`/`visualize` method are rendering and are not modelled.
- petrify/space.py, petrify.py, petrify/geometry.py, petrify/euclid.py and petrify/three.py are shadowed, standalone or broken duplicates and are not part of this model; only the `offset` part of petrify/plane.py is modelled, the rest duplicates petrify/plane/__init__.py.
- PlaneLine.Along: like `Through`, `Translate`, `Scale` and `Negate`, it is built on the corrected `Construct`, so a line whose direction is the zero vector is refused (None) where the source builds it (see Findings); `PlaneLine.ConstructAsWritten` is the source's behaviour, and `PlaneUtil.ConnectLines` and `Part.NewTab` use it.
- Motion.PassMoves: a pass's path is never empty (`Pass` holds its first point apart), so the IndexError `CutSteps` raises on an empty path, after yielding the clearance move, is not modelled.
- PlanePoint.ReflectedProperties: the 2-D `reflected` assumes a unit normal without checking it; the properties are stated for a unit normal only.
- The complex-polygon offset doctest (petrify/plane/__init__.py:711-728, repeated at petrify/plane.py:1331-1348) runs the unit-square offset on the squares moved by (1, 1) and scaled by 3 through `engines.offset`, which petrify/engines/__init__.py does not define. The interior/exterior composition is proved in general (`PyOffset`), and the edge offset is traced on the unit square (`OffsetExamples`), but these two literal squares are not traced.
- The `part`, `scanlines` and `pocket_removal` methods of `LinearStepFeed` (petrify/machine/feed.py:107-152) slice solids through the CSG engine and are not modelled; `LinearStepFeed.__init__`, `bounding_lines`, `ScanlineToolpath` and `batch_scanlines` are.
- `Chamfer` is modelled up to its face-count assertion and face selection; `rotate_around` and the chamfer geometry that follows need trigonometry.
- Engrave.Scale: the polygon's own multiplication by a scalar is a parameter (`scale`), since an engraving may hold any polygon class; `valid_scalar` is read as "a number" because `valid_scalar` is not defined in petrify/geometry.py.

## Findings

| source | as written | input that shows it | evidently intended | confidence | as-written member | corrected member |
|---|---|---|---|---|---|---|
| petrify/plane/line.py:49-50 | the zero-direction guard tests `not self.v`, but under Python 3 a vector is always truthy (`__len__` is 2, `__nonzero__` is ignored), so it never fires | `Line(Point(0, 0), Point(0, 0))` builds a line with direction (0, 0) | a zero direction raises | high (not executed) | PlaneLine.GuardNeverFiresAsWritten | PlaneLine.ThroughRefusesCoincident |
| petrify/solid.py:37-44 | for an axis with z ≠ 0 and x, y not both 0, `perpendicular` returns (y, x, -2xy), whose dot product with the axis is 2xy(1 - z) | axis (1, 1, 2) gives (1, 1, -2), dot product -2 | a vector orthogonal to every axis, as tests/test_solid.py checks on the 0/1 axes | high (not executed) | Solid.PerpendicularFailsAsWritten | Solid.PerpendicularCorrectedOrthogonal |
| petrify/formats/svg.py:41-43 | `rotate(a, x, y)` calls `Matrix.rotate(x, y)`, which takes one argument | `transform="rotate(30,1,1)"` raises TypeError | translate(x, y) rotate(a) translate(-x, -y), rotation about (x, y) as SVG 1.1 section 7.6 defines it | high (not executed) | Svg.RotateAboutRaisesAsWritten | Svg.RotateAboutCentre |
| petrify/machine/motion.py:83-89 | `merge` takes each field with `other.x or self.x`, so a zero never overrides | `Move(x=5)` merged with `Move(x=0)` keeps x = 5 | take every field `other` sets, zeros included | medium (not executed) | Motion.MergeDropsZeroAsWritten | Motion.MergeCorrectedFields |
| petrify/solid.py:268-279 | `PolygonExtrusion` stores `height` but places its top slice at dz = 1 | a height of 5 gives a top face at z = 1 | the top face at z = height | medium (not executed) | Solid.PolygonExtrusionTopAsWritten | Solid.PolygonExtrusionTopCorrected |
| petrify/stl.py:162-176 | the empty-file check compares the bytes line with the str `""`, which is never equal, so an empty file goes to the binary reader and fails unpacking the count | an empty file | an empty file reads as no polygons | medium (not executed) | Stl.EmptyFileCrashesAsWritten | Stl.ReadStlCorrectedAgrees |
| petrify/space/__init__.py:278-306 | `LineSegment3.__eq__` is undirected but `__hash__` hashes (p, v), which is directed | a segment and its flip are equal with different hashes | equal segments hash alike | medium (not executed) | SpaceShapes.HashDisagreesAsWritten | SpaceShapes.UndirectedHashConsistent |
| petrify/shape.py:52-60 | `Circle` stores `origin` but places its points around (0, 0) | `Circle(Point(5, 0), 1, 1)` has its only point at (1, 0), 4 away from its origin | points at distance r from the origin | medium (not executed) | Shape.CircleMissesOrigin | Shape.CircleCorrectedAroundOrigin |
