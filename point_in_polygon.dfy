/**
 * Polygon construction and the point-in-polygon test of TestPointIn.py,
 * and the containment predicate shared by every polygon of the system.
 *
 * Points that come from the user or from a table are (latitude, longitude);
 * polygon vertices and tested points are (x, y) = (longitude, latitude).
 * `Contains` is the strict-interior test of a simple polygon: a point on an
 * edge or a vertex is not contained.
 */
module PointInPolygon {
  import opened Wrappers

  /** A geographic point as the tables and the clicks give it. */
  datatype LatLon = LatLon(lat: real, lon: real)

  /** A plane point: x is the longitude, y the latitude. */
  datatype XY = XY(x: real, y: real)

  /** Twice the signed area of the triangle (a, b, p); positive when p is left of a->b. */
  function Cross(a: XY, b: XY, p: XY): real
  {
    (b.x - a.x) * (p.y - a.y) - (b.y - a.y) * (p.x - a.x)
  }

  /** p lies on the closed segment [a, b]. */
  predicate OnSegment(a: XY, b: XY, p: XY)
  {
    && Cross(a, b, p) == 0.0
    && (if a.x <= b.x then a.x <= p.x <= b.x else b.x <= p.x <= a.x)
    && (if a.y <= b.y then a.y <= p.y <= b.y else b.y <= p.y <= a.y)
  }

  /** The rightward horizontal ray from p crosses the edge a->b (half-open rule on y). */
  predicate RayCrosses(a: XY, b: XY, p: XY)
  {
    (a.y > p.y) != (b.y > p.y) && p.x < a.x + (p.y - a.y) * (b.x - a.x) / (b.y - a.y)
  }

  /** The closed ring of a vertex list: the first vertex repeated at the end, as a polygon closes its exterior. */
  function Closed(poly: seq<XY>): (ring: seq<XY>)
    ensures |poly| > 0 ==> |ring| == |poly| + 1 && ring[..|poly|] == poly && ring[|poly|] == poly[0]
  {
    if |poly| == 0 then [] else poly + [poly[0]]
  }

  /** p lies on one of the ring's edges (ring[j], ring[j + 1]) with j >= i. */
  predicate OnBoundaryFrom(ring: seq<XY>, p: XY, i: nat)
    decreases |ring| - i
  {
    if i + 1 >= |ring| then false
    else OnSegment(ring[i], ring[i + 1], p) || OnBoundaryFrom(ring, p, i + 1)
  }

  /** The number of the ring's edges from the i-th on that the ray from p crosses. */
  function CrossingsFrom(ring: seq<XY>, p: XY, i: nat): nat
    decreases |ring| - i
  {
    if i + 1 >= |ring| then 0
    else (if RayCrosses(ring[i], ring[i + 1], p) then 1 else 0) + CrossingsFrom(ring, p, i + 1)
  }

  /** Strict interior of the simple polygon with vertices `poly`: off the boundary, odd crossing count. */
  predicate Contains(poly: seq<XY>, p: XY)
  {
    var ring := Closed(poly);
    !OnBoundaryFrom(ring, p, 0) && CrossingsFrom(ring, p, 0) % 2 == 1
  }

  /** A point on the ring's edge k is on the boundary as seen from any earlier edge. */
  lemma {:induction false} OnEdgeIsOnBoundary(ring: seq<XY>, p: XY, k: nat, i: nat)
    requires i <= k && k + 1 < |ring|
    requires OnSegment(ring[k], ring[k + 1], p)
    ensures OnBoundaryFrom(ring, p, i)
    decreases k - i
  {
    if i < k {
      OnEdgeIsOnBoundary(ring, p, k, i + 1);
    }
  }

  /** Boundary points, vertices included, are never contained. */
  lemma VertexNotContained(poly: seq<XY>, k: nat)
    requires k < |poly|
    ensures !Contains(poly, poly[k])
  {
    var ring := Closed(poly);
    assert ring[k] == poly[k];
    assert Cross(ring[k], ring[k + 1], ring[k]) == 0.0;
    OnEdgeIsOnBoundary(ring, poly[k], k, 0);
  }

  /** The vertex ring create_polygon builds: each row (lat, lon) becomes (lon, lat). */
  function Vertices(rows: seq<LatLon>): seq<XY>
  {
    seq(|rows|, i requires 0 <= i < |rows| => XY(rows[i].lon, rows[i].lat))
  }

  /**
   * The number of coordinates of the ring Shapely builds from `poly`: the
   * first vertex is repeated at the end unless it is there already.
   */
  function RingLength(poly: seq<XY>): (n: nat)
    ensures |poly| <= n <= |poly| + 1
  {
    if |poly| == 0 then 0
    else if poly[0] == poly[|poly| - 1] then |poly|
    else |poly| + 1
  }

  /** Shapely accepts an empty shell or a ring of at least four coordinates, and raises ValueError otherwise. */
  predicate RingBuildable(poly: seq<XY>)
  {
    |poly| == 0 || RingLength(poly) >= 4
  }

  /**
   * create_polygon: the vertices in the table's order, longitude first;
   * `Polygon(coords)` refuses a ring that is too short.
   */
  method CreatePolygon(rows: seq<LatLon>) returns (r: Option<seq<XY>>)
    ensures r.Some? <==> RingBuildable(Vertices(rows))
    ensures r.Some? ==> |r.value| == |rows|
    ensures r.Some? ==> forall i :: 0 <= i < |rows| ==> r.value[i] == XY(rows[i].lon, rows[i].lat)
    ensures r.Some? ==> r.value == Vertices(rows)
  {
    var coords := [];
    var k := 0;
    while k < |rows|
      invariant 0 <= k <= |rows|
      invariant |coords| == k
      invariant forall i :: 0 <= i < k ==> coords[i] == XY(rows[i].lon, rows[i].lat)
    {
      coords := coords + [XY(rows[k].lon, rows[k].lat)];
      k := k + 1;
    }
    assert coords == Vertices(rows);
    if RingBuildable(coords) {
      r := Some(coords);
    } else {
      r := None;
    }
  }

  /** One or two table rows make no polygon; three distinct ones do. */
  lemma ShortTablesRefused(a: LatLon, b: LatLon, c: LatLon)
    ensures !RingBuildable(Vertices([a]))
    ensures !RingBuildable(Vertices([a, b]))
    ensures a != c ==> RingBuildable(Vertices([a, b, c]))
  {
    assert Vertices([a, b, c])[0] == XY(a.lon, a.lat);
    assert Vertices([a, b, c])[2] == XY(c.lon, c.lat);
  }

  /** test_if_point_in: a clicked (lat, lon) is tested as the plane point (lon, lat). */
  function TestIfPointIn(whereClicked: LatLon, polygon: seq<XY>): bool
  {
    Contains(polygon, XY(whereClicked.lon, whereClicked.lat))
  }

  /**
   * The swap of test_if_point_in matches the one of create_polygon: clicking
   * exactly on a row of the table tests that row's own vertex, which is on
   * the boundary and hence outside.
   */
  lemma ClickOnTableRowIsOutside(rows: seq<LatLon>, k: nat)
    requires k < |rows|
    ensures !TestIfPointIn(rows[k], Vertices(rows))
  {
    var poly := Vertices(rows);
    assert poly[k] == XY(rows[k].lon, rows[k].lat);
    VertexNotContained(poly, k);
  }

  /** The cases of test_function: a plane point and whether it is expected inside. */
  datatype Case = Case(point: XY, expected: bool)

  const Cases: seq<Case> := [
    // strictly inside
    Case(XY(5.0, 5.0), true), Case(XY(2.3, 9.0), true), Case(XY(6.0, 2.0), true),
    // outside
    Case(XY(-80.0, 4.0), false), Case(XY(5.0, 20.0), false), Case(XY(-120.0, -35.0), false),
    // on the border
    Case(XY(10.0, 2.0), false), Case(XY(3.0, 10.0), false), Case(XY(10.0, 10.0), false)
  ]

  /** The square the test's table describes: [0, 10] x [0, 10]. */
  const Square: seq<XY> := [XY(0.0, 0.0), XY(10.0, 0.0), XY(10.0, 10.0), XY(0.0, 10.0)]

  /** Every case's expectation holds of `polygon`. */
  predicate AllCasesPass(polygon: seq<XY>)
  {
    forall k :: 0 <= k < |Cases| ==> Contains(polygon, Cases[k].point) == Cases[k].expected
  }

  /**
   * test_function on an already-read table: build the polygon, then clear the
   * flag at the first case whose containment differs from its expectation.
   * A table the polygon constructor refuses stops the test with no verdict.
   */
  method TestFunction(rows: seq<LatLon>) returns (test: Option<bool>)
    ensures test.None? <==> !RingBuildable(Vertices(rows))
    ensures test.Some? ==> (test.value <==> AllCasesPass(Vertices(rows)))
  {
    var built := CreatePolygon(rows);
    if built.None? {
      return None;
    }
    var polygon1 := built.value;
    var flag := true;
    var k := 0;
    while k < |Cases|
      invariant 0 <= k <= |Cases|
      invariant flag <==> forall m :: 0 <= m < k ==> Contains(polygon1, Cases[m].point) == Cases[m].expected
    {
      var result := Contains(polygon1, Cases[k].point);
      if result != Cases[k].expected {
        flag := false;
      }
      k := k + 1;
    }
    test := Some(flag);
  }

  /** The three points of test_function expected strictly inside the square. */
  lemma SquareInsideCases()
    ensures Contains(Square, XY(5.0, 5.0)) && Contains(Square, XY(2.3, 9.0)) && Contains(Square, XY(6.0, 2.0))
  {
  }

  /** The three points of test_function expected outside the square. */
  lemma SquareOutsideCases()
    ensures !Contains(Square, XY(-80.0, 4.0)) && !Contains(Square, XY(5.0, 20.0)) && !Contains(Square, XY(-120.0, -35.0))
  {
  }

  /** The three border points of test_function: on an edge or a corner, hence not contained. */
  lemma SquareBorderCases()
    ensures !Contains(Square, XY(10.0, 2.0)) && !Contains(Square, XY(3.0, 10.0)) && !Contains(Square, XY(10.0, 10.0))
  {
  }

  /** The square passes all nine cases of test_function. */
  lemma SquarePassesAllCases()
    ensures AllCasesPass(Square)
  {
    SquareInsideCases();
    SquareOutsideCases();
    SquareBorderCases();
    forall k | 0 <= k < |Cases|
      ensures Contains(Square, Cases[k].point) == Cases[k].expected
    {
      assert k < 9;
      assert Cases[k] in Cases;
    }
  }
}
