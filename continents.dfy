/**
 * The six continent regions both refugee estimators use: their convex
 * hulls, the first-match classification of a point, and the compounded
 * population densities.
 *
 * Every vertex list is in (longitude, latitude) order, as the limit lists of
 * Class_ElevationData.py are, whatever their doc-comment says.
 */
module Continents {
  import opened Wrappers
  import opened Numerics
  import opened PointInPolygon

  datatype Continent = Asia | Africa | NorthAmerica | SouthAmerica | Europe | Oceania

  /** Position of a continent in the classification order. */
  function Rank(c: Continent): nat
  {
    match c
    case Asia => 0
    case Africa => 1
    case NorthAmerica => 2
    case SouthAmerica => 3
    case Europe => 4
    case Oceania => 5
  }

  /** The extreme points listed for each continent (the closing repeat included). */
  function Limits(c: Continent): seq<XY>
  {
    match c
    case Asia => [XY(30.0, 80.0), XY(180.0, 80.0), XY(180.0, -15.0), XY(130.0, -15.0), XY(90.0, -20.0),
                  XY(50.0, -20.0), XY(30.0, 0.0), XY(20.0, 10.0), XY(20.0, 40.0), XY(30.0, 80.0)]
    case Africa => [XY(-30.0, 40.0), XY(60.0, 40.0), XY(60.0, -40.0), XY(20.0, -50.0), XY(-30.0, -40.0),
                    XY(-30.0, 0.0), XY(-30.0, 40.0)]
    case NorthAmerica => [XY(-170.0, 85.0), XY(-30.0, 85.0), XY(-30.0, 10.0), XY(-60.0, 5.0), XY(-100.0, 5.0),
                          XY(-170.0, 10.0), XY(-170.0, 85.0)]
    case SouthAmerica => [XY(-90.0, 15.0), XY(-30.0, 15.0), XY(-30.0, -60.0), XY(-90.0, -60.0), XY(-90.0, 15.0)]
    case Europe => [XY(-30.0, 75.0), XY(60.0, 75.0), XY(60.0, 35.0), XY(30.0, 30.0), XY(0.0, 30.0),
                    XY(-30.0, 40.0), XY(-30.0, 75.0)]
    case Oceania => [XY(110.0, 0.0), XY(180.0, 0.0), XY(180.0, -50.0), XY(110.0, -50.0), XY(110.0, 0.0)]
  }

  /** The convex hull of each continent's limits, counter-clockwise. */
  function Hull(c: Continent): seq<XY>
  {
    match c
    case Asia => [XY(20.0, 10.0), XY(50.0, -20.0), XY(90.0, -20.0), XY(180.0, -15.0), XY(180.0, 80.0),
                  XY(30.0, 80.0), XY(20.0, 40.0)]
    case Africa => [XY(-30.0, -40.0), XY(20.0, -50.0), XY(60.0, -40.0), XY(60.0, 40.0), XY(-30.0, 40.0)]
    case NorthAmerica => [XY(-170.0, 10.0), XY(-100.0, 5.0), XY(-60.0, 5.0), XY(-30.0, 10.0), XY(-30.0, 85.0),
                          XY(-170.0, 85.0)]
    case SouthAmerica => [XY(-90.0, -60.0), XY(-30.0, -60.0), XY(-30.0, 15.0), XY(-90.0, 15.0)]
    case Europe => [XY(-30.0, 40.0), XY(0.0, 30.0), XY(30.0, 30.0), XY(60.0, 35.0), XY(60.0, 75.0),
                    XY(-30.0, 75.0)]
    case Oceania => [XY(110.0, -50.0), XY(180.0, -50.0), XY(180.0, 0.0), XY(110.0, 0.0)]
  }

  /** Every three consecutive points of `chain` from the i-th on make a strict left turn. */
  predicate LeftTurnsFrom(chain: seq<XY>, i: nat)
    decreases |chain| - i
  {
    if i + 2 >= |chain| then true
    else Cross(chain[i], chain[i + 1], chain[i + 2]) > 0.0 && LeftTurnsFrom(chain, i + 1)
  }

  /** The vertices followed by the first two again, so that every corner has both neighbours. */
  function WrapTwo(h: seq<XY>): seq<XY>
  {
    if |h| < 2 then h else h + [h[0], h[1]]
  }

  /** q is on or left of every edge of the ring from the i-th on. */
  predicate InClosedFrom(ring: seq<XY>, q: XY, i: nat)
    decreases |ring| - i
  {
    if i + 1 >= |ring| then true
    else Cross(ring[i], ring[i + 1], q) >= 0.0 && InClosedFrom(ring, q, i + 1)
  }

  /** Every point of pts is inside the closed polygon of the ring. */
  predicate AllInClosed(ring: seq<XY>, pts: seq<XY>)
  {
    forall q :: q in pts ==> InClosedFrom(ring, q, 0)
  }

  /** Every vertex of h from the i-th on is one of pts. */
  predicate CornersFrom(h: seq<XY>, pts: seq<XY>, i: nat)
    decreases |h| - i
  {
    if i >= |h| then true
    else h[i] in pts && CornersFrom(h, pts, i + 1)
  }

  /**
   * h is the convex hull of pts: a strictly convex counter-clockwise polygon
   * whose corners are points of pts and which encloses every point of pts.
   */
  predicate IsConvexHullOf(h: seq<XY>, pts: seq<XY>)
  {
    && |h| >= 3
    && LeftTurnsFrom(WrapTwo(h), 0)
    && CornersFrom(h, pts, 0)
    && AllInClosed(Closed(h), pts)
  }

  /** Limits of Asia lie in the closed hull. */
  lemma AsiaEncloses1()
    ensures InClosedFrom(Closed(Hull(Asia)), XY(30.0, 80.0), 0)
    ensures InClosedFrom(Closed(Hull(Asia)), XY(180.0, 80.0), 0)
    ensures InClosedFrom(Closed(Hull(Asia)), XY(180.0, -15.0), 0)
    ensures InClosedFrom(Closed(Hull(Asia)), XY(130.0, -15.0), 0)
    ensures InClosedFrom(Closed(Hull(Asia)), XY(90.0, -20.0), 0)
  {
    assert InClosedFrom(Closed(Hull(Asia)), XY(30.0, 80.0), 0) by {}
    assert InClosedFrom(Closed(Hull(Asia)), XY(180.0, 80.0), 0) by {}
    assert InClosedFrom(Closed(Hull(Asia)), XY(180.0, -15.0), 0) by {}
    assert InClosedFrom(Closed(Hull(Asia)), XY(130.0, -15.0), 0) by {}
    assert InClosedFrom(Closed(Hull(Asia)), XY(90.0, -20.0), 0) by {}
  }

  /** Limits of Asia lie in the closed hull. */
  lemma AsiaEncloses2()
    ensures InClosedFrom(Closed(Hull(Asia)), XY(50.0, -20.0), 0)
    ensures InClosedFrom(Closed(Hull(Asia)), XY(30.0, 0.0), 0)
    ensures InClosedFrom(Closed(Hull(Asia)), XY(20.0, 10.0), 0)
    ensures InClosedFrom(Closed(Hull(Asia)), XY(20.0, 40.0), 0)
  {
    assert InClosedFrom(Closed(Hull(Asia)), XY(50.0, -20.0), 0) by {}
    assert InClosedFrom(Closed(Hull(Asia)), XY(30.0, 0.0), 0) by {}
    assert InClosedFrom(Closed(Hull(Asia)), XY(20.0, 10.0), 0) by {}
    assert InClosedFrom(Closed(Hull(Asia)), XY(20.0, 40.0), 0) by {}
  }

  /** The hand-computed hull of Asia is the convex hull of its limits. */
  lemma AsiaHull()
    ensures IsConvexHullOf(Hull(Asia), Limits(Asia))
  {
    assert LeftTurnsFrom(WrapTwo(Hull(Asia)), 0) by {}
    assert CornersFrom(Hull(Asia), Limits(Asia), 0) by {}
    AsiaEncloses1();
    AsiaEncloses2();
  }

  /** Limits of Africa lie in the closed hull. */
  lemma AfricaEncloses1()
    ensures InClosedFrom(Closed(Hull(Africa)), XY(-30.0, 40.0), 0)
    ensures InClosedFrom(Closed(Hull(Africa)), XY(60.0, 40.0), 0)
    ensures InClosedFrom(Closed(Hull(Africa)), XY(60.0, -40.0), 0)
    ensures InClosedFrom(Closed(Hull(Africa)), XY(20.0, -50.0), 0)
    ensures InClosedFrom(Closed(Hull(Africa)), XY(-30.0, -40.0), 0)
  {
    assert InClosedFrom(Closed(Hull(Africa)), XY(-30.0, 40.0), 0) by {}
    assert InClosedFrom(Closed(Hull(Africa)), XY(60.0, 40.0), 0) by {}
    assert InClosedFrom(Closed(Hull(Africa)), XY(60.0, -40.0), 0) by {}
    assert InClosedFrom(Closed(Hull(Africa)), XY(20.0, -50.0), 0) by {}
    assert InClosedFrom(Closed(Hull(Africa)), XY(-30.0, -40.0), 0) by {}
  }

  /** Limits of Africa lie in the closed hull. */
  lemma AfricaEncloses2()
    ensures InClosedFrom(Closed(Hull(Africa)), XY(-30.0, 0.0), 0)
  {
    assert InClosedFrom(Closed(Hull(Africa)), XY(-30.0, 0.0), 0) by {}
  }

  /** The hand-computed hull of Africa is the convex hull of its limits. */
  lemma AfricaHull()
    ensures IsConvexHullOf(Hull(Africa), Limits(Africa))
  {
    assert LeftTurnsFrom(WrapTwo(Hull(Africa)), 0) by {}
    assert CornersFrom(Hull(Africa), Limits(Africa), 0) by {}
    AfricaEncloses1();
    AfricaEncloses2();
  }

  /** Limits of North America lie in the closed hull. */
  lemma NorthAmericaEncloses1()
    ensures InClosedFrom(Closed(Hull(NorthAmerica)), XY(-170.0, 85.0), 0)
    ensures InClosedFrom(Closed(Hull(NorthAmerica)), XY(-30.0, 85.0), 0)
    ensures InClosedFrom(Closed(Hull(NorthAmerica)), XY(-30.0, 10.0), 0)
    ensures InClosedFrom(Closed(Hull(NorthAmerica)), XY(-60.0, 5.0), 0)
    ensures InClosedFrom(Closed(Hull(NorthAmerica)), XY(-100.0, 5.0), 0)
  {
    assert InClosedFrom(Closed(Hull(NorthAmerica)), XY(-170.0, 85.0), 0) by {}
    assert InClosedFrom(Closed(Hull(NorthAmerica)), XY(-30.0, 85.0), 0) by {}
    assert InClosedFrom(Closed(Hull(NorthAmerica)), XY(-30.0, 10.0), 0) by {}
    assert InClosedFrom(Closed(Hull(NorthAmerica)), XY(-60.0, 5.0), 0) by {}
    assert InClosedFrom(Closed(Hull(NorthAmerica)), XY(-100.0, 5.0), 0) by {}
  }

  /** Limits of North America lie in the closed hull. */
  lemma NorthAmericaEncloses2()
    ensures InClosedFrom(Closed(Hull(NorthAmerica)), XY(-170.0, 10.0), 0)
  {
    assert InClosedFrom(Closed(Hull(NorthAmerica)), XY(-170.0, 10.0), 0) by {}
  }

  /** The hand-computed hull of North America is the convex hull of its limits. */
  lemma NorthAmericaHull()
    ensures IsConvexHullOf(Hull(NorthAmerica), Limits(NorthAmerica))
  {
    assert LeftTurnsFrom(WrapTwo(Hull(NorthAmerica)), 0) by {}
    assert CornersFrom(Hull(NorthAmerica), Limits(NorthAmerica), 0) by {}
    NorthAmericaEncloses1();
    NorthAmericaEncloses2();
  }

  /** Limits of South America lie in the closed hull. */
  lemma SouthAmericaEncloses()
    ensures InClosedFrom(Closed(Hull(SouthAmerica)), XY(-90.0, 15.0), 0)
    ensures InClosedFrom(Closed(Hull(SouthAmerica)), XY(-30.0, 15.0), 0)
    ensures InClosedFrom(Closed(Hull(SouthAmerica)), XY(-30.0, -60.0), 0)
    ensures InClosedFrom(Closed(Hull(SouthAmerica)), XY(-90.0, -60.0), 0)
  {
    assert InClosedFrom(Closed(Hull(SouthAmerica)), XY(-90.0, 15.0), 0) by {}
    assert InClosedFrom(Closed(Hull(SouthAmerica)), XY(-30.0, 15.0), 0) by {}
    assert InClosedFrom(Closed(Hull(SouthAmerica)), XY(-30.0, -60.0), 0) by {}
    assert InClosedFrom(Closed(Hull(SouthAmerica)), XY(-90.0, -60.0), 0) by {}
  }

  /** The hand-computed hull of South America is the convex hull of its limits. */
  lemma SouthAmericaHull()
    ensures IsConvexHullOf(Hull(SouthAmerica), Limits(SouthAmerica))
  {
    assert LeftTurnsFrom(WrapTwo(Hull(SouthAmerica)), 0) by {}
    assert CornersFrom(Hull(SouthAmerica), Limits(SouthAmerica), 0) by {}
    SouthAmericaEncloses();
  }

  /** Limits of Europe lie in the closed hull. */
  lemma EuropeEncloses1()
    ensures InClosedFrom(Closed(Hull(Europe)), XY(-30.0, 75.0), 0)
    ensures InClosedFrom(Closed(Hull(Europe)), XY(60.0, 75.0), 0)
    ensures InClosedFrom(Closed(Hull(Europe)), XY(60.0, 35.0), 0)
    ensures InClosedFrom(Closed(Hull(Europe)), XY(30.0, 30.0), 0)
    ensures InClosedFrom(Closed(Hull(Europe)), XY(0.0, 30.0), 0)
  {
    assert InClosedFrom(Closed(Hull(Europe)), XY(-30.0, 75.0), 0) by {}
    assert InClosedFrom(Closed(Hull(Europe)), XY(60.0, 75.0), 0) by {}
    assert InClosedFrom(Closed(Hull(Europe)), XY(60.0, 35.0), 0) by {}
    assert InClosedFrom(Closed(Hull(Europe)), XY(30.0, 30.0), 0) by {}
    assert InClosedFrom(Closed(Hull(Europe)), XY(0.0, 30.0), 0) by {}
  }

  /** Limits of Europe lie in the closed hull. */
  lemma EuropeEncloses2()
    ensures InClosedFrom(Closed(Hull(Europe)), XY(-30.0, 40.0), 0)
  {
    assert InClosedFrom(Closed(Hull(Europe)), XY(-30.0, 40.0), 0) by {}
  }

  /** The hand-computed hull of Europe is the convex hull of its limits. */
  lemma EuropeHull()
    ensures IsConvexHullOf(Hull(Europe), Limits(Europe))
  {
    assert LeftTurnsFrom(WrapTwo(Hull(Europe)), 0) by {}
    assert CornersFrom(Hull(Europe), Limits(Europe), 0) by {}
    EuropeEncloses1();
    EuropeEncloses2();
  }

  /** Limits of Oceania lie in the closed hull. */
  lemma OceaniaEncloses()
    ensures InClosedFrom(Closed(Hull(Oceania)), XY(110.0, 0.0), 0)
    ensures InClosedFrom(Closed(Hull(Oceania)), XY(180.0, 0.0), 0)
    ensures InClosedFrom(Closed(Hull(Oceania)), XY(180.0, -50.0), 0)
    ensures InClosedFrom(Closed(Hull(Oceania)), XY(110.0, -50.0), 0)
  {
    assert InClosedFrom(Closed(Hull(Oceania)), XY(110.0, 0.0), 0) by {}
    assert InClosedFrom(Closed(Hull(Oceania)), XY(180.0, 0.0), 0) by {}
    assert InClosedFrom(Closed(Hull(Oceania)), XY(180.0, -50.0), 0) by {}
    assert InClosedFrom(Closed(Hull(Oceania)), XY(110.0, -50.0), 0) by {}
  }

  /** The hand-computed hull of Oceania is the convex hull of its limits. */
  lemma OceaniaHull()
    ensures IsConvexHullOf(Hull(Oceania), Limits(Oceania))
  {
    assert LeftTurnsFrom(WrapTwo(Hull(Oceania)), 0) by {}
    assert CornersFrom(Hull(Oceania), Limits(Oceania), 0) by {}
    OceaniaEncloses();
  }

  /** Of Asia's limits, (130, -15) lies strictly inside the hull and (30, 0) on its edge. */
  lemma AsiaDroppedLimits()
    ensures Contains(Hull(Asia), XY(130.0, -15.0))
    ensures Cross(XY(20.0, 10.0), XY(50.0, -20.0), XY(30.0, 0.0)) == 0.0
    ensures !Contains(Hull(Asia), XY(30.0, 0.0))
  {
  }

  /** The if/elif chain: the first continent in the order Asia, Africa, N. America, S. America, Europe, Oceania whose hull contains p. */
  function Classify(p: XY): Option<Continent>
  {
    if Contains(Hull(Asia), p) then Some(Asia)
    else if Contains(Hull(Africa), p) then Some(Africa)
    else if Contains(Hull(NorthAmerica), p) then Some(NorthAmerica)
    else if Contains(Hull(SouthAmerica), p) then Some(SouthAmerica)
    else if Contains(Hull(Europe), p) then Some(Europe)
    else if Contains(Hull(Oceania), p) then Some(Oceania)
    else None
  }

  /** Classification is first match: the chosen hull contains p, no earlier one does, and None means no hull does. */
  lemma ClassifyIsFirstMatch(p: XY)
    ensures Classify(p).Some? ==> Contains(Hull(Classify(p).value), p)
    ensures Classify(p).Some? ==>
      forall c :: Rank(c) < Rank(Classify(p).value) ==> !Contains(Hull(c), p)
    ensures Classify(p).None? <==> forall c :: !Contains(Hull(c), p)
  {
    var r := Classify(p);
    if r.Some? {
      forall c | Rank(c) < Rank(r.value) ensures !Contains(Hull(c), p) {
        match c
        case Asia =>
        case Africa =>
        case NorthAmerica =>
        case SouthAmerica =>
        case Europe =>
        case Oceania =>
      }
    } else {
      forall c ensures !Contains(Hull(c), p) {
        match c
        case Asia =>
        case Africa =>
        case NorthAmerica =>
        case SouthAmerica =>
        case Europe =>
        case Oceania =>
      }
    }
  }

  /** A (lat, lon) point is classified as the plane point (lon, lat). */
  function ClassifyLatLon(coord: LatLon): Option<Continent>
  {
    Classify(XY(coord.lon, coord.lat))
  }

  /** [40, 100] is in Asia. */
  lemma ClassifyAsiaTestPoint()
    ensures ClassifyLatLon(LatLon(40.0, 100.0)) == Some(Asia)
  {
    assert Contains(Hull(Asia), XY(100.0, 40.0)) by {}
  }

  /** [45, 110] is in Asia. */
  lemma ClassifyAsiaTestPoint2()
    ensures ClassifyLatLon(LatLon(45.0, 110.0)) == Some(Asia)
  {
    assert Contains(Hull(Asia), XY(110.0, 45.0)) by {}
  }

  /** [35, 120] is in Asia. */
  lemma ClassifyAsiaTestPoint3()
    ensures ClassifyLatLon(LatLon(35.0, 120.0)) == Some(Asia)
  {
    assert Contains(Hull(Asia), XY(120.0, 35.0)) by {}
  }

  /** [0, 20] is outside Asia's hull (below its edge from (20, 10) to (50, -20)) and in Africa. */
  lemma ClassifyAfricaTestPoint()
    ensures ClassifyLatLon(LatLon(0.0, 20.0)) == Some(Africa)
  {
    assert !Contains(Hull(Asia), XY(20.0, 0.0)) by {}
    assert Contains(Hull(Africa), XY(20.0, 0.0)) by {}
  }

  /** [50, -10] lies outside Asia's, Africa's and the two Americas' hulls. */
  lemma EuropeTestPointOutsideAmericas()
    ensures !Contains(Hull(Asia), XY(-10.0, 50.0))
    ensures !Contains(Hull(Africa), XY(-10.0, 50.0))
    ensures !Contains(Hull(NorthAmerica), XY(-10.0, 50.0))
    ensures !Contains(Hull(SouthAmerica), XY(-10.0, 50.0))
  {
    assert !Contains(Hull(Asia), XY(-10.0, 50.0)) by {}
    assert !Contains(Hull(Africa), XY(-10.0, 50.0)) by {}
    assert !Contains(Hull(NorthAmerica), XY(-10.0, 50.0)) by {}
    assert !Contains(Hull(SouthAmerica), XY(-10.0, 50.0)) by {}
  }

  /** [50, -10] falls through the first four hulls to Europe. */
  lemma ClassifyEuropeTestPoint()
    ensures ClassifyLatLon(LatLon(50.0, -10.0)) == Some(Europe)
  {
    EuropeTestPointOutsideAmericas();
    assert Contains(Hull(Europe), XY(-10.0, 50.0)) by {}
  }

  /** [0, -150] lies outside Asia's, Africa's and North America's hulls. */
  lemma OceanTestPointOutsideWest()
    ensures !Contains(Hull(Asia), XY(-150.0, 0.0))
    ensures !Contains(Hull(Africa), XY(-150.0, 0.0))
    ensures !Contains(Hull(NorthAmerica), XY(-150.0, 0.0))
  {
    assert !Contains(Hull(Asia), XY(-150.0, 0.0)) by {}
    assert !Contains(Hull(Africa), XY(-150.0, 0.0)) by {}
    assert !Contains(Hull(NorthAmerica), XY(-150.0, 0.0)) by {}
  }

  /** [0, -150] lies outside South America's, Europe's and Oceania's hulls. */
  lemma OceanTestPointOutsideEast()
    ensures !Contains(Hull(SouthAmerica), XY(-150.0, 0.0))
    ensures !Contains(Hull(Europe), XY(-150.0, 0.0))
    ensures !Contains(Hull(Oceania), XY(-150.0, 0.0))
  {
    assert !Contains(Hull(SouthAmerica), XY(-150.0, 0.0)) by {}
    assert !Contains(Hull(Europe), XY(-150.0, 0.0)) by {}
    assert !Contains(Hull(Oceania), XY(-150.0, 0.0)) by {}
  }

  /** [0, -150] in the Pacific lies in no hull. */
  lemma ClassifyOceanTestPoint()
    ensures ClassifyLatLon(LatLon(0.0, -150.0)) == None
  {
    OceanTestPointOutsideWest();
    OceanTestPointOutsideEast();
  }

  /** [-30, -120] lies outside Asia's, Africa's and North America's hulls. */
  lemma OceanTestPoint2OutsideWest()
    ensures !Contains(Hull(Asia), XY(-120.0, -30.0))
    ensures !Contains(Hull(Africa), XY(-120.0, -30.0))
    ensures !Contains(Hull(NorthAmerica), XY(-120.0, -30.0))
  {
    assert !Contains(Hull(Asia), XY(-120.0, -30.0)) by {}
    assert !Contains(Hull(Africa), XY(-120.0, -30.0)) by {}
    assert !Contains(Hull(NorthAmerica), XY(-120.0, -30.0)) by {}
  }

  /** [-30, -120] lies outside South America's, Europe's and Oceania's hulls. */
  lemma OceanTestPoint2OutsideEast()
    ensures !Contains(Hull(SouthAmerica), XY(-120.0, -30.0))
    ensures !Contains(Hull(Europe), XY(-120.0, -30.0))
    ensures !Contains(Hull(Oceania), XY(-120.0, -30.0))
  {
    assert !Contains(Hull(SouthAmerica), XY(-120.0, -30.0)) by {}
    assert !Contains(Hull(Europe), XY(-120.0, -30.0)) by {}
    assert !Contains(Hull(Oceania), XY(-120.0, -30.0)) by {}
  }

  /** [-30, -120] in the Pacific lies in no hull. */
  lemma ClassifyOceanTestPoint2()
    ensures ClassifyLatLon(LatLon(-30.0, -120.0)) == None
  {
    OceanTestPoint2OutsideWest();
    OceanTestPoint2OutsideEast();
  }

  /** [0, -100] lies outside Asia's, Africa's and North America's hulls. */
  lemma OceanTestPoint3OutsideWest()
    ensures !Contains(Hull(Asia), XY(-100.0, 0.0))
    ensures !Contains(Hull(Africa), XY(-100.0, 0.0))
    ensures !Contains(Hull(NorthAmerica), XY(-100.0, 0.0))
  {
    assert !Contains(Hull(Asia), XY(-100.0, 0.0)) by {}
    assert !Contains(Hull(Africa), XY(-100.0, 0.0)) by {}
    assert !Contains(Hull(NorthAmerica), XY(-100.0, 0.0)) by {}
  }

  /** [0, -100] lies outside South America's, Europe's and Oceania's hulls. */
  lemma OceanTestPoint3OutsideEast()
    ensures !Contains(Hull(SouthAmerica), XY(-100.0, 0.0))
    ensures !Contains(Hull(Europe), XY(-100.0, 0.0))
    ensures !Contains(Hull(Oceania), XY(-100.0, 0.0))
  {
    assert !Contains(Hull(SouthAmerica), XY(-100.0, 0.0)) by {}
    assert !Contains(Hull(Europe), XY(-100.0, 0.0)) by {}
    assert !Contains(Hull(Oceania), XY(-100.0, 0.0)) by {}
  }

  /** [0, -100] in the Pacific lies in no hull. */
  lemma ClassifyOceanTestPoint3()
    ensures ClassifyLatLon(LatLon(0.0, -100.0)) == None
  {
    OceanTestPoint3OutsideWest();
    OceanTestPoint3OutsideEast();
  }

  /** [-10, 140], which the multi-continent test labels Oceania, lies in both Asia's and Oceania's hulls; Asia wins by priority. */
  lemma ClassifyOverlapTestPoint()
    ensures ClassifyLatLon(LatLon(-10.0, 140.0)) == Some(Asia)
    ensures Contains(Hull(Oceania), XY(140.0, -10.0))
  {
    assert Contains(Hull(Asia), XY(140.0, -10.0)) by {}
    assert Contains(Hull(Oceania), XY(140.0, -10.0)) by {}
  }

  /** Population density in 2022, inhabitants per square kilometre; both Americas share one figure. */
  function BaseDensity(c: Continent): real
  {
    match c
    case Asia => 149.7
    case Africa => 47.2
    case NorthAmerica => 33.7
    case SouthAmerica => 33.7
    case Europe => 109.0
    case Oceania => 5.2
  }

  /** Annual growth rates, one per density key (america shared). */
  datatype Rates = Rates(asia: real, africa: real, america: real, europe: real, oceania: real)

  /** The rates of the primary estimator. */
  const MainRates := Rates(0.006, 0.025, 0.007, 0.003, 0.012)

  /** The rates of the list-based copy. */
  const TestCopyRates := Rates(0.005, 0.025, 0.007, 0.000, 0.012)

  predicate NonNegative(r: Rates)
  {
    r.asia >= 0.0 && r.africa >= 0.0 && r.america >= 0.0 && r.europe >= 0.0 && r.oceania >= 0.0
  }

  function RateOf(r: Rates, c: Continent): real
  {
    match c
    case Asia => r.asia
    case Africa => r.africa
    case NorthAmerica => r.america
    case SouthAmerica => r.america
    case Europe => r.europe
    case Oceania => r.oceania
  }

  /** base_density * (1 + growth_rate) ** years. */
  function Density(c: Continent, r: Rates, years: nat): real
  {
    BaseDensity(c) * Pow(1.0 + RateOf(r, c), years)
  }

  /** North and South America are counted at one shared density. */
  lemma AmericasShareDensity(r: Rates, years: nat)
    ensures Density(NorthAmerica, r, years) == Density(SouthAmerica, r, years)
  {
  }

  /** With non-negative rates a density never falls below its 2022 value. */
  lemma DensityAtLeastBase(c: Continent, r: Rates, years: nat)
    requires NonNegative(r)
    ensures Density(c, r, years) >= BaseDensity(c) > 0.0
  {
    PowAtLeastOne(1.0 + RateOf(r, c), years);
    assert BaseDensity(c) * Pow(1.0 + RateOf(r, c), years) >= BaseDensity(c) * 1.0;
  }

  /** With non-negative rates densities grow with the years elapsed. */
  lemma DensityMonotone(c: Continent, r: Rates, m: nat, n: nat)
    requires NonNegative(r) && m <= n
    ensures Density(c, r, m) <= Density(c, r, n)
  {
    PowMonotone(1.0 + RateOf(r, c), m, n);
    assert BaseDensity(c) > 0.0;
    assert BaseDensity(c) * Pow(1.0 + RateOf(r, c), m) <= BaseDensity(c) * Pow(1.0 + RateOf(r, c), n);
  }
}
