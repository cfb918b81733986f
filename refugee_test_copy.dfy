/**
 * The list-based copy of the estimator in Test_compute_refugees.py and the
 * facts its test cases check. Unlike the estimator over the elevation
 * index, this copy counts every listed point (it never reads the two
 * elevation arguments), gives each point one square degree, uses its own
 * growth rates, and truncates the total to an integer.
 */
module RefugeeList {
  import opened Wrappers
  import opened Numerics
  import opened PointInPolygon
  import opened Continents
  import opened Estimator

  /** The area one listed point stands for: one degree by one degree. */
  const PointSurface: real := OneDegree * OneDegree

  /** The total before truncation. */
  function ListTotal(points: seq<LatLon>, year: int): real
  {
    if year > 2022 then
      BaseRefugees + PointsRefugees(points, TestCopyRates, YearsSince2022(year), PointSurface) + OtherClimaticRefugees(year) as real
    else BaseRefugees
  }

  /** The value the list-based compute_refugees returns. */
  function ListEstimate(points: seq<LatLon>, year: int): int
  {
    Trunc(ListTotal(points, year))
  }

  /**
   * compute_refugees(list_points, year, elevation_year, elevation_2022):
   * from 32 million, after 2022 add every listed point's refugees and the
   * other climatic events, then truncate. The result is a function of the
   * points and the year alone.
   */
  method ComputeRefugees(listPoints: seq<LatLon>, year: int, elevationYear: real, elevation2022: real) returns (nbRefugees: int)
    ensures nbRefugees == ListEstimate(listPoints, year)
  {
    var total := BaseRefugees;
    var years := YearsSince2022(year);
    if year > 2022 {
      var k := 0;
      while k < |listPoints|
        invariant 0 <= k <= |listPoints|
        invariant total == BaseRefugees + PointsRefugees(listPoints[..k], TestCopyRates, years, PointSurface)
      {
        var surface := OneDegree * OneDegree;
        assert listPoints[..k + 1] == listPoints[..k] + [listPoints[k]];
        PointsRefugeesSnoc(listPoints[..k], listPoints[k], TestCopyRates, years, surface);
        total := total + PointRefugees(listPoints[k], TestCopyRates, years, surface);
        k := k + 1;
      }
      assert listPoints[..k] == listPoints;
      total := total + OtherClimaticRefugees(year) as real;
    }
    nbRefugees := Trunc(total);
  }

  /** A total at least as large as an integer truncates to at least that integer. */
  lemma TruncAtLeast(x: real, n: int)
    requires 0 <= n && n as real <= x
    ensures Trunc(x) >= n
  {
  }

  lemma TotalAtLeast(points: seq<LatLon>, year: int)
    requires year > 2022
    ensures ListTotal(points, year) >= BaseRefugees + OtherClimaticRefugees(year) as real
  {
    PointsRefugeesNonNegative(points, TestCopyRates, YearsSince2022(year), PointSurface);
  }

  /** For any points, a year up to 2022 gives exactly 32 million. */
  lemma ListUpTo2022(points: seq<LatLon>, year: int)
    requires year <= 2022
    ensures ListEstimate(points, year) == 32000000
  {
  }

  /** After 2022 the result is at least 32 million plus the other-event refugees. */
  lemma ListAtLeastBaseAndOther(points: seq<LatLon>, year: int)
    requires year > 2022
    ensures ListEstimate(points, year) >= 32000000 + OtherClimaticRefugees(year)
  {
    TotalAtLeast(points, year);
    OtherAtLeastStart(year);
    TruncAtLeast(ListTotal(points, year), 32000000 + OtherClimaticRefugees(year));
  }

  /** Points inside no hull leave the result as for no points at all. */
  lemma OutsidePointsIgnored(points: seq<LatLon>, year: int)
    requires forall k :: 0 <= k < |points| ==> ClassifyLatLon(points[k]) == None
    ensures ListEstimate(points, year) == ListEstimate([], year)
  {
    OutsidePointsContributeNothing(points, TestCopyRates, YearsSince2022(year), PointSurface);
  }

  /** The three Pacific points of the ocean test give the same result as the empty list. */
  lemma OceanPointsTest()
    ensures ListEstimate([LatLon(0.0, -150.0), LatLon(-30.0, -120.0), LatLon(0.0, -100.0)], 2035) == ListEstimate([], 2035)
  {
    ClassifyOceanTestPoint();
    ClassifyOceanTestPoint2();
    ClassifyOceanTestPoint3();
    var points := [LatLon(0.0, -150.0), LatLon(-30.0, -120.0), LatLon(0.0, -100.0)];
    assert forall k :: 0 <= k < |points| ==> ClassifyLatLon(points[k]) == None by {
      forall k | 0 <= k < |points| ensures ClassifyLatLon(points[k]) == None {
        assert k == 0 || k == 1 || k == 2;
      }
    }
    OutsidePointsIgnored(points, 2035);
  }

  /** One point's share after 2022 is at least one refugee when a hull contains it. */
  lemma ShareAtLeastOne(p: LatLon, years: nat)
    requires ClassifyLatLon(p).Some?
    ensures PointRefugees(p, TestCopyRates, years, PointSurface) >= 1.0
  {
    var c := ClassifyLatLon(p).value;
    DensityAtLeastBase(c, TestCopyRates, years);
    assert BaseDensity(c) >= 5.2;
    assert PointSurface >= 12000.0;
    assert Density(c, TestCopyRates, years) * PointSurface >= 5.2 * 12000.0;
  }

  /** After 2022, adding a point inside a hull (in Asia, say) strictly raises the result. */
  lemma PointInHullIncreases(points: seq<LatLon>, p: LatLon, year: int)
    requires year > 2022 && ClassifyLatLon(p).Some?
    ensures ListEstimate(points + [p], year) > ListEstimate(points, year)
  {
    var years := YearsSince2022(year);
    PointsRefugeesSnoc(points, p, TestCopyRates, years, PointSurface);
    ShareAtLeastOne(p, years);
    TotalAtLeast(points, year);
    OtherAtLeastStart(year);
    TruncStrict(ListTotal(points, year), ListTotal(points + [p], year));
  }

  /** Ten copies of [40, 100] give more refugees than one copy. */
  lemma TenCopiesTest()
    ensures ListEstimate(seq(10, _ => LatLon(40.0, 100.0)), 2035) > ListEstimate([LatLon(40.0, 100.0)], 2035)
  {
    var p := LatLon(40.0, 100.0);
    var years := YearsSince2022(2035);
    ClassifyAsiaTestPoint();
    ShareAtLeastOne(p, years);
    RepeatedPoint(seq(10, _ => p), p, TestCopyRates, years, PointSurface);
    RepeatedPoint([p], p, TestCopyRates, years, PointSurface);
    TotalAtLeast([p], 2035);
    OtherAtLeastStart(2035);
    TruncStrict(ListTotal([p], 2035), ListTotal(seq(10, _ => p), 2035));
  }

  /** Years 2522 and 3022 give the same result for the same points: both offsets cap at 500. */
  lemma MaxYearTest(points: seq<LatLon>)
    ensures ListEstimate(points, 2522) == ListEstimate(points, 3022)
  {
    OtherConstantAfterCap(2522, 3022);
  }

  /** The all-Asia and the several-continent tests both exceed 32 million. */
  lemma AboveBaseTests()
    ensures ListEstimate([LatLon(40.0, 100.0), LatLon(45.0, 110.0), LatLon(35.0, 120.0)], 2035) > 32000000
    ensures ListEstimate([LatLon(40.0, 100.0), LatLon(0.0, 20.0), LatLon(50.0, -10.0), LatLon(-10.0, 140.0)], 2040) > 32000000
  {
    ListAtLeastBaseAndOther([LatLon(40.0, 100.0), LatLon(45.0, 110.0), LatLon(35.0, 120.0)], 2035);
    ListAtLeastBaseAndOther([LatLon(40.0, 100.0), LatLon(0.0, 20.0), LatLon(50.0, -10.0), LatLon(-10.0, 140.0)], 2040);
    OtherAtLeastStart(2035);
    OtherAtLeastStart(2040);
  }

  /** A list of four points contributes the four points' shares. */
  lemma FourPointsSum(a: LatLon, b: LatLon, c: LatLon, d: LatLon, r: Rates, years: nat, surface: real)
    ensures PointsRefugees([a, b, c, d], r, years, surface)
         == PointRefugees(a, r, years, surface) + PointRefugees(b, r, years, surface) + PointRefugees(c, r, years, surface) + PointRefugees(d, r, years, surface)
  {
    PointsRefugeesSnoc([], a, r, years, surface);
    PointsRefugeesSnoc([a], b, r, years, surface);
    PointsRefugeesSnoc([a, b], c, r, years, surface);
    PointsRefugeesSnoc([a, b, c], d, r, years, surface);
    assert [] + [a] == [a] && [a] + [b] == [a, b] && [a, b] + [c] == [a, b, c] && [a, b, c] + [d] == [a, b, c, d];
  }

  /** The share of a point whose first containing hull is `c`. */
  lemma ShareOf(p: LatLon, c: Continent, r: Rates, years: nat, surface: real)
    requires ClassifyLatLon(p) == Some(c)
    ensures PointRefugees(p, r, years, surface) == Density(c, r, years) * surface
  {
  }

  lemma Distribute(da: real, db: real, dc: real, s: real)
    ensures da * s + db * s + dc * s + da * s == (2.0 * da + db + dc) * s
  {
  }

  lemma AsiaPointShare(years: nat)
    ensures PointRefugees(LatLon(40.0, 100.0), TestCopyRates, years, PointSurface) == Density(Asia, TestCopyRates, years) * PointSurface
  {
    ClassifyAsiaTestPoint();
    ShareOf(LatLon(40.0, 100.0), Asia, TestCopyRates, years, PointSurface);
  }

  lemma AfricaPointShare(years: nat)
    ensures PointRefugees(LatLon(0.0, 20.0), TestCopyRates, years, PointSurface) == Density(Africa, TestCopyRates, years) * PointSurface
  {
    ClassifyAfricaTestPoint();
    ShareOf(LatLon(0.0, 20.0), Africa, TestCopyRates, years, PointSurface);
  }

  lemma EuropePointShare(years: nat)
    ensures PointRefugees(LatLon(50.0, -10.0), TestCopyRates, years, PointSurface) == Density(Europe, TestCopyRates, years) * PointSurface
  {
    ClassifyEuropeTestPoint();
    ShareOf(LatLon(50.0, -10.0), Europe, TestCopyRates, years, PointSurface);
  }

  /** The point labelled Oceania in the several-continent test is counted at Asia's density. */
  lemma OverlapPointShare(years: nat)
    ensures PointRefugees(LatLon(-10.0, 140.0), TestCopyRates, years, PointSurface) == Density(Asia, TestCopyRates, years) * PointSurface
  {
    ClassifyOverlapTestPoint();
    ShareOf(LatLon(-10.0, 140.0), Asia, TestCopyRates, years, PointSurface);
  }

  /**
   * The several-continent test counts [-10, 140], labelled Oceania, at
   * Asia's density: its points weigh twice Asia's, once Africa's and once
   * Europe's density.
   */
  lemma MultiContinentShares(years: nat)
    ensures PointsRefugees([LatLon(40.0, 100.0), LatLon(0.0, 20.0), LatLon(50.0, -10.0), LatLon(-10.0, 140.0)], TestCopyRates, years, PointSurface)
         == (2.0 * Density(Asia, TestCopyRates, years) + Density(Africa, TestCopyRates, years) + Density(Europe, TestCopyRates, years)) * PointSurface
  {
    FourPointsSum(LatLon(40.0, 100.0), LatLon(0.0, 20.0), LatLon(50.0, -10.0), LatLon(-10.0, 140.0), TestCopyRates, years, PointSurface);
    AsiaPointShare(years);
    AfricaPointShare(years);
    EuropePointShare(years);
    OverlapPointShare(years);
    Distribute(Density(Asia, TestCopyRates, years), Density(Africa, TestCopyRates, years), Density(Europe, TestCopyRates, years), PointSurface);
  }
}
