/**
 * The pieces both refugee estimators share: the clamped number of years
 * since 2022, the refugees attributed to climatic events other than sea
 * level rise, and the contribution of one flooded point, which is the
 * density of the first continent hull containing it times the area the
 * point stands for.
 */
module Estimator {
  import opened Wrappers
  import opened Numerics
  import opened PointInPolygon
  import opened Continents

  /** Refugees counted in 2022, the starting value of both estimators. */
  const BaseRefugees: real := 32000000.0

  /** Kilometres in one degree of latitude, and in one of longitude. */
  const OneDegree: real := 111.320

  /**
   * The offset of compute_refugees: `max(0, year - 2022)`, then replaced by
   * 500 when `year - 2022 > 500`.
   */
  function YearsSince2022(year: int): (n: nat)
    ensures n <= 500
    ensures year <= 2022 ==> n == 0
    ensures 2022 <= year <= 2522 ==> n == year - 2022
    ensures year >= 2522 ==> n == 500
  {
    var n := if year - 2022 > 0 then year - 2022 else 0;
    if year - 2022 > 500 then 500 else n
  }

  /** The offset of estimate_other_climatic_refugees: `max(0, min(500, year - 2022))`. */
  function YearsPassed(year: int): nat
  {
    var m := if 500 < year - 2022 then 500 else year - 2022;
    if 0 < m then m else 0
  }

  /** The two ways the source clamps the offset agree on every year. */
  lemma ClampsAgree(year: int)
    ensures YearsPassed(year) == YearsSince2022(year)
  {
  }

  /** The climate features the estimator starts from. */
  const DroughtIndex: real := 1.0
  const FloodRisk: real := 1.0
  const HeatwaveDays: real := 10.0
  const WildfireRisk: real := 1.0

  /** Each feature after `t` years, as the source rounds it. */
  function Drought(t: nat): real { RoundTo(DroughtIndex + 0.0175 * t as real, 100.0) }
  function Flood(t: nat): real { RoundTo(FloodRisk + 0.017 * t as real, 100.0) }
  function Heat(t: nat): int { Trunc(HeatwaveDays + 0.8 * t as real) }
  function Wildfire(t: nat): real { RoundTo(WildfireRisk + 0.0175 * t as real, 100.0) }

  /** The weighted sum of the features after `t` years, before truncation. */
  function OtherWeighted(t: nat): real
  {
    Drought(t) * 10000000.0 + Flood(t) * 35000000.0 + Heat(t) as real * 2000000.0 + Wildfire(t) * 3000000.0
  }

  /** estimate_other_climatic_refugees(year). */
  function OtherClimaticRefugees(year: int): int
  {
    Trunc(OtherWeighted(YearsPassed(year)))
  }

  /** With no year elapsed every feature keeps its base value: 10e6 + 35e6 + 10 * 2e6 + 3e6. */
  lemma OtherAtStart(year: int)
    requires year <= 2022
    ensures OtherClimaticRefugees(year) == 68000000
  {
    assert YearsPassed(year) == 0;
    assert Drought(0) == 1.0 && Flood(0) == 1.0 && Wildfire(0) == 1.0 by {
      assert RoundHalfEven(100.0) == 100;
    }
    assert Heat(0) == 10;
  }

  /** Each rounded feature grows with the years elapsed. */
  lemma FeaturesMonotone(s: nat, t: nat)
    requires s <= t
    ensures Drought(s) <= Drought(t) && Flood(s) <= Flood(t) && Wildfire(s) <= Wildfire(t) && Heat(s) <= Heat(t)
  {
    RoundToMonotone(DroughtIndex + 0.0175 * s as real, DroughtIndex + 0.0175 * t as real, 100.0);
    RoundToMonotone(FloodRisk + 0.017 * s as real, FloodRisk + 0.017 * t as real, 100.0);
    RoundToMonotone(WildfireRisk + 0.0175 * s as real, WildfireRisk + 0.0175 * t as real, 100.0);
    TruncMonotone(HeatwaveDays + 0.8 * s as real, HeatwaveDays + 0.8 * t as real);
  }

  /** The weighted sum grows with the years elapsed. */
  lemma OtherWeightedMonotone(s: nat, t: nat)
    requires s <= t
    ensures OtherWeighted(s) <= OtherWeighted(t)
  {
    FeaturesMonotone(s, t);
    var d1, d2 := Drought(s), Drought(t);
    var f1, f2 := Flood(s), Flood(t);
    var h1, h2 := Heat(s) as real, Heat(t) as real;
    var w1, w2 := Wildfire(s), Wildfire(t);
    assert d1 * 10000000.0 + f1 * 35000000.0 + h1 * 2000000.0 + w1 * 3000000.0
        <= d2 * 10000000.0 + f2 * 35000000.0 + h2 * 2000000.0 + w2 * 3000000.0;
  }

  /** The other-event estimate never decreases from one year to a later one. */
  lemma OtherMonotone(y1: int, y2: int)
    requires y1 <= y2
    ensures OtherClimaticRefugees(y1) <= OtherClimaticRefugees(y2)
  {
    OtherWeightedMonotone(YearsPassed(y1), YearsPassed(y2));
    OtherAtStartWeighted();
    TruncMonotone(OtherWeighted(YearsPassed(y1)), OtherWeighted(YearsPassed(y2)));
  }

  lemma OtherAtStartWeighted()
    ensures OtherWeighted(0) == 68000000.0
  {
    assert RoundHalfEven(100.0) == 100;
    assert Heat(0) == 10;
  }

  /** Every year gets at least the 68 million of 2022. */
  lemma OtherAtLeastStart(year: int)
    ensures OtherClimaticRefugees(year) >= 68000000
  {
    OtherAtStart(2022);
    OtherMonotone(2022, if year < 2022 then 2022 else year);
    assert YearsPassed(year) == YearsPassed(if year < 2022 then 2022 else year);
  }

  /** From 2522 on the offset is capped, so the estimate no longer changes. */
  lemma OtherConstantAfterCap(y1: int, y2: int)
    requires 2522 <= y1 && 2522 <= y2
    ensures OtherClimaticRefugees(y1) == OtherClimaticRefugees(y2)
  {
  }

  /** The refugees a point stands for once its hull is known: the hull's density times `surface`, or none. */
  function Share(found: Option<Continent>, r: Rates, years: nat, surface: real): real
  {
    match found
    case None => 0.0
    case Some(c) => Density(c, r, years) * surface
  }

  /** The refugees one flooded point stands for: the density of its first containing hull times `surface`, or none. */
  function PointRefugees(coord: LatLon, r: Rates, years: nat, surface: real): real
  {
    Share(ClassifyLatLon(coord), r, years, surface)
  }

  /** The sum of PointRefugees over `points`, in list order. */
  function PointsRefugees(points: seq<LatLon>, r: Rates, years: nat, surface: real): real
  {
    if |points| == 0 then 0.0
    else PointsRefugees(points[..|points| - 1], r, years, surface) + PointRefugees(points[|points| - 1], r, years, surface)
  }

  /** Summing a list followed by one more point. */
  lemma PointsRefugeesSnoc(points: seq<LatLon>, p: LatLon, r: Rates, years: nat, surface: real)
    ensures PointsRefugees(points + [p], r, years, surface) == PointsRefugees(points, r, years, surface) + PointRefugees(p, r, years, surface)
  {
    assert (points + [p])[..|points|] == points;
  }

  /** A share is nothing or a positive amount, the latter exactly when a hull was found. */
  lemma ShareSign(found: Option<Continent>, r: Rates, years: nat, surface: real)
    requires NonNegative(r) && surface > 0.0
    ensures Share(found, r, years, surface) >= 0.0
    ensures Share(found, r, years, surface) > 0.0 <==> found.Some?
  {
    match found
    case None =>
    case Some(c) =>
      DensityAtLeastBase(c, r, years);
      assert Density(c, r, years) * surface > 0.0;
  }

  /** A point contributes nothing or a positive amount, the latter exactly when a hull contains it. */
  lemma PointRefugeesSign(coord: LatLon, r: Rates, years: nat, surface: real)
    requires NonNegative(r) && surface > 0.0
    ensures PointRefugees(coord, r, years, surface) >= 0.0
    ensures PointRefugees(coord, r, years, surface) > 0.0 <==> ClassifyLatLon(coord).Some?
  {
    ShareSign(ClassifyLatLon(coord), r, years, surface);
  }

  /** With non-negative rates and area, flooded points never lower the count. */
  lemma {:induction false} PointsRefugeesNonNegative(points: seq<LatLon>, r: Rates, years: nat, surface: real)
    requires NonNegative(r) && surface > 0.0
    ensures PointsRefugees(points, r, years, surface) >= 0.0
  {
    if |points| > 0 {
      PointsRefugeesNonNegative(points[..|points| - 1], r, years, surface);
      PointRefugeesSign(points[|points| - 1], r, years, surface);
    }
  }

  /** A share grows with the years elapsed. */
  lemma ShareMonotone(found: Option<Continent>, r: Rates, m: nat, n: nat, surface: real)
    requires NonNegative(r) && surface > 0.0 && m <= n
    ensures Share(found, r, m, surface) <= Share(found, r, n, surface)
  {
    match found
    case None =>
    case Some(c) =>
      DensityMonotone(c, r, m, n);
      ScaleMonotone(Density(c, r, m), Density(c, r, n), surface);
  }

  /** One point's share grows with the years elapsed. */
  lemma PointRefugeesMonotone(coord: LatLon, r: Rates, m: nat, n: nat, surface: real)
    requires NonNegative(r) && surface > 0.0 && m <= n
    ensures PointRefugees(coord, r, m, surface) <= PointRefugees(coord, r, n, surface)
  {
    ShareMonotone(ClassifyLatLon(coord), r, m, n, surface);
  }

  /** The flooded points' total grows with the years elapsed. */
  lemma {:induction false} PointsRefugeesMonotone(points: seq<LatLon>, r: Rates, m: nat, n: nat, surface: real)
    requires NonNegative(r) && surface > 0.0 && m <= n
    ensures PointsRefugees(points, r, m, surface) <= PointsRefugees(points, r, n, surface)
  {
    if |points| > 0 {
      PointsRefugeesMonotone(points[..|points| - 1], r, m, n, surface);
      PointRefugeesMonotone(points[|points| - 1], r, m, n, surface);
    }
  }

  /** Points inside no hull contribute nothing at all. */
  lemma {:induction false} OutsidePointsContributeNothing(points: seq<LatLon>, r: Rates, years: nat, surface: real)
    requires forall k :: 0 <= k < |points| ==> ClassifyLatLon(points[k]) == None
    ensures PointsRefugees(points, r, years, surface) == 0.0
  {
    if |points| > 0 {
      OutsidePointsContributeNothing(points[..|points| - 1], r, years, surface);
      assert ClassifyLatLon(points[|points| - 1]) == None;
    }
  }

  /** A list made of one point repeated contributes its length times that point's share. */
  lemma {:induction false} RepeatedPoint(points: seq<LatLon>, p: LatLon, r: Rates, years: nat, surface: real)
    requires forall k :: 0 <= k < |points| ==> points[k] == p
    ensures PointsRefugees(points, r, years, surface) == |points| as real * PointRefugees(p, r, years, surface)
  {
    if |points| > 0 {
      RepeatedPoint(points[..|points| - 1], p, r, years, surface);
      ScaleStep(|points|, PointRefugees(p, r, years, surface));
    }
  }

  lemma ScaleStep(n: nat, share: real)
    requires n > 0
    ensures (n - 1) as real * share + share == n as real * share
  {
  }

  /** How compute_refugees of the elevation index shows its total, when it binds a value at all. */
  datatype Magnitude = Billion | Million
  datatype Shown = Shown(value: real, unit: Magnitude)

  /** Billions above 1e9, millions above 1e6, each to three decimals; otherwise nothing is bound. */
  function Display(total: real): (s: Option<Shown>)
    ensures total > 1000000000.0 ==> s.Some? && s.value.unit == Billion
    ensures 1000000.0 < total <= 1000000000.0 ==> s.Some? && s.value.unit == Million
    ensures total <= 1000000.0 <==> s.None?
  {
    if total > 1000000000.0 then Some(Shown(RoundTo(total / 1000000000.0, 1000.0), Billion))
    else if total > 1000000.0 then Some(Shown(RoundTo(total / 1000000.0, 1000.0), Million))
    else None
  }
}
