/**
 * The one piece of Class_Controller.py that computes something: the count
 * of refugees for the chosen year. The sea level the resolver gives for that
 * year and scenario is the upper end of the band, and the reference
 * elevation of 2022 is its lower end.
 */
module Controller {
  import opened Wrappers
  import opened Estimator
  import opened Elevation
  import opened SeaLevelModel

  /** The sea level of 2022 the band starts from, in metres. */
  const ReferenceElevation: real := 0.21

  /**
   * count_refugees: compute_refugees(chosen year, sea level for that year
   * and scenario, 0.21). When the resolver has no sea level (a year outside
   * the table with a scenario outside 1 to 4) nothing is counted.
   */
  method CountRefugees(elevation: ElevationData, sea: SeaLevel, year: int, scenario: int, rpow: (real, real) -> real) returns (r: Option<Shown>)
    ensures sea.RetrieveSeaLevel(year, scenario, rpow).None? <==> r.None?
    ensures sea.RetrieveSeaLevel(year, scenario, rpow).Some? ==>
      r == Display(IndexEstimate(elevation.elevationDict, year, sea.RetrieveSeaLevel(year, scenario, rpow).value, ReferenceElevation))
  {
    var level := sea.RetrieveSeaLevel(year, scenario, rpow);
    match level
    case None =>
      r := None;
    case Some(seaLevel) =>
      var total, shown := elevation.ComputeRefugees(year, seaLevel, ReferenceElevation);
      r := shown;
  }

  /**
   * The index keys are whole metres, so a band from 0.21 m up to a sea level
   * of at most 1 m holds none of them: only the other climatic events add to
   * the 32 million.
   */
  lemma SubMetreSeaLevelFloodsNothing(d: seq<Bucket>, year: int, seaLevel: real)
    requires year > 2022 && seaLevel <= 1.0
    ensures IndexEstimate(d, year, seaLevel, ReferenceElevation) == 32000000.0 + OtherClimaticRefugees(year) as real
  {
    forall k | 0 <= k < |d|
      ensures !InBand(d[k].elev, seaLevel, ReferenceElevation)
    {
      if d[k].elev as real >= ReferenceElevation {
        assert d[k].elev >= 1;
      }
    }
    EstimateEmptyBand(d, year, seaLevel, ReferenceElevation);
  }
}
