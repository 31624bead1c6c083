/**
  The UK Daily Air Quality Index banding of calculateUkAqi: each particulate
  reading is mapped to a sub-index from 1 to 10 through a fixed ladder of
  inclusive upper bounds, and the reported index is the worse (larger) of the
  two sub-indices. Readings are unbounded naturals: the declared width of the
  reading globals is not part of this model, and every property below holds
  for any unsigned width.
*/
module UkAqi {
  import opened BreakpointTable

  /** PM2.5 ladder bounds, band 1 up to band 9; above the last is band 10. */
  const Pm25Breakpoints: seq<nat> := [11, 23, 35, 41, 47, 53, 58, 64, 70]

  /** PM10 ladder bounds, band 1 up to band 9; above the last is band 10. */
  const Pm10Breakpoints: seq<nat> := [16, 33, 50, 58, 66, 75, 83, 91, 100]

  /** The PM2.5 sub-index ladder, branch for branch. */
  function Pm25Band(reading: nat): (band: nat)
    ensures 1 <= band <= 10
  {
    if reading <= 11 then 1
    else if reading <= 23 then 2
    else if reading <= 35 then 3
    else if reading <= 41 then 4
    else if reading <= 47 then 5
    else if reading <= 53 then 6
    else if reading <= 58 then 7
    else if reading <= 64 then 8
    else if reading <= 70 then 9
    else 10
  }

  /** The PM10 sub-index ladder, branch for branch. */
  function Pm10Band(reading: nat): (band: nat)
    ensures 1 <= band <= 10
  {
    if reading <= 16 then 1
    else if reading <= 33 then 2
    else if reading <= 50 then 3
    else if reading <= 58 then 4
    else if reading <= 66 then 5
    else if reading <= 75 then 6
    else if reading <= 83 then 7
    else if reading <= 91 then 8
    else if reading <= 100 then 9
    else 10
  }

  /** The two pollutants the monitor bands. */
  datatype Pollutant = Pm25 | Pm10

  function Breakpoints(p: Pollutant): (bounds: seq<nat>)
    ensures |bounds| == 9 && StrictlyIncreasing(bounds)
  {
    match p
    case Pm25 => Pm25Breakpoints
    case Pm10 => Pm10Breakpoints
  }

  /** The ladder of one pollutant. */
  function SubIndex(p: Pollutant, reading: nat): nat {
    match p
    case Pm25 => Pm25Band(reading)
    case Pm10 => Pm10Band(reading)
  }

  /** Each hand-written ladder is the table reading of its own bounds. */
  lemma SubIndexIsTableBand(p: Pollutant, reading: nat)
    ensures SubIndex(p, reading) == Band(Breakpoints(p), reading)
  {
    var bounds := Breakpoints(p);
    var k := SubIndex(p, reading);
    BandUnique(bounds, reading, k);
  }

  /** Exactly one band: the sub-index is k precisely when the reading lies in band k's interval. */
  lemma SubIndexIff(p: Pollutant, reading: nat, k: nat)
    requires 1 <= k <= 10
    ensures SubIndex(p, reading) == k <==> InBand(Breakpoints(p), reading, k)
  {
  }

  /** Each bound is the top of its band and bound + 1 opens the next band. */
  lemma SubIndexAtBoundary(p: Pollutant, k: nat)
    requires k < 9
    ensures SubIndex(p, Breakpoints(p)[k]) == k + 1
    ensures SubIndex(p, Breakpoints(p)[k] + 1) == k + 2
  {
  }

  /** A larger reading never lowers the sub-index. */
  lemma SubIndexMonotone(p: Pollutant, r1: nat, r2: nat)
    requires r1 <= r2
    ensures SubIndex(p, r1) <= SubIndex(p, r2)
  {
  }

  /** Readings of 71 (PM2.5) or 101 (PM10) and above give the top band. */
  lemma SubIndexSaturates(p: Pollutant, reading: nat)
    requires reading > Breakpoints(p)[8]
    ensures SubIndex(p, reading) == 10
  {
  }

  /** The saturation thresholds written as readings. */
  lemma SaturationThresholds(pm25: nat, pm10: nat)
    ensures pm25 >= 71 ==> Pm25Band(pm25) == 10
    ensures pm10 >= 101 ==> Pm10Band(pm10) == 10
  {
  }

  /**
    The composite index: the PM10 sub-index when it is strictly greater,
    otherwise the PM2.5 sub-index. It is the maximum of the two.
  */
  function CompositeAqi(pm25: nat, pm10: nat): (aqi: nat)
    ensures 1 <= aqi <= 10
    ensures aqi >= Pm25Band(pm25) && aqi >= Pm10Band(pm10)
    ensures aqi == Pm25Band(pm25) || aqi == Pm10Band(pm10)
  {
    var pm25Index := Pm25Band(pm25);
    var pm10Index := Pm10Band(pm10);
    if pm10Index > pm25Index then pm10Index else pm25Index
  }

  /**
    On a tie the PM2.5 sub-index is written, which is the same number, so
    preferring PM10 on ties would report the same index.
  */
  lemma TieBreakIrrelevant(pm25: nat, pm10: nat)
    ensures CompositeAqi(pm25, pm10)
         == (if Pm10Band(pm10) >= Pm25Band(pm25) then Pm10Band(pm10) else Pm25Band(pm25))
  {
  }

  /** The composite rises with either reading. */
  lemma CompositeMonotone(pm25a: nat, pm10a: nat, pm25b: nat, pm10b: nat)
    requires pm25a <= pm25b && pm10a <= pm10b
    ensures CompositeAqi(pm25a, pm10a) <= CompositeAqi(pm25b, pm10b)
  {
  }

  /** One pollutant in the top band forces the composite to the top band. */
  lemma CompositeSaturates(pm25: nat, pm10: nat)
    requires pm25 >= 71 || pm10 >= 101
    ensures CompositeAqi(pm25, pm10) == 10
  {
  }

  /** Worked readings: one pollutant dominates, and the two extremes. */
  lemma CompositeExamples()
    ensures Pm25Band(5) == 1 && Pm10Band(90) == 8 && CompositeAqi(5, 90) == 8
    ensures Pm25Band(64) == 8 && Pm10Band(10) == 1 && CompositeAqi(64, 10) == 8
    ensures Pm25Band(65) == 9 && CompositeAqi(65, 10) == 9
    ensures CompositeAqi(0, 0) == 1
    ensures Pm25Band(255) == 10 && Pm10Band(255) == 10 && CompositeAqi(255, 255) == 10
  {
  }

  /**
    The globals calculateUkAqi works on: the two latest readings, which it
    only reads, and the reported index, which it overwrites.
  */
  class AirQualityState {
    var pm2p5PpdValue: nat
    var pm10p0PpdValue: nat
    var ukAqiValue: nat

    /** Readings as the sensor left them; the index starts unset (0). */
    constructor (pm25: nat, pm10: nat)
      ensures pm2p5PpdValue == pm25 && pm10p0PpdValue == pm10
      ensures ukAqiValue == 0
    {
      pm2p5PpdValue := pm25;
      pm10p0PpdValue := pm10;
      ukAqiValue := 0;
    }

    /** calculateUkAqi: band both readings and write the worse band. */
    method CalculateUkAqi()
      modifies this`ukAqiValue
      ensures ukAqiValue == CompositeAqi(pm2p5PpdValue, pm10p0PpdValue)
      ensures 1 <= ukAqiValue <= 10
      ensures ukAqiValue >= Pm25Band(pm2p5PpdValue) && ukAqiValue >= Pm10Band(pm10p0PpdValue)
      ensures pm2p5PpdValue == old(pm2p5PpdValue) && pm10p0PpdValue == old(pm10p0PpdValue)
    {
      var pm2p5Aqi: nat := 0;
      pm2p5Aqi := Pm25Band(pm2p5PpdValue);
      var pm10p0Aqi: nat := 0;
      pm10p0Aqi := Pm10Band(pm10p0PpdValue);
      if pm10p0Aqi > pm2p5Aqi {
        ukAqiValue := pm10p0Aqi;
      } else {
        ukAqiValue := pm2p5Aqi;
      }
    }
  }

  /** Recomputing with unchanged readings reports the same index again. */
  method RecalculateTwice(s: AirQualityState) returns (first: nat, second: nat)
    modifies s`ukAqiValue
    ensures first == second == s.ukAqiValue
    ensures s.pm2p5PpdValue == old(s.pm2p5PpdValue) && s.pm10p0PpdValue == old(s.pm10p0PpdValue)
  {
    s.CalculateUkAqi();
    first := s.ukAqiValue;
    s.CalculateUkAqi();
    second := s.ukAqiValue;
  }
}
