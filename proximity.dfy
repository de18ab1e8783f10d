/**
  Proximity classification of debris around the spacecraft, as done every
  500 ms by the simulation canvas, and the nearest-in-range target search used
  by the AI steering modes.

  Distances are taken as inputs: the canvas computes them with the host's
  square root, so every distance handed to this module is non-negative.
 */
module Proximity {

  import opened Options

  datatype Risk = Low | Medium | High

  /** The four filters of the classifier: three disjoint bands and the radar disc. */
  datatype Band = CriticalBand | CloseBand | MediumBand | RadarBand

  /** What one classification tick reports. */
  datatype Classification = Classification(
    inRange: nat,
    critical: nat,
    close: nat,
    medium: nat,
    risk: Risk)

  function Min(a: real, b: real): (r: real)
    ensures r <= a && r <= b
    ensures r == a || r == b
  {
    if a <= b then a else b
  }

  /** The radar setting (a slider value) scaled into scene units. */
  function RadarRadius(radarRange: real): real
  {
    radarRange * 10.0
  }

  /** Critical proximity: 30% of the radar radius, never more than 50 units. */
  function CriticalRange(radius: real): real
  {
    Min(50.0, radius * 0.3)
  }

  /** Close (warning) proximity: 60% of the radar radius, never more than 100 units. */
  function WarningRange(radius: real): real
  {
    Min(100.0, radius * 0.6)
  }

  /** A collision: closer than 10% of the radar radius, never more than 15 units (strictly). */
  function CollisionRange(radius: real): (r: real)
    ensures r <= 15.0
    ensures radius >= 0.0 ==> 0.0 <= r <= radius
    ensures radius <= 150.0 ==> r == radius * 0.1
  {
    Min(15.0, radius * 0.1)
  }

  lemma ThresholdsOrdered(radius: real)
    requires radius >= 0.0
    ensures 0.0 <= CollisionRange(radius) <= CriticalRange(radius) <= WarningRange(radius) <= radius
  {
  }

  predicate InBand(d: real, radius: real, b: Band)
  {
    match b
    case CriticalBand => d <= CriticalRange(radius)
    case CloseBand => d > CriticalRange(radius) && d <= WarningRange(radius)
    case MediumBand => d > WarningRange(radius) && d <= radius
    case RadarBand => d <= radius
  }

  /** The length of `ds.filter(d => InBand(d, radius, b))`. */
  function Count(ds: seq<real>, radius: real, b: Band): (n: nat)
    ensures n <= |ds|
  {
    if |ds| == 0 then 0
    else (if InBand(ds[0], radius, b) then 1 else 0) + Count(ds[1..], radius, b)
  }

  /** The if-chain that turns the band counts into a risk level. */
  function RiskLevel(critical: nat, close: nat, medium: nat): (r: Risk)
    ensures r == High <==> critical > 0
    ensures r == Medium <==> critical == 0 && (close > 0 || medium > 1)
    ensures r == Low <==> critical == 0 && close == 0 && medium <= 1
  {
    if critical > 0 then High
    else if close > 0 then Medium
    else if medium > 1 then Medium
    else Low
  }

  function Classify(ds: seq<real>, radarRange: real): (c: Classification)
    ensures c.inRange <= |ds|
  {
    var radius := RadarRadius(radarRange);
    var critical := Count(ds, radius, CriticalBand);
    var close := Count(ds, radius, CloseBand);
    var medium := Count(ds, radius, MediumBand);
    Classification(Count(ds, radius, RadarBand), critical, close, medium,
                   RiskLevel(critical, close, medium))
  }

  ghost predicate NonNegative(ds: seq<real>)
  {
    forall i :: 0 <= i < |ds| ==> 0.0 <= ds[i]
  }

  /** A distance lies in at most one of the three proximity bands. */
  lemma BandsDisjoint(d: real, radius: real)
    ensures !(InBand(d, radius, CriticalBand) && InBand(d, radius, CloseBand))
    ensures !(InBand(d, radius, CriticalBand) && InBand(d, radius, MediumBand))
    ensures !(InBand(d, radius, CloseBand) && InBand(d, radius, MediumBand))
  {
  }

  /** For a real distance, being inside the radar disc means being in exactly one band. */
  lemma BandsCoverRadar(d: real, radius: real)
    requires 0.0 <= d
    ensures InBand(d, radius, RadarBand) <==>
      InBand(d, radius, CriticalBand) || InBand(d, radius, CloseBand) || InBand(d, radius, MediumBand)
  {
    if radius >= 0.0 {
      ThresholdsOrdered(radius);
    }
  }

  /** The three band counts add up to the in-range count. */
  lemma {:induction false} BandCountsSum(ds: seq<real>, radius: real)
    requires NonNegative(ds)
    ensures Count(ds, radius, CriticalBand) + Count(ds, radius, CloseBand) + Count(ds, radius, MediumBand)
            == Count(ds, radius, RadarBand)
  {
    if |ds| > 0 {
      BandsCoverRadar(ds[0], radius);
      BandsDisjoint(ds[0], radius);
      BandCountsSum(ds[1..], radius);
    }
  }

  lemma {:induction false} CountPositive(ds: seq<real>, radius: real, b: Band)
    ensures Count(ds, radius, b) > 0 <==> exists i :: 0 <= i < |ds| && InBand(ds[i], radius, b)
  {
    if |ds| > 0 {
      CountPositive(ds[1..], radius, b);
      if InBand(ds[0], radius, b) {
        assert InBand(ds[0], radius, b);
      } else if Count(ds, radius, b) > 0 {
        var i :| 0 <= i < |ds| - 1 && InBand(ds[1..][i], radius, b);
        assert InBand(ds[i + 1], radius, b);
      } else {
        forall i | 0 <= i < |ds| ensures !InBand(ds[i], radius, b) {
          if i > 0 {
            assert ds[i] == ds[1..][i - 1];
          }
        }
      }
    }
  }

  lemma {:induction false} CountAboveOne(ds: seq<real>, radius: real, b: Band)
    ensures Count(ds, radius, b) > 1 <==>
      exists i, j :: 0 <= i < j < |ds| && InBand(ds[i], radius, b) && InBand(ds[j], radius, b)
  {
    if |ds| > 0 {
      var tail := ds[1..];
      CountAboveOne(tail, radius, b);
      CountPositive(tail, radius, b);
      if Count(ds, radius, b) > 1 {
        if InBand(ds[0], radius, b) {
          var j :| 0 <= j < |tail| && InBand(tail[j], radius, b);
          assert InBand(ds[j + 1], radius, b);
        } else {
          var i, j :| 0 <= i < j < |tail| && InBand(tail[i], radius, b) && InBand(tail[j], radius, b);
          assert InBand(ds[i + 1], radius, b) && InBand(ds[j + 1], radius, b);
        }
      } else {
        forall i, j | 0 <= i < j < |ds| && InBand(ds[i], radius, b)
          ensures !InBand(ds[j], radius, b)
        {
          assert ds[j] == tail[j - 1];
          if i > 0 {
            assert ds[i] == tail[i - 1];
          }
        }
      }
    }
  }

  /** High risk exactly when some debris is within the critical range. */
  lemma RiskHighIffCritical(ds: seq<real>, radarRange: real)
    ensures Classify(ds, radarRange).risk == High <==>
      exists i :: 0 <= i < |ds| && ds[i] <= CriticalRange(RadarRadius(radarRange))
  {
    var radius := RadarRadius(radarRange);
    CountPositive(ds, radius, CriticalBand);
    if Classify(ds, radarRange).risk == High {
      var i :| 0 <= i < |ds| && InBand(ds[i], radius, CriticalBand);
      assert ds[i] <= CriticalRange(radius);
    }
  }

  /**
    Medium risk exactly when nothing is critical and either something is in
    the close band or at least two particles are in the medium band; so a
    single medium-band particle still gives Low.
   */
  lemma RiskMediumIff(ds: seq<real>, radarRange: real)
    ensures var radius := RadarRadius(radarRange);
      Classify(ds, radarRange).risk == Medium <==>
        (forall i :: 0 <= i < |ds| ==> !InBand(ds[i], radius, CriticalBand)) &&
        ((exists i :: 0 <= i < |ds| && InBand(ds[i], radius, CloseBand)) ||
         (exists i, j :: 0 <= i < j < |ds| && InBand(ds[i], radius, MediumBand) && InBand(ds[j], radius, MediumBand)))
  {
    var radius := RadarRadius(radarRange);
    CountPositive(ds, radius, CriticalBand);
    CountPositive(ds, radius, CloseBand);
    CountAboveOne(ds, radius, MediumBand);
  }

  /** The reported near count (critical + close) never exceeds the reported in-range count. */
  lemma NearCountWithinRange(ds: seq<real>, radarRange: real)
    requires NonNegative(ds)
    ensures var c := Classify(ds, radarRange);
      c.critical + c.close + c.medium == c.inRange && c.critical + c.close <= c.inRange
  {
    BandCountsSum(ds, RadarRadius(radarRange));
  }

  /** Radar range 15: radius 150, critical 45, warning 90. */
  lemma RadarFifteenScenario()
    ensures CriticalRange(RadarRadius(15.0)) == 45.0 && WarningRange(RadarRadius(15.0)) == 90.0
    ensures InBand(40.0, 150.0, CriticalBand)
    ensures InBand(70.0, 150.0, CloseBand)
    ensures InBand(120.0, 150.0, MediumBand)
    ensures !InBand(200.0, 150.0, RadarBand)
    ensures Classify([120.0], 15.0).risk == Low
  {
  }

  /** The target of the AI modes: within the radar radius, nearest, first among equals. */
  ghost predicate IsNearestInRange(ds: seq<real>, radius: real, k: nat)
  {
    && k < |ds|
    && ds[k] <= radius
    && (forall j :: 0 <= j < |ds| && ds[j] <= radius ==> ds[k] <= ds[j])
    && (forall j :: 0 <= j < k && ds[j] <= radius ==> ds[k] < ds[j])
  }

  /** At most one particle is the nearest-in-range target. */
  lemma NearestIsUnique(ds: seq<real>, radius: real, k: nat, m: nat)
    requires IsNearestInRange(ds, radius, k) && IsNearestInRange(ds, radius, m)
    ensures k == m
  {
  }

  /**
    The scan over the debris list; `None` stands for the initial
    `closestDistance = Infinity` that no particle beat.
   */
  method NearestInRange(ds: seq<real>, radius: real) returns (target: Option<nat>)
    ensures target.None? <==> forall j :: 0 <= j < |ds| ==> ds[j] > radius
    ensures target.Some? ==> IsNearestInRange(ds, radius, target.value)
  {
    target := None;
    var i := 0;
    while i < |ds|
      invariant 0 <= i <= |ds|
      invariant target.None? <==> forall j :: 0 <= j < i ==> ds[j] > radius
      invariant target.Some? ==> target.value < i && ds[target.value] <= radius
      invariant target.Some? ==> forall j :: 0 <= j < i && ds[j] <= radius ==> ds[target.value] <= ds[j]
      invariant target.Some? ==> forall j :: 0 <= j < target.value && ds[j] <= radius ==> ds[target.value] < ds[j]
    {
      if ds[i] <= radius && (target.None? || ds[i] < ds[target.value]) {
        target := Some(i);
      }
      i := i + 1;
    }
  }
}
