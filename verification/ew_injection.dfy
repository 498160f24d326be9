/**
 * Electronic-warfare effects on sensor data: false-target injection
 * (dist_aperture_sim/sim/ew_simulator.py inject_false_targets and
 * irst/sim/ew.py inject_false_detections, which share one body), SNR
 * jamming and angle bias.
 *
 * The random draws are parameters: random.choice as the index it picks
 * (below the list's length) and random.uniform(a, b) as a + (b - a) * u
 * with u the random.random() value in [0, 1).
 */
module EwInjection {
  import opened Common

  type Point = (real, real)

  /** The draws of one injected point: the chosen original and the two uniform variates. */
  datatype Draw = Draw(pick: nat, ux: real, uy: real)

  /** The default spread, in metres. */
  const DefaultSpread: real := 500.0

  /** random.uniform(a, b) given the random.random() value u. */
  function Uniform(a: real, b: real, u: real): real
  {
    a + (b - a) * u
  }

  predicate UnitDraw(d: Draw)
  {
    0.0 <= d.ux < 1.0 && 0.0 <= d.uy < 1.0
  }

  /** uniform(-s, s) lies within |s| of zero. */
  lemma UniformWithin(s: real, u: real)
    requires 0.0 <= u < 1.0
    ensures AbsReal(Uniform(-s, s, u)) <= AbsReal(s)
  {
    assert Uniform(-s, s, u) == s * (2.0 * u - 1.0);
    assert -1.0 <= 2.0 * u - 1.0 < 1.0;
    if s >= 0.0 {
      assert s * (2.0 * u - 1.0) <= s * 1.0 by { assert s * (1.0 - (2.0 * u - 1.0)) >= 0.0; }
      assert s * (2.0 * u - 1.0) >= s * -1.0 by { assert s * ((2.0 * u - 1.0) + 1.0) >= 0.0; }
    } else {
      assert s * (2.0 * u - 1.0) >= s * 1.0 by { assert (-s) * (1.0 - (2.0 * u - 1.0)) >= 0.0; }
      assert s * (2.0 * u - 1.0) <= s * -1.0 by { assert (-s) * ((2.0 * u - 1.0) + 1.0) >= 0.0; }
    }
  }

  // ---------------------------------------------------------------------
  // False targets

  /** The false point one draw produces: the chosen original moved by uniform(-spread, spread) on each axis. */
  function FalsePoint(points: seq<Point>, d: Draw, spread: real): Point
    requires d.pick < |points|
  {
    var p := points[d.pick];
    (p.0 + Uniform(-spread, spread, d.ux), p.1 + Uniform(-spread, spread, d.uy))
  }

  predicate PicksIn(draws: seq<Draw>, n: nat)
  {
    forall k :: 0 <= k < |draws| ==> draws[k].pick < n
  }

  /** The false points of a run of draws, in draw order. */
  function FalsePoints(points: seq<Point>, draws: seq<Draw>, spread: real): (r: seq<Point>)
    requires PicksIn(draws, |points|)
    ensures |r| == |draws|
  {
    if |draws| == 0 then []
    else FalsePoints(points, draws[..|draws| - 1], spread) + [FalsePoint(points, draws[|draws| - 1], spread)]
  }

  /** The number of loop rounds that inject a point: count when there is a point to copy, else none. */
  function Rounds(points: seq<Point>, count: int): nat
  {
    if |points| == 0 || count <= 0 then 0 else count
  }

  /**
   * The injection loop: a copy of the points, then one false point per
   * round for `count` rounds while there is a point to copy. `draws`
   * holds the draws of those rounds.
   */
  method InjectFalsePoints(points: seq<Point>, count: int, spread: real, draws: seq<Draw>) returns (out: seq<Point>)
    requires |draws| >= Rounds(points, count) && PicksIn(draws, |points|)
    ensures out == points + FalsePoints(points, draws[..Rounds(points, count)], spread)
  {
    out := points;
    var used := 0;
    var round := 0;
    while round < count
      invariant 0 <= round <= (if count <= 0 then 0 else count)
      invariant used == (if |points| == 0 then 0 else round)
      invariant out == points + FalsePoints(points, draws[..used], spread)
    {
      if |points| > 0 {
        assert draws[..used + 1][..used] == draws[..used];
        var d := draws[used];
        var p := points[d.pick];
        out := out + [(p.0 + Uniform(-spread, spread, d.ux), p.1 + Uniform(-spread, spread, d.uy))];
        used := used + 1;
      }
      round := round + 1;
    }
  }

  /** With unit draws, each false point lies within |spread| of its chosen original on both axes. */
  lemma {:induction false} InjectedRule(points: seq<Point>, draws: seq<Draw>, spread: real)
    requires PicksIn(draws, |points|)
    requires forall k :: 0 <= k < |draws| ==> UnitDraw(draws[k])
    ensures forall k :: 0 <= k < |draws| ==>
      var q := FalsePoints(points, draws, spread)[k];
      var p := points[draws[k].pick];
      AbsReal(q.0 - p.0) <= AbsReal(spread) && AbsReal(q.1 - p.1) <= AbsReal(spread)
  {
    if |draws| > 0 {
      var n := |draws| - 1;
      InjectedRule(points, draws[..n], spread);
      UniformWithin(spread, draws[n].ux);
      UniformWithin(spread, draws[n].uy);
      forall k | 0 <= k < n
        ensures draws[..n][k] == draws[k]
      {
      }
    }
  }

  // ---------------------------------------------------------------------
  // Jamming and angle bias

  /** apply_jamming_snr: the SNR less the reduction, never below zero. */
  function JammedSnr(snrDb: real, reductionDb: real): (r: real)
    ensures r >= 0.0 && r >= snrDb - reductionDb
    ensures r == 0.0 || r == snrDb - reductionDb
  {
    if 0.0 >= snrDb - reductionDb then 0.0 else snrDb - reductionDb
  }

  /** Jamming keeps the order of SNRs and never raises a non-negative SNR. */
  lemma JammingRule(s1: real, s2: real, reduction: real)
    ensures s1 <= s2 ==> JammedSnr(s1, reduction) <= JammedSnr(s2, reduction)
    ensures reduction >= 0.0 && s1 >= 0.0 ==> JammedSnr(s1, reduction) <= s1
    ensures reduction >= s1 ==> JammedSnr(s1, reduction) == 0.0
  {
  }

  /** apply_angle_bias: each angle moved by its own uniform(-bias, bias) draw. */
  function AngleBias(azDeg: real, elDeg: real, biasDeg: real, uAz: real, uEl: real): (real, real)
  {
    (azDeg + Uniform(-biasDeg, biasDeg, uAz), elDeg + Uniform(-biasDeg, biasDeg, uEl))
  }

  /** The bias moves each angle by at most |bias|; a mid-range draw leaves the angle unchanged. */
  lemma AngleBiasBounded(az: real, el: real, bias: real, uAz: real, uEl: real)
    requires 0.0 <= uAz < 1.0 && 0.0 <= uEl < 1.0
    ensures AbsReal(AngleBias(az, el, bias, uAz, uEl).0 - az) <= AbsReal(bias)
    ensures AbsReal(AngleBias(az, el, bias, uAz, uEl).1 - el) <= AbsReal(bias)
    ensures uAz == 0.5 ==> AngleBias(az, el, bias, uAz, uEl).0 == az
  {
    UniformWithin(bias, uAz);
    UniformWithin(bias, uEl);
  }
}
