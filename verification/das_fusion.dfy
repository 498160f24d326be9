/**
 * Position fusion of the distributed-aperture simulator
 * (dist_aperture_sim/sim/fusion.py): the weight-averaged position of
 * (x, y, weight) samples, or the origin when the weights sum to almost
 * nothing. Floating-point sums are modelled by exact reals.
 */
module DasFusion {
  /** A position sample and its weight. */
  datatype Sample = Sample(x: real, y: real, weight: real)

  /** Weight sums at or below this value give the origin. */
  const MinWeightSum: real := 0.000000001

  function WeightSum(s: seq<Sample>): real
  {
    if |s| == 0 then 0.0 else WeightSum(s[..|s| - 1]) + s[|s| - 1].weight
  }

  function WeightedX(s: seq<Sample>): real
  {
    if |s| == 0 then 0.0 else WeightedX(s[..|s| - 1]) + s[|s| - 1].x * s[|s| - 1].weight
  }

  function WeightedY(s: seq<Sample>): real
  {
    if |s| == 0 then 0.0 else WeightedY(s[..|s| - 1]) + s[|s| - 1].y * s[|s| - 1].weight
  }

  /** fuse_positions. */
  function FusePositions(s: seq<Sample>): (r: (real, real))
    ensures WeightSum(s) <= MinWeightSum ==> r == (0.0, 0.0)
    ensures WeightSum(s) > MinWeightSum ==> r.0 * WeightSum(s) == WeightedX(s) && r.1 * WeightSum(s) == WeightedY(s)
  {
    var wsum := WeightSum(s);
    if wsum <= MinWeightSum then (0.0, 0.0)
    else (WeightedX(s) / wsum, WeightedY(s) / wsum)
  }

  /** One sample with more than the minimum weight fuses to its own position. */
  lemma SingleSample(p: Sample)
    requires p.weight > MinWeightSum
    ensures FusePositions([p]) == (p.x, p.y)
  {
    assert [p][..0] == [];
    assert WeightSum([p]) == p.weight;
    assert WeightedX([p]) == p.x * p.weight;
    assert WeightedY([p]) == p.y * p.weight;
    assert (p.x * p.weight) / p.weight == p.x;
    assert (p.y * p.weight) / p.weight == p.y;
  }

  /** With non-negative weights, lo * sum(w) <= sum(x * w) <= hi * sum(w) for bounds lo, hi of the xs. */
  lemma {:induction false} WeightedXBounds(s: seq<Sample>, lo: real, hi: real)
    requires forall i :: 0 <= i < |s| ==> s[i].weight >= 0.0 && lo <= s[i].x <= hi
    ensures lo * WeightSum(s) <= WeightedX(s) <= hi * WeightSum(s)
  {
    if |s| > 0 {
      var n := |s| - 1;
      WeightedXBounds(s[..n], lo, hi);
      var p := s[n];
      assert lo * p.weight <= p.x * p.weight <= hi * p.weight by {
        assert (p.x - lo) * p.weight >= 0.0;
        assert (hi - p.x) * p.weight >= 0.0;
      }
    }
  }

  lemma {:induction false} WeightedYBounds(s: seq<Sample>, lo: real, hi: real)
    requires forall i :: 0 <= i < |s| ==> s[i].weight >= 0.0 && lo <= s[i].y <= hi
    ensures lo * WeightSum(s) <= WeightedY(s) <= hi * WeightSum(s)
  {
    if |s| > 0 {
      var n := |s| - 1;
      WeightedYBounds(s[..n], lo, hi);
      var p := s[n];
      assert lo * p.weight <= p.y * p.weight <= hi * p.weight by {
        assert (p.y - lo) * p.weight >= 0.0;
        assert (hi - p.y) * p.weight >= 0.0;
      }
    }
  }

  lemma DivideBounds(lo: real, hi: real, v: real, w: real)
    requires w > 0.0 && lo * w <= v <= hi * w
    ensures lo <= v / w <= hi
  {
    assert v / w * w == v;
  }

  /**
   * With non-negative weights and a fused (non-origin) result, the fused
   * position lies within the samples' x and y ranges.
   */
  lemma FusedWithinRange(s: seq<Sample>, xlo: real, xhi: real, ylo: real, yhi: real)
    requires forall i :: 0 <= i < |s| ==> s[i].weight >= 0.0 && xlo <= s[i].x <= xhi && ylo <= s[i].y <= yhi
    requires WeightSum(s) > MinWeightSum
    ensures xlo <= FusePositions(s).0 <= xhi
    ensures ylo <= FusePositions(s).1 <= yhi
  {
    var w, wx, wy := WeightSum(s), WeightedX(s), WeightedY(s);
    WeightedXBounds(s, xlo, xhi);
    WeightedYBounds(s, ylo, yhi);
    DivideBounds(xlo, xhi, wx, w);
    DivideBounds(ylo, yhi, wy, w);
    assert FusePositions(s) == (wx / w, wy / w);
  }
}
