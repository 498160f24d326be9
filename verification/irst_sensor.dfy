/**
 * The IRST sensor front end (irst/sim/irst_sensor.py): turning targets
 * into angle detections and projecting angles onto the image plane.
 *
 * The line-of-sight geometry (sqrt, atan2) and the Gaussian angle noise
 * of observe are not computed here: each target's measured range and
 * noisy angles come in as a Look, one per target.
 */
module IrstSensor {
  import opened Common

  datatype Target = Target(
    targetId: string, xM: real, yM: real, zM: real, vxMps: real, vyMps: real,
    irSignature: real, stealthLevel: real)

  datatype Detection = Detection(detectionId: string, azDeg: real, elDeg: real, snrDb: real, confidence: real)

  datatype Sensor = Sensor(
    sensorId: string, xM: real, yM: real, zM: real, fovDeg: real, width: int, height: int, angleNoiseDeg: real)

  /** The default field of view (40 degrees) and resolution (640 x 480). */
  function DefaultSensor(id: string, x: real, y: real, z: real): Sensor
  {
    Sensor(id, x, y, z, 40.0, 640, 480, 0.1)
  }

  /** A target's range and measured (noisy) azimuth and elevation, in metres and degrees. */
  datatype Look = Look(rangeM: real, azDeg: real, elDeg: real)

  // ---------------------------------------------------------------------
  // Detection

  /** A look is reported when both angles are within half the field of view. */
  predicate InFov(s: Sensor, l: Look)
  {
    AbsReal(l.azDeg) <= s.fovDeg / 2.0 && AbsReal(l.elDeg) <= s.fovDeg / 2.0
  }

  /** The SNR: 20 dB falling 0.01 dB per metre, scaled by the signature left after stealth, at least 1. */
  function SnrOf(t: Target, l: Look): (snr: real)
    ensures snr >= 1.0
    ensures snr == 1.0 || snr == (20.0 - 0.01 * l.rangeM) * (t.irSignature * (1.0 - 0.7 * t.stealthLevel))
  {
    MaxReal(1.0, (20.0 - 0.01 * l.rangeM) * (t.irSignature * (1.0 - 0.7 * t.stealthLevel)))
  }

  /** The confidence: 0.5 plus 0.02 per dB of SNR, capped at 1. */
  function ConfidenceOf(snr: real): (conf: real)
    ensures conf <= 1.0
    ensures snr >= 1.0 ==> conf >= 0.52
    ensures conf == 1.0 || conf == 0.5 + 0.02 * snr
  {
    MinReal(1.0, 0.5 + 0.02 * snr)
  }

  function DetectionOf(t: Target, l: Look, idx: nat): Detection
  {
    var snr := SnrOf(t, l);
    Detection("D_" + Decimal(idx), l.azDeg, l.elDeg, snr, ConfidenceOf(snr))
  }

  /** The detections observe reports for targets[..n], in target order. */
  function Observations(s: Sensor, targets: seq<Target>, looks: seq<Look>): seq<Detection>
    requires |looks| == |targets|
  {
    if |targets| == 0 then []
    else
      var n := |targets| - 1;
      var prev := Observations(s, targets[..n], looks[..n]);
      if InFov(s, looks[n]) then prev + [DetectionOf(targets[n], looks[n], n)] else prev
  }

  /**
   * Every detection comes from an in-view target, at its index, with
   * SNR at least 1 and confidence in [0.52, 1]; every in-view target
   * gives one.
   */
  lemma {:induction false} ObservationsSound(s: Sensor, targets: seq<Target>, looks: seq<Look>)
    requires |looks| == |targets|
    ensures |Observations(s, targets, looks)| <= |targets|
    ensures forall d :: d in Observations(s, targets, looks) ==>
      && d.snrDb >= 1.0 && 0.52 <= d.confidence <= 1.0
      && AbsReal(d.azDeg) <= s.fovDeg / 2.0 && AbsReal(d.elDeg) <= s.fovDeg / 2.0
      && exists i :: 0 <= i < |targets| && InFov(s, looks[i]) && d == DetectionOf(targets[i], looks[i], i)
    ensures forall i :: 0 <= i < |targets| && InFov(s, looks[i]) ==>
      DetectionOf(targets[i], looks[i], i) in Observations(s, targets, looks)
  {
    if |targets| > 0 {
      var n := |targets| - 1;
      ObservationsSound(s, targets[..n], looks[..n]);
      forall d | d in Observations(s, targets[..n], looks[..n])
        ensures exists i :: 0 <= i < |targets| && InFov(s, looks[i]) && d == DetectionOf(targets[i], looks[i], i)
      {
        var i :| 0 <= i < n && InFov(s, looks[..n][i]) && d == DetectionOf(targets[..n][i], looks[..n][i], i);
        assert looks[..n][i] == looks[i] && targets[..n][i] == targets[i];
      }
      forall i | 0 <= i < n && InFov(s, looks[i])
        ensures DetectionOf(targets[i], looks[i], i) in Observations(s, targets, looks)
      {
        assert looks[..n][i] == looks[i] && targets[..n][i] == targets[i];
      }
    }
  }

  /** A detection's id is "D_" followed by its target's index. */
  lemma DetectionIds(t: Target, l: Look, idx: nat)
    ensures DetectionOf(t, l, idx).detectionId[..2] == "D_"
    ensures ParseDecimal(DetectionOf(t, l, idx).detectionId[2..]) == idx
  {
    var id := DetectionOf(t, l, idx).detectionId;
    assert id[2..] == Decimal(idx);
    ParseDecimalOfDecimal(idx);
  }

  /** observe: append a detection for every target whose look falls within the field of view. */
  method Observe(s: Sensor, targets: seq<Target>, looks: seq<Look>) returns (out: seq<Detection>)
    requires |looks| == |targets|
    ensures out == Observations(s, targets, looks)
  {
    out := [];
    var idx := 0;
    while idx < |targets|
      invariant 0 <= idx <= |targets|
      invariant out == Observations(s, targets[..idx], looks[..idx])
    {
      assert targets[..idx + 1][..idx] == targets[..idx];
      assert looks[..idx + 1][..idx] == looks[..idx];
      assert targets[..idx + 1][idx] == targets[idx] && looks[..idx + 1][idx] == looks[idx];
      var l := looks[idx];
      if AbsReal(l.azDeg) <= s.fovDeg / 2.0 && AbsReal(l.elDeg) <= s.fovDeg / 2.0 {
        var snr := MaxReal(1.0, (20.0 - 0.01 * l.rangeM) * (targets[idx].irSignature * (1.0 - 0.7 * targets[idx].stealthLevel)));
        var conf := MinReal(1.0, 0.5 + 0.02 * snr);
        assert snr == SnrOf(targets[idx], l);
        out := out + [Detection("D_" + Decimal(idx), l.azDeg, l.elDeg, snr, conf)];
      }
      idx := idx + 1;
    }
    assert targets[..|targets|] == targets && looks[..|looks|] == looks;
  }

  // ---------------------------------------------------------------------
  // Projection onto the image

  /** max(0, min(hi, v)). */
  function ClampPixel(v: int, hi: int): (r: int)
    ensures r >= 0
    ensures hi >= 0 ==> r <= hi
    ensures 0 <= v <= hi ==> r == v
  {
    var m := if hi <= v then hi else v;
    if 0 >= m then 0 else m
  }

  /** The unclamped pixel coordinate of an angle: the angle's fraction of the half field of view, scaled to half the image, from the centre. */
  function PixelOf(angle: real, fovDeg: real, size: int): int
    requires fovDeg != 0.0
  {
    TruncToInt((angle / (fovDeg / 2.0)) * (size as real / 2.0) + size as real / 2.0)
  }

  /**
   * project_to_image: the clamped pixel of (az, -el); a zero field of
   * view divides by zero.
   */
  function ProjectToImage(s: Sensor, azDeg: real, elDeg: real): (r: Result<(int, int)>)
    ensures r.Fail? <==> s.fovDeg == 0.0
    ensures r.Fail? ==> r.error == ZeroDivisionError
    ensures r.Ok? ==> 0 <= r.value.0 && 0 <= r.value.1
    ensures r.Ok? && s.width >= 1 ==> r.value.0 <= s.width - 1
    ensures r.Ok? && s.height >= 1 ==> r.value.1 <= s.height - 1
  {
    if s.fovDeg == 0.0 then Fail(ZeroDivisionError)
    else
      var x := PixelOf(azDeg, s.fovDeg, s.width);
      var y := PixelOf(-elDeg, s.fovDeg, s.height);
      Ok((ClampPixel(x, s.width - 1), ClampPixel(y, s.height - 1)))
  }

  lemma TruncMonotone(a: real, b: real)
    requires a <= b
    ensures TruncToInt(a) <= TruncToInt(b)
  {
  }

  lemma ClampMonotone(u: int, v: int, hi: int)
    requires u <= v
    ensures ClampPixel(u, hi) <= ClampPixel(v, hi)
  {
  }

  lemma ScaleMonotone(a1: real, a2: real, half: real, w2: real)
    requires half > 0.0 && w2 >= 0.0 && a1 <= a2
    ensures (a1 / half) * w2 <= (a2 / half) * w2
  {
    assert a1 / half <= a2 / half;
    assert (a2 / half - a1 / half) * w2 >= 0.0;
  }

  lemma PixelMonotone(a1: real, a2: real, fovDeg: real, size: int)
    requires fovDeg > 0.0 && size >= 0 && a1 <= a2
    ensures PixelOf(a1, fovDeg, size) <= PixelOf(a2, fovDeg, size)
  {
    var half := fovDeg / 2.0;
    var w2 := size as real / 2.0;
    var v1 := (a1 / half) * w2 + w2;
    var v2 := (a2 / half) * w2 + w2;
    ScaleMonotone(a1, a2, half, w2);
    assert v1 <= v2;
  }

  /** With a positive field of view, a larger azimuth never lands further left. */
  lemma ProjectMonotone(s: Sensor, az1: real, az2: real, el: real)
    requires s.fovDeg > 0.0 && s.width >= 0 && az1 <= az2
    ensures ProjectToImage(s, az1, el).value.0 <= ProjectToImage(s, az2, el).value.0
  {
    PixelMonotone(az1, az2, s.fovDeg, s.width);
    ClampMonotone(PixelOf(az1, s.fovDeg, s.width), PixelOf(az2, s.fovDeg, s.width), s.width - 1);
  }

  /** The boresight projects onto the image centre. */
  lemma BoresightIsCentre(s: Sensor)
    requires s.fovDeg != 0.0 && s.width >= 1 && s.height >= 1
    ensures ProjectToImage(s, 0.0, 0.0) == Ok((s.width / 2, s.height / 2))
  {
    HalfTrunc(s.width);
    HalfTrunc(s.height);
    assert -0.0 == 0.0;
  }

  lemma HalfTrunc(n: int)
    requires n >= 1
    ensures TruncToInt(n as real / 2.0) == n / 2
  {
    var r := TruncToInt(n as real / 2.0);
    assert r as real <= n as real / 2.0 < r as real + 1.0;
    assert 2 * r <= n < 2 * r + 2 by {
      assert (2 * r) as real <= n as real < (2 * r + 2) as real;
    }
  }
}
