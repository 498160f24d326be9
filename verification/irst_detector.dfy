/**
 * The IRST detector (irst/sim/detector.py): one fixed-size image box per
 * angle detection, centred on the detection's projected pixel.
 */
module IrstDetector {
  import opened Common
  import opened IrstSensor

  /** (x, y, width, height, confidence) of a box, x and y its top-left corner. */
  datatype Box = Box(x: int, y: int, width: int, height: int, confidence: real)

  /** The default box size, in pixels. */
  const DefaultBoxSize: int := 16

  /** The box of one detection: the projected pixel less box_size // 2 (a floored division). */
  function BoxOf(px: (int, int), boxSize: int, d: Detection): Box
  {
    Box(px.0 - boxSize / 2, px.1 - boxSize / 2, boxSize, boxSize, d.confidence)
  }

  /** The boxes of dets, in order; the first projection that fails ends the conversion. */
  function Boxes(s: Sensor, dets: seq<Detection>, boxSize: int): Result<seq<Box>>
  {
    if |dets| == 0 then Ok([])
    else
      var n := |dets| - 1;
      match Boxes(s, dets[..n], boxSize)
      case Fail(e) => Fail(e)
      case Ok(prev) =>
        match ProjectToImage(s, dets[n].azDeg, dets[n].elDeg)
        case Fail(e) => Fail(e)
        case Ok(px) => Ok(prev + [BoxOf(px, boxSize, dets[n])])
  }

  /**
   * The conversion fails (a zero field of view) exactly when there is a
   * detection to project; otherwise box i is detection i's pixel
   * shifted by half the box, box_size square, with its confidence.
   */
  lemma {:induction false} BoxesRule(s: Sensor, dets: seq<Detection>, boxSize: int)
    ensures Boxes(s, dets, boxSize).Fail? <==> |dets| > 0 && s.fovDeg == 0.0
    ensures Boxes(s, dets, boxSize).Fail? ==> Boxes(s, dets, boxSize).error == ZeroDivisionError
    ensures Boxes(s, dets, boxSize).Ok? ==>
      var bs := Boxes(s, dets, boxSize).value;
      && |bs| == |dets|
      && forall i :: 0 <= i < |dets| ==>
        && ProjectToImage(s, dets[i].azDeg, dets[i].elDeg).Ok?
        && bs[i].x == ProjectToImage(s, dets[i].azDeg, dets[i].elDeg).value.0 - boxSize / 2
        && bs[i].y == ProjectToImage(s, dets[i].azDeg, dets[i].elDeg).value.1 - boxSize / 2
        && bs[i].width == boxSize && bs[i].height == boxSize
        && bs[i].confidence == dets[i].confidence
  {
    if |dets| > 0 {
      var n := |dets| - 1;
      BoxesRule(s, dets[..n], boxSize);
      if Boxes(s, dets, boxSize).Ok? {
        var bs := Boxes(s, dets, boxSize).value;
        var prev := Boxes(s, dets[..n], boxSize).value;
        assert bs == prev + [bs[n]];
        forall i | 0 <= i < n
          ensures bs[i] == prev[i] && dets[i] == dets[..n][i]
        {
        }
      }
    }
  }

  /** A box drawn around a pixel contains it: the pixel lies within the box for any positive size. */
  lemma BoxCoversPixel(px: (int, int), boxSize: int, d: Detection)
    requires boxSize >= 1
    ensures var b := BoxOf(px, boxSize, d);
      b.x <= px.0 < b.x + b.width && b.y <= px.1 < b.y + b.height
  {
  }

  /** detections_to_boxes: project each detection in turn and append its box. */
  method DetectionsToBoxes(s: Sensor, dets: seq<Detection>, boxSize: int) returns (r: Result<seq<Box>>)
    ensures r == Boxes(s, dets, boxSize)
  {
    var boxes: seq<Box> := [];
    var i := 0;
    while i < |dets|
      invariant 0 <= i <= |dets|
      invariant Boxes(s, dets[..i], boxSize) == Ok(boxes)
    {
      assert dets[..i + 1][..i] == dets[..i];
      assert dets[..i + 1][i] == dets[i];
      var p := ProjectToImage(s, dets[i].azDeg, dets[i].elDeg);
      if p.Fail? {
        PrefixFailure(s, dets, boxSize, i + 1);
        return Fail(p.error);
      }
      var half := boxSize / 2;
      boxes := boxes + [Box(p.value.0 - half, p.value.1 - half, boxSize, boxSize, dets[i].confidence)];
      i := i + 1;
    }
    assert dets[..|dets|] == dets;
    return Ok(boxes);
  }

  /** Once a prefix fails, the whole conversion fails with the same error. */
  lemma {:induction false} PrefixFailure(s: Sensor, dets: seq<Detection>, boxSize: int, k: nat)
    requires k <= |dets| && Boxes(s, dets[..k], boxSize).Fail?
    ensures Boxes(s, dets, boxSize) == Boxes(s, dets[..k], boxSize)
    decreases |dets| - k
  {
    if k < |dets| {
      assert dets[..k + 1][..k] == dets[..k];
      PrefixFailure(s, dets, boxSize, k + 1);
    } else {
      assert dets[..k] == dets;
    }
  }
}
