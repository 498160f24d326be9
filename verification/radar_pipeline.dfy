/**
 * The C radar signal-processing pipeline (radar_sim.c): one call copies the
 * image threats and radar targets into the display outputs, counts the
 * effective threats and answers one fire-control request.
 */
module RadarPipeline {
  import opened Common

  const MaxThreats: nat := 64
  const MaxRadarTargets: nat := 128

  datatype ImageThreat = ImageThreat(
    id: int, kind: int, distance: real, azimuth: real, frequency: real,
    distance30ms: real, azimuth30ms: real, speed: real, direction: real)

  datatype RadarTarget = RadarTarget(id: int, distance: real, azimuth: real, rcs: real, velocity: real)

  datatype FireControlOutput = FireControlOutput(targetId: int, distance: real, azimuth: real)

  const NoThreat := ImageThreat(0, 0, 0.0, 0.0, 0.0, 0.0, 0.0, 0.0, 0.0)
  const NoRadarTarget := RadarTarget(0, 0.0, 0.0, 0.0, 0.0)

  /** The answer when there is no radar target at all. */
  const NoSelection := FireControlOutput(-1, 0.0, 0.0)

  function MinNat(a: nat, b: nat): nat { if a <= b then a else b }

  /** A threat counts as effective when it moves or is within 100 km. */
  predicate Effective(t: ImageThreat) { t.speed > 0.1 || t.distance < 100000.0 }

  function CountEffective(ts: seq<ImageThreat>): nat
  {
    if ts == [] then 0
    else CountEffective(ts[..|ts| - 1]) + (if Effective(ts[|ts| - 1]) then 1 else 0)
  }

  lemma {:induction false} CountEffectiveBounds(ts: seq<ImageThreat>)
    ensures CountEffective(ts) <= |ts|
    ensures CountEffective(ts) == |ts| <==> forall i :: 0 <= i < |ts| ==> Effective(ts[i])
    ensures CountEffective(ts) == 0 <==> forall i :: 0 <= i < |ts| ==> !Effective(ts[i])
  {
    if ts != [] {
      var init := ts[..|ts| - 1];
      CountEffectiveBounds(init);
      assert forall i :: 0 <= i < |init| ==> init[i] == ts[i];
    }
  }

  function OutputOf(r: RadarTarget): FireControlOutput
  {
    FireControlOutput(r.id, r.distance, r.azimuth)
  }

  /** The fire-control answer: the first target with the requested id, else the first nearest one. */
  function Selection(rs: seq<RadarTarget>, requested: int): (out: FireControlOutput)
    ensures (exists i :: 0 <= i < |rs| && rs[i].id == requested) ==>
      exists i :: 0 <= i < |rs| && out == OutputOf(rs[i]) && rs[i].id == requested
        && forall j :: 0 <= j < i ==> rs[j].id != requested
    ensures (forall i :: 0 <= i < |rs| ==> rs[i].id != requested) && rs != [] ==>
      exists i :: 0 <= i < |rs| && out == OutputOf(rs[i])
        && (forall j :: 0 <= j < |rs| ==> rs[i].distance <= rs[j].distance)
        && (forall j :: 0 <= j < i ==> rs[j].distance > rs[i].distance)
    ensures rs == [] ==> out == NoSelection
  {
    match FirstWithId(rs, requested, 0)
    case Some(i) => OutputOf(rs[i])
    case None => if rs == [] then NoSelection else OutputOf(rs[NearestFrom(rs, 1, 0)])
  }

  /** The first index at or after `from` whose id is `id`. */
  function FirstWithId(rs: seq<RadarTarget>, id: int, from: nat): (r: Option<nat>)
    requires from <= |rs|
    requires forall j :: 0 <= j < from ==> rs[j].id != id
    ensures r.Some? ==> r.value < |rs| && rs[r.value].id == id && forall j :: 0 <= j < r.value ==> rs[j].id != id
    ensures r.None? <==> forall j :: 0 <= j < |rs| ==> rs[j].id != id
    decreases |rs| - from
  {
    if from == |rs| then None
    else if rs[from].id == id then Some(from)
    else FirstWithId(rs, id, from + 1)
  }

  /** The first index of minimal distance, scanning from j with `best` the best so far. */
  function NearestFrom(rs: seq<RadarTarget>, j: nat, best: nat): (i: nat)
    requires best < j <= |rs|
    requires forall l :: 0 <= l < j ==> rs[best].distance <= rs[l].distance
    requires forall l :: 0 <= l < best ==> rs[l].distance > rs[best].distance
    ensures i < |rs|
    ensures forall l :: 0 <= l < |rs| ==> rs[i].distance <= rs[l].distance
    ensures forall l :: 0 <= l < i ==> rs[l].distance > rs[i].distance
    decreases |rs| - j
  {
    if j == |rs| then best
    else if rs[j].distance < rs[best].distance then NearestFrom(rs, j + 1, j)
    else NearestFrom(rs, j + 1, best)
  }

  /** The snprintf'd radar picture caption. */
  function SnapshotInfo(n: nat): string
  {
    "Radar image snapshot (" + Decimal(n) + " targets)"
  }

  /** The three output structures of the pipeline. */
  class PipelineOutputs {
    const threats: array<ImageThreat>
    var threatCount: nat
    var effectiveCount: nat
    const radarTargets: array<RadarTarget>
    var radarCount: nat
    var radarImageInfo: string
    var fc: FireControlOutput

    ghost predicate Valid()
      reads this
    {
      threats.Length == MaxThreats && radarTargets.Length == MaxRadarTargets
      && threatCount <= MaxThreats && radarCount <= MaxRadarTargets
    }

    constructor ()
      ensures Valid() && fresh(threats) && fresh(radarTargets)
      ensures threatCount == 0 && radarCount == 0 && effectiveCount == 0
    {
      threats := new ImageThreat[MaxThreats](_ => NoThreat);
      radarTargets := new RadarTarget[MaxRadarTargets](_ => NoRadarTarget);
      threatCount, effectiveCount, radarCount := 0, 0, 0;
      radarImageInfo := "";
      fc := NoSelection;
    }

    /** radar_signal_processing_pipeline, with the input counts taken as the list lengths. */
    method Process(imgs: seq<ImageThreat>, radars: seq<RadarTarget>, requested: int)
      requires Valid()
      modifies this, threats, radarTargets
      ensures Valid()
      ensures threatCount == MinNat(|imgs|, MaxThreats)
      ensures threats[..threatCount] == imgs[..threatCount]
      ensures forall j :: threatCount <= j < threats.Length ==> threats[j] == old(threats[j])
      ensures effectiveCount == CountEffective(imgs[..threatCount]) && effectiveCount <= threatCount
      ensures radarCount == MinNat(|radars|, MaxRadarTargets)
      ensures radarTargets[..radarCount] == radars[..radarCount]
      ensures forall j :: radarCount <= j < radarTargets.Length ==> radarTargets[j] == old(radarTargets[j])
      ensures radarImageInfo == SnapshotInfo(radarCount)
      ensures fc == Selection(radars, requested)
    {
      CopyThreats(imgs);
      CountEffectiveThreats(imgs);
      CopyRadarTargets(radars);
      radarImageInfo := SnapshotInfo(radarCount);
      var out := SelectTarget(radars, requested);
      fc := out;
    }

    /** Stage 1: at most 64 threats, in input order. */
    method CopyThreats(imgs: seq<ImageThreat>)
      requires Valid()
      modifies this`threatCount, threats
      ensures Valid()
      ensures threatCount == MinNat(|imgs|, MaxThreats)
      ensures threats[..threatCount] == imgs[..threatCount]
      ensures forall j :: threatCount <= j < threats.Length ==> threats[j] == old(threats[j])
    {
      threatCount := 0;
      var i := 0;
      while i < |imgs| && i < MaxThreats
        invariant 0 <= i <= MinNat(|imgs|, MaxThreats) && threatCount == i
        invariant threats[..i] == imgs[..i]
        invariant forall j :: i <= j < threats.Length ==> threats[j] == old(threats[j])
      {
        threats[threatCount] := imgs[i];
        threatCount := threatCount + 1;
        i := i + 1;
      }
    }

    /** The effective-threat count over the copied threats. */
    method CountEffectiveThreats(imgs: seq<ImageThreat>)
      requires Valid() && threatCount <= |imgs|
      modifies this`effectiveCount
      ensures effectiveCount == CountEffective(imgs[..threatCount]) && effectiveCount <= threatCount
    {
      var eff := 0;
      var i := 0;
      while i < threatCount
        invariant 0 <= i <= threatCount
        invariant eff == CountEffective(imgs[..i])
      {
        assert imgs[..i + 1][..i] == imgs[..i];
        if imgs[i].speed > 0.1 || imgs[i].distance < 100000.0 {
          eff := eff + 1;
        }
        i := i + 1;
      }
      effectiveCount := eff;
      CountEffectiveBounds(imgs[..threatCount]);
    }

    /** Stage 2: at most 128 radar targets, in input order. */
    method CopyRadarTargets(radars: seq<RadarTarget>)
      requires Valid()
      modifies this`radarCount, radarTargets
      ensures Valid()
      ensures radarCount == MinNat(|radars|, MaxRadarTargets)
      ensures radarTargets[..radarCount] == radars[..radarCount]
      ensures forall j :: radarCount <= j < radarTargets.Length ==> radarTargets[j] == old(radarTargets[j])
    {
      radarCount := 0;
      var i := 0;
      while i < |radars| && i < MaxRadarTargets
        invariant 0 <= i <= MinNat(|radars|, MaxRadarTargets) && radarCount == i
        invariant radarTargets[..i] == radars[..i]
        invariant forall j :: i <= j < radarTargets.Length ==> radarTargets[j] == old(radarTargets[j])
      {
        radarTargets[radarCount] := radars[i];
        radarCount := radarCount + 1;
        i := i + 1;
      }
    }
  }

  /** Stage 3: search the whole radar list (not only the copied part) for the request. */
  method SelectTarget(radars: seq<RadarTarget>, requested: int) returns (out: FireControlOutput)
    ensures out == Selection(radars, requested)
  {
    var found := FindRequested(radars, requested);
    if found.Some? {
      out := OutputOf(radars[found.value]);
    } else if |radars| > 0 {
      var idx := NearestRadar(radars);
      out := OutputOf(radars[idx]);
    } else {
      out := NoSelection;
    }
  }

  /** The scan for the requested id, stopping at the first match. */
  method FindRequested(radars: seq<RadarTarget>, requested: int) returns (found: Option<nat>)
    ensures found == FirstWithId(radars, requested, 0)
  {
    var i := 0;
    while i < |radars|
      invariant 0 <= i <= |radars|
      invariant forall j :: 0 <= j < i ==> radars[j].id != requested
    {
      if radars[i].id == requested {
        return Some(i);
      }
      i := i + 1;
    }
    return None;
  }

  /** The scan for the nearest target, keeping the first of equal distances. */
  method NearestRadar(radars: seq<RadarTarget>) returns (idx: nat)
    requires |radars| > 0
    ensures idx == NearestFrom(radars, 1, 0)
  {
    idx := 0;
    var bestD := radars[0].distance;
    var j := 1;
    while j < |radars|
      invariant 1 <= j <= |radars| && idx < j && bestD == radars[idx].distance
      invariant forall l :: 0 <= l < j ==> radars[idx].distance <= radars[l].distance
      invariant forall l :: 0 <= l < idx ==> radars[l].distance > radars[idx].distance
      invariant NearestFrom(radars, j, idx) == NearestFrom(radars, 1, 0)
    {
      if radars[j].distance < bestD {
        bestD := radars[j].distance;
        idx := j;
      }
      j := j + 1;
    }
  }

  /** The demo run of radar_sim.c: request 101 is found among three radar targets. */
  lemma DemoSelection()
    ensures Selection([RadarTarget(101, 15003.0, 45.2, -4.0, 198.0), RadarTarget(201, 5000.0, 10.0, 3.0, 0.0),
                       RadarTarget(102, 7998.0, 269.7, -10.0, 5.0)], 101)
      == FireControlOutput(101, 15003.0, 45.2)
    ensures Selection([RadarTarget(101, 15003.0, 45.2, -4.0, 198.0), RadarTarget(201, 5000.0, 10.0, 3.0, 0.0),
                       RadarTarget(102, 7998.0, 269.7, -10.0, 5.0)], 7)
      == FireControlOutput(201, 5000.0, 10.0)
  {
  }
}
