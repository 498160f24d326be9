/**
 * The stand-alone CNI processing step (cni/cni_sim.c): the input target
 * array carries no validity flags, and the number of tracks reported is
 * the declared target count, while at most the 128 array entries are
 * estimated.
 */
module CniSim {
  import opened Common
  import opened CniCore

  /** The parts of CNIInputs the step reads. */
  datatype SimInputs = SimInputs(
    targets: seq<Target>, targetCount: int, packet: ShortwavePacket, nav: NavInputs, simTime: real, dt: real)

  /** How many array entries the track loop visits: the count, kept within 0 and 128. */
  function Visited(count: int): (n: nat)
    ensures n <= MaxTargets
    ensures 0 <= count <= MaxTargets ==> n == count
    ensures count < 0 ==> n == 0
    ensures count > MaxTargets ==> n == MaxTargets
  {
    if count < 0 then 0 else if count > MaxTargets then MaxTargets else count
  }

  /**
   * cni_process_step: the nav output, the estimates of the first visited
   * targets written over the start of the track array (the rest keeps its
   * old contents), the declared count copied through, and the decoded
   * packet. There is no validity flag on the packet in this variant.
   */
  method ProcessStep(inp: SimInputs, out: CniOutputs, geo: (Target, real) -> GeoEstimate, pathLossDb: real)
    requires |inp.targets| == MaxTargets && out.tracks.Length == MaxTargets
    modifies out, out.tracks
    ensures out.nav == NavOf(inp.nav, inp.simTime)
    ensures out.trackCount == inp.targetCount
    ensures out.tracks[..Visited(inp.targetCount)] == Estimates(inp.targets[..Visited(inp.targetCount)], inp.dt, geo)
    ensures out.tracks[Visited(inp.targetCount)..] == old(out.tracks[Visited(inp.targetCount)..])
    ensures out.comm == DecodeShortwave(inp.packet, pathLossDb)
  {
    out.nav := GenerateNavOutput(inp.nav, inp.simTime);
    out.trackCount := inp.targetCount;
    EstimateInto(out.tracks, inp.targets, Visited(inp.targetCount), inp.dt, geo);
    out.comm := DecodeShortwave(inp.packet, pathLossDb);
  }

  /** The track loop: estimates of the first n targets overwrite the first n entries. */
  method EstimateInto(tracks: array<TrackOutput>, ts: seq<Target>, n: nat, dt: real, geo: (Target, real) -> GeoEstimate)
    requires n <= |ts| && n <= tracks.Length
    modifies tracks
    ensures tracks[..n] == Estimates(ts[..n], dt, geo)
    ensures forall k :: n <= k < tracks.Length ==> tracks[k] == old(tracks[k])
  {
    var i := 0;
    while i < n
      invariant 0 <= i <= n
      invariant tracks[..i] == Estimates(ts[..i], dt, geo)
      invariant forall k :: i <= k < tracks.Length ==> tracks[k] == old(tracks[k])
    {
      tracks[i] := EstimateTarget(ts[i], dt, geo(ts[i], dt));
      EstimatesSnoc(ts[..i], ts[i], dt, geo);
      assert ts[..i + 1] == ts[..i] + [ts[i]];
      assert tracks[..i + 1] == tracks[..i] + [tracks[i]];
      i := i + 1;
    }
  }

  /**
   * With more than 128 declared targets the reported count exceeds the
   * number of track entries that exist: entries beyond the array are
   * counted but never written.
   */
  lemma CountOverrunsTracks(count: int)
    requires count > MaxTargets
    ensures Visited(count) < count
  {
  }

  /** Each written track carries its target's id, velocity and IFF class. */
  lemma {:induction false} TrackOfTarget(ts: seq<Target>, dt: real, geo: (Target, real) -> GeoEstimate, i: nat)
    requires i < |ts|
    ensures |Estimates(ts, dt, geo)| == |ts|
    ensures Estimates(ts, dt, geo)[i].id == ts[i].id
    ensures Estimates(ts, dt, geo)[i].iffClassified == IffClass(ts[i].iffCode)
    ensures Estimates(ts, dt, geo)[i].velD == ts[i].velD
  {
    EstimatesAt(ts, dt, geo);
  }
}
