/**
 * The processing shared by the two C CNI simulators (cni/cni_sim.c and
 * cni/cni_udp_sim.c, which each carry their own copy): heading
 * normalisation, the navigation output, target extrapolation with the IFF
 * classification, and short-wave packet decoding. Geodesy and the
 * log10/sqrt signal-to-noise figures are parameters.
 */
module CniCore {
  import opened Common

  const MaxTargets: nat := 128
  const PayloadCapacity: nat := 255

  /** A target report: position, north/east/down velocity, azimuth and IFF code. */
  datatype Target = Target(
    id: int, latDeg: real, lonDeg: real, altM: real,
    velN: real, velE: real, velD: real, azimuthDeg: real, iffCode: int)

  const NoTarget := Target(0, 0.0, 0.0, 0.0, 0.0, 0.0, 0.0, 0.0, 0)

  datatype TrackOutput = TrackOutput(
    id: int, estLatDeg: real, estLonDeg: real, estAltM: real,
    velN: real, velE: real, velD: real, iffClassified: int, trackSnrDb: real)

  const NoTrack := TrackOutput(0, 0.0, 0.0, 0.0, 0.0, 0.0, 0.0, 0, 0.0)

  /** The trigonometric part of an estimate: offset latitude and longitude, and the distance-based SNR. */
  datatype GeoEstimate = GeoEstimate(latDeg: real, lonDeg: real, snrDb: real)

  /**
   * normalize_heading: add 360 while negative, subtract 360 while at least
   * 360. The result is the heading modulo 360.
   */
  method NormalizeHeading(hdg: real) returns (r: real)
    ensures 0.0 <= r < 360.0
    ensures r == FloorMod(hdg, 360.0)
  {
    r := hdg;
    ghost var k: int := 0;
    while r < 0.0
      invariant r == hdg + 360.0 * k as real
      decreases -r.Floor
    {
      r := r + 360.0;
      k := k + 1;
    }
    while r >= 360.0
      invariant 0.0 <= r && r == hdg + 360.0 * k as real
      decreases r.Floor
    {
      r := r - 360.0;
      k := k - 1;
    }
    FloorModShift(hdg, 360.0, -k);
  }

  /** IFF classification: 0 unknown, 1 for a positive code, 2 for a negative one. */
  function IffClass(code: int): (r: int)
    ensures 0 <= r <= 2
  {
    if code == 0 then 0 else if code > 0 then 1 else 2
  }

  /** The classification depends only on the sign of the code, and tells the signs apart. */
  lemma IffClassOfSign(a: int, b: int)
    ensures IffClass(a) == IffClass(b) <==> (a == 0 <==> b == 0) && (a > 0 <==> b > 0)
    ensures IffClass(a) == 0 <==> a == 0
  {
  }

  /** estimate_target: extrapolate dt seconds; altitude climbs against the down velocity. */
  function EstimateTarget(t: Target, dt: real, g: GeoEstimate): (o: TrackOutput)
    ensures o.id == t.id && o.velN == t.velN && o.velE == t.velE && o.velD == t.velD
    ensures o.estAltM + t.velD * dt == t.altM
    ensures o.iffClassified in {0, 1, 2} && (o.iffClassified == 0 <==> t.iffCode == 0)
  {
    TrackOutput(t.id, g.latDeg, g.lonDeg, t.altM - t.velD * dt, t.velN, t.velE, t.velD, IffClass(t.iffCode), g.snrDb)
  }

  /** The estimate keeps the id and velocity, and moves the altitude by -velD * dt. */
  lemma EstimateTargetKeeps(t: Target, dt: real, g: GeoEstimate)
    ensures var o := EstimateTarget(t, dt, g);
      && o.id == t.id && o.velN == t.velN && o.velE == t.velE && o.velD == t.velD
      && o.estAltM + t.velD * dt == t.altM
      && (dt == 0.0 ==> o.estAltM == t.altM)
      && o.iffClassified == IffClass(t.iffCode)
  {
  }

  datatype NavInputs = NavInputs(
    egoLatDeg: real, egoLonDeg: real, egoAltM: real, airspeedMps: real, groundspeedMps: real,
    pitchDeg: real, rollDeg: real, yawDeg: real)

  datatype NavOutput = NavOutput(
    latDeg: real, lonDeg: real, altM: real, headingDeg: real, groundspeedMps: real, airspeedMps: real,
    pitchDeg: real, rollDeg: real, yawDeg: real, timestampS: real)

  /** generate_nav_output: copy position, speeds and attitude; heading is the yaw modulo 360. */
  function NavOf(n: NavInputs, simTime: real): NavOutput
  {
    NavOutput(n.egoLatDeg, n.egoLonDeg, n.egoAltM, FloorMod(n.yawDeg, 360.0), n.groundspeedMps, n.airspeedMps,
              n.pitchDeg, n.rollDeg, n.yawDeg, simTime)
  }

  method GenerateNavOutput(n: NavInputs, simTime: real) returns (o: NavOutput)
    ensures o == NavOf(n, simTime)
    ensures 0.0 <= o.headingDeg < 360.0
    ensures 0.0 <= n.yawDeg < 360.0 ==> o.headingDeg == n.yawDeg
  {
    var heading := NormalizeHeading(n.yawDeg);
    o := NavOutput(n.egoLatDeg, n.egoLonDeg, n.egoAltM, heading, n.groundspeedMps, n.airspeedMps,
                   n.pitchDeg, n.rollDeg, n.yawDeg, simTime);
  }

  datatype ShortwavePacket = ShortwavePacket(
    sourceId: int, destId: int, txPowerDbm: real, frequencyHz: real, timestampS: real, payload: string)

  datatype CommOutput = CommOutput(sourceId: int, destId: int, rxSnrDb: real, decodedPayload: string, timestampS: real)

  const Undecodable := "[UNDECODABLE]"

  /** strncpy into a 256-byte buffer that is then terminated: at most 255 characters survive. */
  function Bounded(s: string): (r: string)
    ensures |r| <= PayloadCapacity
    ensures |s| <= PayloadCapacity ==> r == s
  {
    if |s| <= PayloadCapacity then s else s[..PayloadCapacity]
  }

  /**
   * process_shortwave for a present packet. The received SNR is the
   * transmit power minus `pathLossDb`, the fixed 20*log10(101) + 100 dB the
   * source computes; the payload is decoded only above -10 dB.
   */
  function DecodeShortwave(p: ShortwavePacket, pathLossDb: real): (o: CommOutput)
    ensures o.sourceId == p.sourceId && o.destId == p.destId && o.timestampS == p.timestampS
    ensures o.rxSnrDb + pathLossDb == p.txPowerDbm
    ensures o.rxSnrDb <= -10.0 ==> o.decodedPayload == Undecodable
    ensures o.rxSnrDb > -10.0 ==> |o.decodedPayload| <= PayloadCapacity
  {
    var snr := p.txPowerDbm - pathLossDb;
    CommOutput(p.sourceId, p.destId, snr, if snr > -10.0 then Bounded(p.payload) else Undecodable, p.timestampS)
  }

  /** The payload comes through (up to 255 characters) exactly when the SNR exceeds -10 dB. */
  lemma DecodeShortwaveRule(p: ShortwavePacket, pathLossDb: real)
    ensures var o := DecodeShortwave(p, pathLossDb);
      && o.sourceId == p.sourceId && o.destId == p.destId && o.timestampS == p.timestampS
      && o.rxSnrDb == p.txPowerDbm - pathLossDb
      && (o.rxSnrDb > -10.0 ==> o.decodedPayload == p.payload[..|o.decodedPayload|] && |o.decodedPayload| <= PayloadCapacity)
      && (o.rxSnrDb > -10.0 && |p.payload| <= PayloadCapacity ==> o.decodedPayload == p.payload)
      && (o.rxSnrDb <= -10.0 ==> o.decodedPayload == Undecodable)
  {
  }

  /** The track outputs for a sequence of targets, one estimate each, in order. */
  function Estimates(ts: seq<Target>, dt: real, geo: (Target, real) -> GeoEstimate): seq<TrackOutput>
  {
    if |ts| == 0 then []
    else Estimates(ts[..|ts| - 1], dt, geo) + [EstimateTarget(ts[|ts| - 1], dt, geo(ts[|ts| - 1], dt))]
  }

  /** Estimates has one entry per target, and entry i estimates target i. */
  lemma {:induction false} EstimatesAt(ts: seq<Target>, dt: real, geo: (Target, real) -> GeoEstimate)
    ensures |Estimates(ts, dt, geo)| == |ts|
    ensures forall i :: 0 <= i < |ts| ==> Estimates(ts, dt, geo)[i] == EstimateTarget(ts[i], dt, geo(ts[i], dt))
  {
    if |ts| > 0 {
      EstimatesAt(ts[..|ts| - 1], dt, geo);
    }
  }

  /** One more target appends one more estimate. */
  lemma EstimatesSnoc(ts: seq<Target>, t: Target, dt: real, geo: (Target, real) -> GeoEstimate)
    ensures Estimates(ts + [t], dt, geo) == Estimates(ts, dt, geo) + [EstimateTarget(t, dt, geo(t, dt))]
  {
    assert (ts + [t])[..|ts|] == ts;
  }

  /** The output container both simulators fill in place; it starts zeroed. */
  class CniOutputs {
    var nav: NavOutput
    const tracks: array<TrackOutput>
    var trackCount: int
    var comm: CommOutput

    constructor ()
      ensures fresh(tracks) && tracks.Length == MaxTargets
      ensures forall i :: 0 <= i < tracks.Length ==> tracks[i] == NoTrack
      ensures nav == NavOutput(0.0, 0.0, 0.0, 0.0, 0.0, 0.0, 0.0, 0.0, 0.0, 0.0)
      ensures trackCount == 0 && comm == CommOutput(0, 0, 0.0, "", 0.0)
    {
      nav := NavOutput(0.0, 0.0, 0.0, 0.0, 0.0, 0.0, 0.0, 0.0, 0.0, 0.0);
      tracks := new TrackOutput[MaxTargets](_ => NoTrack);
      trackCount := 0;
      comm := CommOutput(0, 0, 0.0, "", 0.0);
    }
  }
}
