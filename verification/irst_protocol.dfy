/**
 * The IRST (infrared search and track) packet formats of IRST_NEW/protocol.py.
 * The output packet (simulator to host) is header '<HBH' (0xAA55, message
 * type 1, length of the rest), four float32 globals, a target count,
 * 51-byte target records and a float32 field-of-view centre. The input
 * packet (host to simulator) is header '<HBH', two float64 positions, count
 * and maximum bytes, 37-byte target records and a float32 centre.
 */
module IrstProtocol {
  import opened Common

  const Header: nat := 0xAA55
  const OutputMsgType: nat := 1
  const OutputRecordSize: nat := 51
  const InputRecordSize: nat := 37
  /** Globals (16) + count (1) + field-of-view centre (4). */
  const OutputFixedPayload: nat := 21

  /** The float32 encodings of the defaults the packer uses for missing keys. */
  const F32Zero: F32 := [0x00, 0x00, 0x00, 0x00]
  const F32TenThousand: F32 := [0x00, 0x40, 0x1C, 0x46]
  const F32PointOne: F32 := [0xCD, 0xCC, 0xCC, 0x3D]
  const F32Five: F32 := [0x00, 0x00, 0xA0, 0x40]
  const F32Fifty: F32 := [0x00, 0x00, 0x48, 0x42]
  const F32PointNine: F32 := [0x66, 0x66, 0x66, 0x3F]

  /** The configuration dict; None stands for a missing key. */
  datatype Config = Config(
    detectRange: Option<F32>, angularResolution: Option<F32>, rangeAccuracy: Option<F32>,
    refreshRate: Option<F32>, fovCenterAzimuth: Option<F32>)

  /** One target dict of the output side; None stands for a missing key. */
  datatype OutTarget = OutTarget(
    id: Option<int>, kind: Option<int>, width: Option<int>, height: Option<int>,
    depth: Option<int>, format: Option<int>,
    distance: Option<F32>, azimuth: Option<F32>, elevation: Option<F32>, velocity: Option<F32>,
    laserRange: Option<F32>, confidence: Option<F32>,
    threat: Option<int>, stealth: Option<int>, trackCmd: Option<int>,
    azMiss: Option<F32>, elMiss: Option<F32>, targetAz: Option<F32>)

  function IntOr(o: Option<int>, d: int): int { if o.Some? then o.value else d }
  function F32Or(o: Option<F32>, d: F32): F32 { if o.Some? then o.value else d }

  /** struct.pack accepts the record iff every B field is a byte and every H field a 16-bit value. */
  predicate RecordPackable(t: OutTarget)
  {
    && IsByte(IntOr(t.id, 0)) && IsByte(IntOr(t.kind, 0))
    && IsU16(IntOr(t.width, 64)) && IsU16(IntOr(t.height, 64))
    && IsByte(IntOr(t.depth, 8)) && IsByte(IntOr(t.format, 0))
    && IsByte(IntOr(t.threat, 0)) && IsByte(IntOr(t.stealth, 0)) && IsByte(IntOr(t.trackCmd, 0))
  }

  /** The integer head of a record: id, type, reserved, width, height, depth, format. */
  function RecordHead(t: OutTarget): (r: seq<Byte>)
    requires RecordPackable(t)
    ensures |r| == 10
    ensures r[0] == IntOr(t.id, 0) && r[1] == IntOr(t.kind, 0) && r[2..4] == [0, 0]
    ensures ReadLE16(r, 4) == IntOr(t.width, 64) && ReadLE16(r, 6) == IntOr(t.height, 64)
    ensures r[8] == IntOr(t.depth, 8) && r[9] == IntOr(t.format, 0)
  {
    [IntOr(t.id, 0), IntOr(t.kind, 0)] + LE16(0)
      + LE16(IntOr(t.width, 64)) + LE16(IntOr(t.height, 64))
      + [IntOr(t.depth, 8), IntOr(t.format, 0)]
  }

  /** Distance, azimuth, elevation, velocity, laser range and confidence. */
  function RecordMeasures(t: OutTarget): (r: seq<Byte>)
    ensures |r| == 24
    ensures r[..4] == F32Or(t.distance, F32Zero) && r[20..] == F32Or(t.confidence, F32PointNine)
  {
    F32Or(t.distance, F32Zero) + F32Or(t.azimuth, F32Zero) + F32Or(t.elevation, F32Zero)
      + F32Or(t.velocity, F32Zero) + F32Or(t.laserRange, F32Zero) + F32Or(t.confidence, F32PointNine)
  }

  /** Threat, stealth, reserved, track command and the three pointing floats. */
  function RecordTail(t: OutTarget): (r: seq<Byte>)
    requires RecordPackable(t)
    ensures |r| == 17
    ensures r[0] == IntOr(t.threat, 0) && r[1] == IntOr(t.stealth, 0) && r[2..4] == [0, 0]
    ensures r[4] == IntOr(t.trackCmd, 0)
  {
    [IntOr(t.threat, 0), IntOr(t.stealth, 0)] + LE16(0) + [IntOr(t.trackCmd, 0)]
      + F32Or(t.azMiss, F32Zero) + F32Or(t.elMiss, F32Zero) + F32Or(t.targetAz, F32Zero)
  }

  /** One '<BBHHHBBffffffBBHBfff' record, reserved fields zero. */
  function OutputRecord(t: OutTarget): (r: seq<Byte>)
    requires RecordPackable(t)
    ensures |r| == OutputRecordSize
  {
    RecordHead(t) + RecordMeasures(t) + RecordTail(t)
  }

  function OutputRecords(ts: seq<OutTarget>): (r: seq<Byte>)
    requires forall i :: 0 <= i < |ts| ==> RecordPackable(ts[i])
    ensures |r| == OutputRecordSize * |ts|
  {
    if ts == [] then [] else OutputRecords(ts[..|ts| - 1]) + OutputRecord(ts[|ts| - 1])
  }

  function OutputPayloadLength(n: nat): nat { 16 + 1 + n * OutputRecordSize + 4 }

  function OutputPrefix(cfg: Config, n: nat): (r: seq<Byte>)
    requires n < 0x100
    ensures |r| == 22
    ensures r[0] == 0x55 && r[1] == 0xAA && r[2] == OutputMsgType
    ensures ReadLE16(r, 3) == OutputPayloadLength(n) && r[21] == n
  {
    LE16(Header) + [OutputMsgType] + LE16(OutputPayloadLength(n))
      + F32Or(cfg.detectRange, F32TenThousand) + F32Or(cfg.angularResolution, F32PointOne)
      + F32Or(cfg.rangeAccuracy, F32Five) + F32Or(cfg.refreshRate, F32Fifty)
      + [n]
  }

  /** pack_output: struct.error when the count or a record field does not fit. */
  function OutputPacket(cfg: Config, ts: seq<OutTarget>): (r: Result<seq<Byte>>)
    ensures r.Fail? <==> |ts| > 255 || exists i :: 0 <= i < |ts| && !RecordPackable(ts[i])
    ensures r.Fail? ==> r.error == StructError
    ensures r.Ok? ==> |r.value| == 5 + OutputPayloadLength(|ts|) && r.value[21] == |ts|
  {
    if |ts| >= 0x100 || exists i :: 0 <= i < |ts| && !RecordPackable(ts[i]) then Fail(StructError)
    else Ok(OutputPrefix(cfg, |ts|) + OutputRecords(ts) + F32Or(cfg.fovCenterAzimuth, F32Zero))
  }

  /** pack_output as the source writes it: header and globals, then the records one by one, then the centre. */
  method PackOutput(cfg: Config, ts: seq<OutTarget>) returns (r: Result<seq<Byte>>)
    ensures r == OutputPacket(cfg, ts)
  {
    if |ts| >= 0x100 {
      return Fail(StructError);
    }
    var buffer := OutputPrefix(cfg, |ts|);
    var ok, records := PackRecords(ts);
    if !ok {
      return Fail(StructError);
    }
    buffer := buffer + records + F32Or(cfg.fovCenterAzimuth, F32Zero);
    r := Ok(buffer);
  }

  /** The target loop of pack_output; ok is false where struct.pack would raise. */
  method PackRecords(ts: seq<OutTarget>) returns (ok: bool, out: seq<Byte>)
    ensures ok <==> forall i :: 0 <= i < |ts| ==> RecordPackable(ts[i])
    ensures ok ==> out == OutputRecords(ts)
  {
    out := [];
    var i := 0;
    while i < |ts|
      invariant 0 <= i <= |ts|
      invariant forall j :: 0 <= j < i ==> RecordPackable(ts[j])
      invariant out == OutputRecords(ts[..i])
    {
      if !RecordPackable(ts[i]) {
        return false, out;
      }
      assert ts[..i + 1][..i] == ts[..i];
      out := out + OutputRecord(ts[i]);
      i := i + 1;
    }
    assert ts[..i] == ts;
    ok := true;
  }

  lemma {:induction false} OutputRecordsAt(ts: seq<OutTarget>, i: nat)
    requires forall j :: 0 <= j < |ts| ==> RecordPackable(ts[j])
    requires i < |ts|
    ensures OutputRecords(ts)[OutputRecordSize * i .. OutputRecordSize * (i + 1)] == OutputRecord(ts[i])
  {
    var m := |ts| - 1;
    var init := ts[..m];
    assert forall j :: 0 <= j < m ==> init[j] == ts[j];
    var a, c := OutputRecords(init), OutputRecord(ts[m]);
    assert OutputRecords(ts) == a + c;
    assert |a| == 51 * m && |c| == 51;
    if i == m {
      assert (a + c)[|a|..] == c;
    } else {
      OutputRecordsAt(init, i);
      assert 51 * (i + 1) <= 51 * m;
      SliceOfPrefix(a, c, 51 * i, 51 * (i + 1));
    }
  }

  /**
   * A packed output starts 0x55 0xAA 0x01, its length field counts exactly
   * the bytes after it, the count byte is the number of targets and record i
   * sits at offset 22 + 51 i.
   */
  lemma OutputLayout(cfg: Config, ts: seq<OutTarget>)
    requires OutputPacket(cfg, ts).Ok?
    ensures var p := OutputPacket(cfg, ts).value;
      && |p| == 5 + OutputPayloadLength(|ts|)
      && p[0] == 0x55 && p[1] == 0xAA && p[2] == OutputMsgType
      && ReadLE16(p, 3) == |p| - 5
      && p[21] == |ts|
      && forall i :: 0 <= i < |ts| ==>
           p[22 + OutputRecordSize * i .. 22 + OutputRecordSize * (i + 1)] == OutputRecord(ts[i])
  {
    var p := OutputPacket(cfg, ts).value;
    var pre, recs := OutputPrefix(cfg, |ts|), OutputRecords(ts);
    assert p == pre + recs + F32Or(cfg.fovCenterAzimuth, F32Zero);
    assert p[0] == pre[0] && p[1] == pre[1] && p[2] == pre[2] && p[3] == pre[3] && p[4] == pre[4];
    assert p[21] == pre[21];
    assert p[22..22 + |recs|] == recs;
    RecordsPlaced(p, ts);
  }

  /** The records of ts, placed one after another from offset 22, sit at 22 + 51 i. */
  lemma RecordsPlaced(p: seq<Byte>, ts: seq<OutTarget>)
    requires forall j :: 0 <= j < |ts| ==> RecordPackable(ts[j])
    requires 22 + |OutputRecords(ts)| <= |p| && p[22..22 + |OutputRecords(ts)|] == OutputRecords(ts)
    ensures forall i :: 0 <= i < |ts| ==>
      p[22 + OutputRecordSize * i .. 22 + OutputRecordSize * (i + 1)] == OutputRecord(ts[i])
  {
    var recs := OutputRecords(ts);
    forall i | 0 <= i < |ts|
      ensures p[22 + OutputRecordSize * i .. 22 + OutputRecordSize * (i + 1)] == OutputRecord(ts[i])
    {
      RecordBounds(OutputRecordSize, i, |ts|);
      OutputRecordsAt(ts, i);
      SliceInSlice(p, 22, recs, OutputRecordSize * i, OutputRecordSize * (i + 1));
    }
  }

  /** pack_output refuses a 256th target and any record field out of range. */
  lemma OutputFailsExactly(cfg: Config, ts: seq<OutTarget>)
    ensures OutputPacket(cfg, ts).Fail? <==>
      |ts| > 255 || exists i :: 0 <= i < |ts| && !RecordPackable(ts[i])
    ensures OutputPacket(cfg, ts).Fail? ==> OutputPacket(cfg, ts).error == StructError
  {
  }

  // ---------------------------------------------------------------------
  // unpack_input

  datatype InTarget = InTarget(
    id: Byte, kind: Byte, distance: F32, azimuth: F32, elevation: F32, velocity: F32,
    confidence: F32, threat: Byte, stealth: Byte, trackCmd: Byte,
    azMiss: F32, elMiss: F32, targetAz: F32)

  datatype Input = Input(
    header: nat, msgType: Byte, lon: F64, lat: F64, targets: seq<InTarget>, fovCenter: F32)

  /** The '<BBfffffBBBfff' record at offset k. */
  function InTargetAt(data: seq<Byte>, k: nat): InTarget
    requires k + InputRecordSize <= |data|
  {
    InTarget(data[k], data[k + 1], data[k + 2..k + 6], data[k + 6..k + 10], data[k + 10..k + 14],
      data[k + 14..k + 18], data[k + 18..k + 22], data[k + 22], data[k + 23], data[k + 24],
      data[k + 25..k + 29], data[k + 29..k + 33], data[k + 33..k + 37])
  }

  function InTargets(data: seq<Byte>, n: nat): (ts: seq<InTarget>)
    requires 23 + InputRecordSize * n <= |data|
    ensures |ts| == n
  {
    seq(n, i requires 0 <= i < n => InTargetAt(data, 23 + InputRecordSize * i))
  }

  /** The bytes the parse reads for a packet announcing n targets. */
  function InputSize(n: nat): nat { 23 + InputRecordSize * n + 4 }

  /**
   * unpack_input: Ok(None) for a short buffer, a wrong header or a buffer
   * shorter than the length field promises; Fail(StructError) when the
   * buffer passes those checks but ends before the fields it reads.
   */
  function ParseInput(data: seq<Byte>): (r: Result<Option<Input>>)
    ensures |data| < 5 ==> r == Ok(None)
    ensures r.Fail? ==> r.error == StructError
    ensures r.Ok? && r.value.Some? ==>
      && ReadLE16(data, 0) == Header && r.value.value.header == Header
      && |data| >= 5 + ReadLE16(data, 3) && |data| >= 23 && |data| >= InputSize(data[21])
      && |r.value.value.targets| == data[21]
  {
    if |data| < 5 then Ok(None)
    else if ReadLE16(data, 0) != Header then Ok(None)
    else if |data| < 5 + ReadLE16(data, 3) then Ok(None)
    else if |data| < 23 || |data| < InputSize(data[21]) then Fail(StructError)
    else
      var n := data[21];
      Ok(Some(Input(ReadLE16(data, 0), data[2], data[5..13], data[13..21], InTargets(data, n),
        data[23 + InputRecordSize * n..InputSize(n)])))
  }

  /** unpack_input as the source writes it, with a running offset. */
  method UnpackInput(data: seq<Byte>) returns (r: Result<Option<Input>>)
    ensures r == ParseInput(data)
  {
    if |data| < 5 {
      return Ok(None);
    }
    var header := ReadLE16(data, 0);
    var msgType := data[2];
    var length := ReadLE16(data, 3);
    if header != Header {
      return Ok(None);
    }
    if |data| < 5 + length {
      return Ok(None);
    }
    var offset: nat := 5;
    if |data| < offset + 16 {
      return Fail(StructError);
    }
    var lon: F64 := data[offset..offset + 8];
    var lat: F64 := data[offset + 8..offset + 16];
    offset := offset + 16;
    if |data| < offset + 2 {
      return Fail(StructError);
    }
    var numTargets := data[offset];
    offset := offset + 2;
    var targets: seq<InTarget> := [];
    var i := 0;
    while i < numTargets
      invariant 0 <= i <= numTargets
      invariant offset == 23 + InputRecordSize * i
      invariant 23 + InputRecordSize * i <= |data| ==> targets == InTargets(data, i)
      invariant offset <= |data|
    {
      if |data| < offset + InputRecordSize {
        return Fail(StructError);
      }
      targets := targets + [InTargetAt(data, offset)];
      offset := offset + InputRecordSize;
      i := i + 1;
    }
    if |data| < offset + 4 {
      return Fail(StructError);
    }
    var fov: F32 := data[offset..offset + 4];
    r := Ok(Some(Input(header, msgType, lon, lat, targets, fov)));
  }

  // ---------------------------------------------------------------------
  // The sender's side of the input packet, as the partner of the parser

  function InTargetBytes(t: InTarget): (r: seq<Byte>)
    ensures |r| == InputRecordSize
  {
    [t.id, t.kind] + t.distance + t.azimuth + t.elevation + t.velocity + t.confidence
      + [t.threat, t.stealth, t.trackCmd] + t.azMiss + t.elMiss + t.targetAz
  }

  function InTargetsBytes(ts: seq<InTarget>): (r: seq<Byte>)
    ensures |r| == InputRecordSize * |ts|
  {
    if ts == [] then [] else InTargetsBytes(ts[..|ts| - 1]) + InTargetBytes(ts[|ts| - 1])
  }

  /** An input packet whose length field counts the bytes after it. */
  function InputPacket(x: Input, maxTargets: Byte): seq<Byte>
    requires |x.targets| < 0x100
  {
    var n := |x.targets|;
    LE16(Header) + [x.msgType] + LE16(InputSize(n) - 5)
      + x.lon + x.lat + [n, maxTargets] + InTargetsBytes(x.targets) + x.fovCenter
  }

  lemma {:induction false} InTargetsBytesAt(ts: seq<InTarget>, i: nat)
    requires i < |ts|
    ensures InTargetsBytes(ts)[InputRecordSize * i .. InputRecordSize * (i + 1)] == InTargetBytes(ts[i])
  {
    var init := ts[..|ts| - 1];
    var a, c := InTargetsBytes(init), InTargetBytes(ts[|init|]);
    assert InTargetsBytes(ts) == a + c;
    if i == |init| {
      assert (a + c)[|a|..] == c;
    } else {
      assert init[i] == ts[i];
      InTargetsBytesAt(init, i);
      RecordBounds(InputRecordSize, i, |init|);
      SliceOfPrefix(a, c, InputRecordSize * i, InputRecordSize * (i + 1));
    }
  }

  lemma InTargetAtBytes(data: seq<Byte>, k: nat, t: InTarget)
    requires k + InputRecordSize <= |data| && data[k..k + InputRecordSize] == InTargetBytes(t)
    ensures InTargetAt(data, k) == t
  {
    var w := InTargetBytes(t);
    InTargetBytesFields(t);
    assert data[k] == w[0] && data[k + 1] == w[1];
    assert data[k + 22] == w[22] && data[k + 23] == w[23] && data[k + 24] == w[24];
    SliceInSlice(data, k, w, 2, 6);
    SliceInSlice(data, k, w, 6, 10);
    SliceInSlice(data, k, w, 10, 14);
    SliceInSlice(data, k, w, 14, 18);
    SliceInSlice(data, k, w, 18, 22);
    SliceInSlice(data, k, w, 25, 29);
    SliceInSlice(data, k, w, 29, 33);
    SliceInSlice(data, k, w, 33, 37);
  }

  /** Where the fields of one target record sit. */
  lemma InTargetBytesFields(t: InTarget)
    ensures var w := InTargetBytes(t);
      && w[0] == t.id && w[1] == t.kind
      && w[2..6] == t.distance && w[6..10] == t.azimuth && w[10..14] == t.elevation
      && w[14..18] == t.velocity && w[18..22] == t.confidence
      && w[22] == t.threat && w[23] == t.stealth && w[24] == t.trackCmd
      && w[25..29] == t.azMiss && w[29..33] == t.elMiss && w[33..37] == t.targetAz
  {
    var a := [t.id, t.kind] + t.distance + t.azimuth + t.elevation + t.velocity + t.confidence;
    var b := [t.threat, t.stealth, t.trackCmd] + t.azMiss + t.elMiss + t.targetAz;
    assert InTargetBytes(t) == a + b;
    assert a[2..6] == t.distance && a[6..10] == t.azimuth && a[10..14] == t.elevation;
    assert a[14..18] == t.velocity && a[18..22] == t.confidence;
    assert b[3..7] == t.azMiss && b[7..11] == t.elMiss && b[11..15] == t.targetAz;
    SliceOfPrefix(a, b, 2, 6);
    SliceOfPrefix(a, b, 6, 10);
    SliceOfPrefix(a, b, 10, 14);
    SliceOfPrefix(a, b, 14, 18);
    SliceOfPrefix(a, b, 18, 22);
    assert (a + b)[22..] == b;
    SliceInSlice(a + b, 22, b, 3, 7);
    SliceInSlice(a + b, 22, b, 7, 11);
    SliceInSlice(a + b, 22, b, 11, 15);
  }

  /** Where the fields of an input packet sit. */
  lemma InputPacketLayout(x: Input, maxTargets: Byte)
    requires |x.targets| < 0x100
    ensures var p := InputPacket(x, maxTargets);
      var n := |x.targets|;
      && |p| == InputSize(n)
      && p[0] == 0x55 && p[1] == 0xAA && p[2] == x.msgType
      && ReadLE16(p, 3) == InputSize(n) - 5
      && p[5..13] == x.lon && p[13..21] == x.lat && p[21] == n
      && (forall i :: 0 <= i < n ==>
            p[23 + InputRecordSize * i .. 23 + InputRecordSize * (i + 1)] == InTargetBytes(x.targets[i]))
      && p[23 + InputRecordSize * n..] == x.fovCenter
  {
    var n := |x.targets|;
    var p := InputPacket(x, maxTargets);
    var blk := InTargetsBytes(x.targets);
    assert p[..5] == LE16(Header) + [x.msgType] + LE16(InputSize(n) - 5);
    assert p[23..23 + |blk|] == blk;
    forall i | 0 <= i < n
      ensures p[23 + InputRecordSize * i .. 23 + InputRecordSize * (i + 1)] == InTargetBytes(x.targets[i])
    {
      RecordBounds(InputRecordSize, i, n);
      InTargetsBytesAt(x.targets, i);
      SliceInSlice(p, 23, blk, InputRecordSize * i, InputRecordSize * (i + 1));
    }
  }

  /** Round trip: a well-formed input packet parses back to what was sent. */
  lemma ParseInputPacket(x: Input, maxTargets: Byte)
    requires |x.targets| < 0x100 && x.header == Header
    ensures ParseInput(InputPacket(x, maxTargets)) == Ok(Some(x))
  {
    InputPacketLayout(x, maxTargets);
    ParseOfLayout(InputPacket(x, maxTargets), x);
  }

  lemma ParseOfLayout(p: seq<Byte>, x: Input)
    requires |x.targets| < 0x100 && x.header == Header
    requires var n := |x.targets|;
      && |p| == InputSize(n)
      && p[0] == 0x55 && p[1] == 0xAA && p[2] == x.msgType
      && ReadLE16(p, 3) == InputSize(n) - 5
      && p[5..13] == x.lon && p[13..21] == x.lat && p[21] == n
      && (forall i :: 0 <= i < n ==>
            p[23 + InputRecordSize * i .. 23 + InputRecordSize * (i + 1)] == InTargetBytes(x.targets[i]))
      && p[23 + InputRecordSize * n..] == x.fovCenter
    ensures ParseInput(p) == Ok(Some(x))
  {
    var n := |x.targets|;
    forall i | 0 <= i < n ensures InTargetAt(p, 23 + InputRecordSize * i) == x.targets[i] {
      InTargetAtBytes(p, 23 + InputRecordSize * i, x.targets[i]);
    }
    assert InTargets(p, n) == x.targets;
    assert ReadLE16(p, 0) == Header;
    assert p[23 + InputRecordSize * n..InputSize(n)] == x.fovCenter;
    assert Input(ReadLE16(p, 0), p[2], p[5..13], p[13..21], InTargets(p, n),
      p[23 + InputRecordSize * n..InputSize(n)]) == x;
  }

  /** The rejections: fewer than 5 bytes, a header other than 0xAA55, or fewer bytes than announced. */
  lemma InputRejects(data: seq<Byte>)
    ensures |data| < 5 ==> ParseInput(data) == Ok(None)
    ensures |data| >= 5 && ReadLE16(data, 0) != Header ==> ParseInput(data) == Ok(None)
    ensures |data| >= 5 && |data| < 5 + ReadLE16(data, 3) ==> ParseInput(data) == Ok(None)
  {
  }

  /**
   * No guard ties the count byte to the length field: a packet that
   * announces 0 bytes of payload but whose count byte claims one target,
   * with only 23 bytes, passes every check and then raises struct.error.
   */
  lemma ShortTargetsRaise()
    ensures var data: seq<Byte> := [0x55, 0xAA, 2, 0, 0] + seq(16, _ => 0) + [1, 0];
      ParseInput(data) == Fail(StructError)
  {
    var data: seq<Byte> := [0x55, 0xAA, 2, 0, 0] + seq(16, _ => 0) + [1, 0];
    assert data[0] == 0x55 && data[1] == 0xAA && data[3] == 0 && data[4] == 0;
  }
}
