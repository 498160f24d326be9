/**
 * The DAS (distributed aperture system) packet formats of
 * DAS_New/das_protocol.py. The output packet is header '<HBH H' (0xAA55,
 * message type 2, length of the rest, sequence number), seven control
 * bytes, two fixed 3-byte sub-module entries, a 7-byte sensor block, the
 * raw image, a target count with 13-byte target records and an 18-byte
 * tail. The input packet is the same 7-byte header, six control bytes,
 * 13-byte targets and an optional trailing EW byte.
 */
module DasProtocol {
  import opened Common

  const Header: nat := 0xAA55
  const OutputMsgType: nat := 2
  const HeaderSize: nat := 7
  const TargetRecordSize: nat := 13
  /** The two sub-module entries the packer always writes: (id, state, enable). */
  const SubModules: seq<Byte> := [1, 1, 1, 2, 1, 1]

  const F32Zero: F32 := [0x00, 0x00, 0x00, 0x00]
  const F32OneTwenty: F32 := [0x00, 0x00, 0xF0, 0x42]
  const F32Ninety: F32 := [0x00, 0x00, 0xB4, 0x42]

  function IntOr(o: Option<int>, d: int): int { if o.Some? then o.value else d }
  function F32Or(o: Option<F32>, d: F32): F32 { if o.Some? then o.value else d }

  /** The `state` dict; None stands for a missing key (default 0). */
  datatype SimState = SimState(
    controlCmd: Option<int>, systemMode: Option<int>, taskMode: Option<int>,
    simulationState: Option<int>, overlayEnable: Option<int>, renderMode: Option<int>,
    ewInterferenceLevel: Option<int>, fakeTargetFlag: Option<int>)

  /** The sensor configuration dict. */
  datatype SensorConfig = SensorConfig(
    sensorId: Option<int>, imageWidth: Option<int>, imageHeight: Option<int>,
    pixelDepth: Option<int>, imageFormat: Option<int>)

  datatype OutTarget = OutTarget(id: Option<int>, azimuth: Option<F32>, elevation: Option<F32>, range: Option<F32>)

  datatype FovInfo = FovInfo(centerAz: Option<F32>, centerEl: Option<F32>, width: Option<F32>, height: Option<F32>)

  function Width(sc: SensorConfig): int { IntOr(sc.imageWidth, 64) }
  function Height(sc: SensorConfig): int { IntOr(sc.imageHeight, 64) }

  /** bytes([0] * (w * h)) for a missing image; a negative product gives no bytes. */
  function ImageBytes(sc: SensorConfig, image: Option<seq<Byte>>): (r: seq<Byte>)
    ensures image.None? ==> |r| == (if Width(sc) * Height(sc) > 0 then Width(sc) * Height(sc) else 0)
    ensures image.None? ==> forall i :: 0 <= i < |r| ==> r[i] == 0
    ensures image.Some? ==> r == image.value
  {
    if image.Some? then image.value
    else
      var n := Width(sc) * Height(sc);
      seq(if n > 0 then n else 0, _ => 0)
  }

  function PayloadLength(imageLen: nat, m: nat): nat
  {
    7 + 3 * 2 + 7 + imageLen + 1 + TargetRecordSize * m + 18
  }

  predicate TargetPackable(t: OutTarget) { IsByte(IntOr(t.id, 0)) }

  /** struct.pack raises unless every field fits its format. */
  predicate Packable(sequence: int, st: SimState, sc: SensorConfig, image: Option<seq<Byte>>, ts: seq<OutTarget>)
  {
    && IsU16(PayloadLength(|ImageBytes(sc, image)|, |ts|)) && IsU16(sequence)
    && IsByte(IntOr(st.controlCmd, 0)) && IsByte(IntOr(st.systemMode, 0)) && IsByte(IntOr(st.taskMode, 0))
    && IsByte(IntOr(st.simulationState, 0)) && IsByte(IntOr(st.overlayEnable, 0))
    && IsByte(IntOr(st.renderMode, 0))
    && IsByte(IntOr(sc.sensorId, 0)) && IsU16(Width(sc)) && IsU16(Height(sc))
    && IsByte(IntOr(sc.pixelDepth, 8)) && IsByte(IntOr(sc.imageFormat, 0))
    && |ts| < 0x100 && (forall i :: 0 <= i < |ts| ==> TargetPackable(ts[i]))
    && IsByte(IntOr(st.ewInterferenceLevel, 0)) && IsByte(IntOr(st.fakeTargetFlag, 0))
  }

  function ControlBytes(st: SimState): (r: seq<Byte>)
    requires IsByte(IntOr(st.controlCmd, 0)) && IsByte(IntOr(st.systemMode, 0)) && IsByte(IntOr(st.taskMode, 0))
    requires IsByte(IntOr(st.simulationState, 0)) && IsByte(IntOr(st.overlayEnable, 0))
    requires IsByte(IntOr(st.renderMode, 0))
    ensures |r| == 7 && r[6] == 2
  {
    [IntOr(st.controlCmd, 0), IntOr(st.systemMode, 0), IntOr(st.taskMode, 0),
     IntOr(st.simulationState, 0), IntOr(st.overlayEnable, 0), IntOr(st.renderMode, 0), 2]
  }

  function SensorBytes(sc: SensorConfig): (r: seq<Byte>)
    requires IsByte(IntOr(sc.sensorId, 0)) && IsU16(Width(sc)) && IsU16(Height(sc))
    requires IsByte(IntOr(sc.pixelDepth, 8)) && IsByte(IntOr(sc.imageFormat, 0))
    ensures |r| == 7 && ReadLE16(r, 1) == Width(sc) && ReadLE16(r, 3) == Height(sc)
  {
    [IntOr(sc.sensorId, 0)] + LE16(Width(sc)) + LE16(Height(sc))
      + [IntOr(sc.pixelDepth, 8), IntOr(sc.imageFormat, 0)]
  }

  /** One '<Bfff' target record. */
  function TargetRecord(t: OutTarget): (r: seq<Byte>)
    requires TargetPackable(t)
    ensures |r| == TargetRecordSize && r[0] == IntOr(t.id, 0)
  {
    [IntOr(t.id, 0)] + F32Or(t.azimuth, F32Zero) + F32Or(t.elevation, F32Zero) + F32Or(t.range, F32Zero)
  }

  function TargetRecords(ts: seq<OutTarget>): (r: seq<Byte>)
    requires forall i :: 0 <= i < |ts| ==> TargetPackable(ts[i])
    ensures |r| == TargetRecordSize * |ts|
  {
    if ts == [] then [] else TargetRecords(ts[..|ts| - 1]) + TargetRecord(ts[|ts| - 1])
  }

  /** '<BBffff': EW level, fake-target flag and the field of view (default 120 x 90 degrees). */
  function TailBytes(st: SimState, fov: FovInfo): (r: seq<Byte>)
    requires IsByte(IntOr(st.ewInterferenceLevel, 0)) && IsByte(IntOr(st.fakeTargetFlag, 0))
    ensures |r| == 18
  {
    [IntOr(st.ewInterferenceLevel, 0), IntOr(st.fakeTargetFlag, 0)]
      + F32Or(fov.centerAz, F32Zero) + F32Or(fov.centerEl, F32Zero)
      + F32Or(fov.width, F32OneTwenty) + F32Or(fov.height, F32Ninety)
  }

  /** pack_output. */
  function OutputPacket(sequence: int, st: SimState, sc: SensorConfig, image: Option<seq<Byte>>,
                        ts: seq<OutTarget>, fov: FovInfo): (r: Result<seq<Byte>>)
    ensures r.Fail? <==> !Packable(sequence, st, sc, image, ts)
    ensures r.Fail? ==> r.error == StructError
    ensures r.Ok? ==> |r.value| == HeaderSize + PayloadLength(|ImageBytes(sc, image)|, |ts|)
  {
    if !Packable(sequence, st, sc, image, ts) then Fail(StructError)
    else
      var img := ImageBytes(sc, image);
      Ok(LE16(Header) + [OutputMsgType] + LE16(PayloadLength(|img|, |ts|)) + LE16(sequence)
        + ControlBytes(st) + SubModules + SensorBytes(sc) + img
        + [|ts|] + TargetRecords(ts) + TailBytes(st, fov))
  }

  /** pack_output as the source writes it, growing the buffer block by block. */
  method PackOutput(sequence: int, st: SimState, sc: SensorConfig, image: Option<seq<Byte>>,
                    ts: seq<OutTarget>, fov: FovInfo) returns (r: Result<seq<Byte>>)
    ensures r == OutputPacket(sequence, st, sc, image, ts, fov)
  {
    var img := ImageBytes(sc, image);
    if !Packable(sequence, st, sc, image, ts) {
      return Fail(StructError);
    }
    var buffer := LE16(Header) + [OutputMsgType] + LE16(PayloadLength(|img|, |ts|)) + LE16(sequence);
    buffer := buffer + ControlBytes(st);
    var k := 0;
    while k < 2
      invariant 0 <= k <= 2
      invariant buffer == LE16(Header) + [OutputMsgType] + LE16(PayloadLength(|img|, |ts|)) + LE16(sequence)
        + ControlBytes(st) + SubModules[..3 * k]
    {
      assert SubModules[..3 * (k + 1)] == SubModules[..3 * k] + [k + 1, 1, 1];
      buffer := buffer + [k + 1, 1, 1];
      k := k + 1;
    }
    assert SubModules[..6] == SubModules;
    buffer := buffer + SensorBytes(sc) + img + [|ts|];
    var records := PackTargets(ts);
    buffer := buffer + records + TailBytes(st, fov);
    assert buffer == LE16(Header) + [OutputMsgType] + LE16(PayloadLength(|img|, |ts|)) + LE16(sequence)
        + ControlBytes(st) + SubModules + SensorBytes(sc) + img
        + [|ts|] + TargetRecords(ts) + TailBytes(st, fov);
    r := Ok(buffer);
  }

  /** The target loop of pack_output. */
  method PackTargets(ts: seq<OutTarget>) returns (out: seq<Byte>)
    requires forall i :: 0 <= i < |ts| ==> TargetPackable(ts[i])
    ensures out == TargetRecords(ts)
  {
    out := [];
    var i := 0;
    while i < |ts|
      invariant 0 <= i <= |ts|
      invariant out == TargetRecords(ts[..i])
    {
      assert ts[..i + 1][..i] == ts[..i];
      out := out + TargetRecord(ts[i]);
      i := i + 1;
    }
    assert ts[..i] == ts;
  }

  /** Record i of the target block sits at 13 * i. */
  lemma {:induction false} TargetRecordsAt(ts: seq<OutTarget>, i: nat)
    requires forall j :: 0 <= j < |ts| ==> TargetPackable(ts[j])
    requires i < |ts|
    ensures TargetRecords(ts)[TargetRecordSize * i .. TargetRecordSize * (i + 1)] == TargetRecord(ts[i])
  {
    var init := ts[..|ts| - 1];
    var b := TargetRecords(ts);
    if i < |init| {
      TargetRecordsAt(init, i);
      assert b[..TargetRecordSize * |init|] == TargetRecords(init);
      assert init[i] == ts[i];
    } else {
      assert b[TargetRecordSize * |init|..] == TargetRecord(ts[i]);
    }
  }

  /**
   * A packed output: header 0x55 0xAA 0x02, a length field equal to the
   * bytes after the 7-byte header, the caller's sequence number, the two
   * sub-modules, the image at offset 27, then the target count and the
   * target block (record i of which TargetRecordsAt places).
   */
  lemma OutputLayout(sequence: int, st: SimState, sc: SensorConfig, image: Option<seq<Byte>>,
                     ts: seq<OutTarget>, fov: FovInfo)
    requires OutputPacket(sequence, st, sc, image, ts, fov).Ok?
    ensures var p := OutputPacket(sequence, st, sc, image, ts, fov).value;
      var img := ImageBytes(sc, image);
      && |p| == HeaderSize + PayloadLength(|img|, |ts|)
      && |p| == 39 + |img| + TargetRecordSize * |ts| + HeaderSize
      && p[0] == 0x55 && p[1] == 0xAA && p[2] == OutputMsgType
      && ReadLE16(p, 3) == |p| - HeaderSize
      && ReadLE16(p, 5) == sequence
      && p[14..20] == SubModules
      && p[27..27 + |img|] == img
      && p[27 + |img|] == |ts|
      && p[28 + |img|..28 + |img| + TargetRecordSize * |ts|] == TargetRecords(ts)
  {
    var p := OutputPacket(sequence, st, sc, image, ts, fov).value;
    var img := ImageBytes(sc, image);
    var head := LE16(Header) + [OutputMsgType] + LE16(PayloadLength(|img|, |ts|)) + LE16(sequence);
    var recs := TargetRecords(ts);
    PartsAt(head, ControlBytes(st), SensorBytes(sc), img, |ts|, recs, TailBytes(st, fov));
    OutputHead(p, head, sequence, PayloadLength(|img|, |ts|));
  }

  /** The header fields, read back from a packet that starts with the header bytes. */
  lemma OutputHead(p: seq<Byte>, head: seq<Byte>, sequence: int, len: int)
    requires IsU16(sequence) && IsU16(len)
    requires head == LE16(Header) + [OutputMsgType] + LE16(len) + LE16(sequence)
    requires |p| >= 7 && p[..7] == head
    ensures p[0] == 0x55 && p[1] == 0xAA && p[2] == OutputMsgType
    ensures ReadLE16(p, 3) == len && ReadLE16(p, 5) == sequence
  {
    assert ReadLE16(p, 3) == ReadLE16(head, 3);
    assert ReadLE16(p, 5) == ReadLE16(head, 5);
  }



  /** Where each block of the output concatenation starts. */
  lemma PartsAt(head: seq<Byte>, ctrl: seq<Byte>, sensor: seq<Byte>, img: seq<Byte>, n: Byte,
                recs: seq<Byte>, tail: seq<Byte>)
    requires |head| == 7 && |ctrl| == 7 && |sensor| == 7
    ensures var p := head + ctrl + SubModules + sensor + img + [n] + recs + tail;
      && p[..7] == head && p[14..20] == SubModules && p[27..27 + |img|] == img
      && p[27 + |img|] == n && p[28 + |img|..28 + |img| + |recs|] == recs
  {
  }

  /** Without an image the packet carries width x height zero bytes at offset 27. */
  lemma MissingImageIsBlank(sequence: int, st: SimState, sc: SensorConfig, ts: seq<OutTarget>, fov: FovInfo)
    requires OutputPacket(sequence, st, sc, None, ts, fov).Ok?
    ensures var p := OutputPacket(sequence, st, sc, None, ts, fov).value;
      && |p| >= 27 + Width(sc) * Height(sc)
      && forall i :: 27 <= i < 27 + Width(sc) * Height(sc) ==> p[i] == 0
  {
    OutputLayout(sequence, st, sc, None, ts, fov);
    var p := OutputPacket(sequence, st, sc, None, ts, fov).value;
    var img := ImageBytes(sc, None);
    assert Width(sc) >= 0 && Height(sc) >= 0;
    assert |img| == Width(sc) * Height(sc);
    forall i | 27 <= i < 27 + Width(sc) * Height(sc) ensures p[i] == 0 {
      assert p[i] == p[27..27 + |img|][i - 27];
    }
  }

  /** A 256th target, or a 64 x 1024 image (whose length overflows the 16-bit length field), makes pack_output raise. */
  lemma OutputOverflows(sequence: int, st: SimState, sc: SensorConfig, ts: seq<OutTarget>, fov: FovInfo)
    ensures |ts| >= 0x100 ==> OutputPacket(sequence, st, sc, None, ts, fov) == Fail(StructError)
    ensures Width(sc) == 64 && Height(sc) == 1024 ==> OutputPacket(sequence, st, sc, None, ts, fov) == Fail(StructError)
  {
  }

  // ---------------------------------------------------------------------
  // unpack_input

  datatype InTarget = InTarget(id: Byte, azimuth: F32, elevation: F32, range: F32)

  datatype Input = Input(
    sequence: int, scenario: Byte, cmd: Byte, sysMode: Byte, taskMode: Byte, simState: Byte,
    targets: seq<InTarget>, ew: Byte)

  function InTargetAt(data: seq<Byte>, k: nat): InTarget
    requires k + TargetRecordSize <= |data|
  {
    InTarget(data[k], data[k + 1..k + 5], data[k + 5..k + 9], data[k + 9..k + 13])
  }

  function InTargets(data: seq<Byte>, n: nat): (ts: seq<InTarget>)
    requires 13 + TargetRecordSize * n <= |data|
    ensures |ts| == n
  {
    seq(n, i requires 0 <= i < n => InTargetAt(data, 13 + TargetRecordSize * i))
  }

  /**
   * unpack_input: Ok(None) for fewer than 7 bytes or a wrong header;
   * Fail(StructError) when the control bytes or the announced targets run
   * past the end; the EW byte is 0 when nothing follows the targets. The
   * length field is not consulted.
   */
  function ParseInput(data: seq<Byte>): (r: Result<Option<Input>>)
    ensures |data| < HeaderSize ==> r == Ok(None)
    ensures r.Fail? ==> r.error == StructError
    ensures r.Ok? && r.value.Some? ==>
      && ReadLE16(data, 0) == Header
      && |data| >= 13 && |data| >= 13 + TargetRecordSize * data[12]
      && |r.value.value.targets| == data[12]
      && (r.value.value.ew != 0 ==> |data| > 13 + TargetRecordSize * data[12])
  {
    if |data| < HeaderSize || ReadLE16(data, 0) != Header then Ok(None)
    else if |data| < 13 || |data| < 13 + TargetRecordSize * data[12] then Fail(StructError)
    else
      var n := data[12];
      var end := 13 + TargetRecordSize * n;
      Ok(Some(Input(ReadLE16(data, 5), data[7], data[8], data[9], data[10], data[11],
        InTargets(data, n), if end < |data| then data[end] else 0)))
  }

  /** unpack_input as the source writes it, with a running offset. */
  method UnpackInput(data: seq<Byte>) returns (r: Result<Option<Input>>)
    ensures r == ParseInput(data)
  {
    if |data| < HeaderSize {
      return Ok(None);
    }
    var header := ReadLE16(data, 0);
    var sequence := ReadLE16(data, 5);
    if header != Header {
      return Ok(None);
    }
    var offset: nat := 7;
    if |data| < offset + 6 {
      return Fail(StructError);
    }
    var scenario, cmd, sysMode, taskMode, simState, tgtNum :=
      data[7], data[8], data[9], data[10], data[11], data[12];
    offset := offset + 6;
    var targets: seq<InTarget> := [];
    var i := 0;
    while i < tgtNum
      invariant 0 <= i <= tgtNum
      invariant offset == 13 + TargetRecordSize * i <= |data|
      invariant targets == InTargets(data, i)
    {
      if |data| < offset + TargetRecordSize {
        return Fail(StructError);
      }
      targets := targets + [InTargetAt(data, offset)];
      offset := offset + TargetRecordSize;
      i := i + 1;
    }
    var ew := if offset < |data| then data[offset] else 0;
    r := Ok(Some(Input(sequence, scenario, cmd, sysMode, taskMode, simState, targets, ew)));
  }

  // ---------------------------------------------------------------------
  // The controller's side of the input packet, as the partner of the parser

  function InTargetBytes(t: InTarget): (r: seq<Byte>)
    ensures |r| == TargetRecordSize
  {
    [t.id] + t.azimuth + t.elevation + t.range
  }

  function InTargetsBytes(ts: seq<InTarget>): (r: seq<Byte>)
    ensures |r| == TargetRecordSize * |ts|
  {
    if ts == [] then [] else InTargetsBytes(ts[..|ts| - 1]) + InTargetBytes(ts[|ts| - 1])
  }

  /** An input packet; the EW byte is sent only when `withEw` holds. */
  function InputPacket(x: Input, msgType: Byte, length: int, withEw: bool): seq<Byte>
    requires |x.targets| < 0x100 && IsU16(x.sequence) && IsU16(length)
  {
    LE16(Header) + [msgType] + LE16(length) + LE16(x.sequence)
      + [x.scenario, x.cmd, x.sysMode, x.taskMode, x.simState, |x.targets|]
      + InTargetsBytes(x.targets) + (if withEw then [x.ew] else [])
  }

  lemma {:induction false} InTargetsBytesAt(ts: seq<InTarget>, i: nat)
    requires i < |ts|
    ensures InTargetsBytes(ts)[TargetRecordSize * i .. TargetRecordSize * (i + 1)] == InTargetBytes(ts[i])
  {
    var init := ts[..|ts| - 1];
    var b := InTargetsBytes(ts);
    if i < |init| {
      InTargetsBytesAt(init, i);
      assert b[..TargetRecordSize * |init|] == InTargetsBytes(init);
      assert init[i] == ts[i];
    } else {
      assert b[TargetRecordSize * |init|..] == InTargetBytes(ts[i]);
    }
  }

  /** Where the fields of an input packet sit. */
  lemma InputPacketLayout(x: Input, msgType: Byte, length: int, withEw: bool)
    requires |x.targets| < 0x100 && IsU16(x.sequence) && IsU16(length)
    ensures var p := InputPacket(x, msgType, length, withEw);
      var n := |x.targets|;
      && |p| == 13 + TargetRecordSize * n + (if withEw then 1 else 0)
      && p[0] == 0x55 && p[1] == 0xAA && ReadLE16(p, 5) == x.sequence
      && p[7..13] == [x.scenario, x.cmd, x.sysMode, x.taskMode, x.simState, n]
      && (forall i :: 0 <= i < n ==>
            p[13 + TargetRecordSize * i .. 13 + TargetRecordSize * (i + 1)] == InTargetBytes(x.targets[i]))
      && (withEw ==> p[13 + TargetRecordSize * n] == x.ew)
  {
    var n := |x.targets|;
    var p := InputPacket(x, msgType, length, withEw);
    assert p[..7] == LE16(Header) + [msgType] + LE16(length) + LE16(x.sequence);
    assert p[7..13] == [x.scenario, x.cmd, x.sysMode, x.taskMode, x.simState, n];
    assert p[13..13 + TargetRecordSize * n] == InTargetsBytes(x.targets);
    forall i | 0 <= i < n
      ensures p[13 + TargetRecordSize * i .. 13 + TargetRecordSize * (i + 1)] == InTargetBytes(x.targets[i])
    {
      InTargetsBytesAt(x.targets, i);
    }
  }

  lemma InTargetAtBytes(data: seq<Byte>, k: nat, t: InTarget)
    requires k + TargetRecordSize <= |data| && data[k..k + TargetRecordSize] == InTargetBytes(t)
    ensures InTargetAt(data, k) == t
  {
    var w := data[k..k + TargetRecordSize];
    assert w[0] == data[k];
    assert w[1..5] == data[k + 1..k + 5];
    assert w[5..9] == data[k + 5..k + 9];
    assert w[9..13] == data[k + 9..k + 13];
  }

  /**
   * Round trip: a packet with the EW byte parses back to what was sent,
   * and one without it parses back with EW 0.
   */
  lemma ParseInputPacket(x: Input, msgType: Byte, length: int, withEw: bool)
    requires |x.targets| < 0x100 && IsU16(x.sequence) && IsU16(length)
    ensures ParseInput(InputPacket(x, msgType, length, withEw))
      == Ok(Some(if withEw then x else x.(ew := 0)))
  {
    InputPacketLayout(x, msgType, length, withEw);
    ParseOfLayout(InputPacket(x, msgType, length, withEw), x, withEw);
  }

  /** Target records laid out one after another from offset 13 parse back to the targets. */
  lemma InTargetsOfLayout(p: seq<Byte>, ts: seq<InTarget>)
    requires 13 + TargetRecordSize * |ts| <= |p|
    requires forall i :: 0 <= i < |ts| ==>
      p[13 + TargetRecordSize * i .. 13 + TargetRecordSize * (i + 1)] == InTargetBytes(ts[i])
    ensures InTargets(p, |ts|) == ts
  {
    forall i | 0 <= i < |ts| ensures InTargetAt(p, 13 + TargetRecordSize * i) == ts[i] {
      RecordBounds(TargetRecordSize, i, |ts|);
      InTargetAtBytes(p, 13 + TargetRecordSize * i, ts[i]);
    }
  }

  lemma ParseOfLayout(p: seq<Byte>, x: Input, withEw: bool)
    requires |x.targets| < 0x100 && IsU16(x.sequence)
    requires var n := |x.targets|;
      && |p| == 13 + TargetRecordSize * n + (if withEw then 1 else 0)
      && p[0] == 0x55 && p[1] == 0xAA && ReadLE16(p, 5) == x.sequence
      && p[7..13] == [x.scenario, x.cmd, x.sysMode, x.taskMode, x.simState, n]
      && (forall i :: 0 <= i < n ==>
            p[13 + TargetRecordSize * i .. 13 + TargetRecordSize * (i + 1)] == InTargetBytes(x.targets[i]))
      && (withEw ==> p[13 + TargetRecordSize * n] == x.ew)
    ensures ParseInput(p) == Ok(Some(if withEw then x else x.(ew := 0)))
  {
    var n := |x.targets|;
    assert p[7] == x.scenario && p[8] == x.cmd && p[9] == x.sysMode && p[10] == x.taskMode
      && p[11] == x.simState && p[12] == n;
    InTargetsOfLayout(p, x.targets);
    assert ReadLE16(p, 0) == Header;
    var end := 13 + TargetRecordSize * n;
    assert if withEw then end < |p| && p[end] == x.ew else end == |p|;
  }

  /** Fewer than 7 bytes or a header other than 0xAA55 are rejected without an error. */
  lemma InputRejects(data: seq<Byte>)
    ensures |data| < HeaderSize ==> ParseInput(data) == Ok(None)
    ensures |data| >= HeaderSize && ReadLE16(data, 0) != Header ==> ParseInput(data) == Ok(None)
  {
  }
}
