/**
 * The CNI (communication, navigation, identification) binary frame of
 * cni_sim/protocol.py: a little-endian header, 30-byte target records, a
 * 19-byte communication/altimeter block and a 64-byte navigation block,
 * and the hexadecimal dump of a frame.
 */
module CniProtocol {
  import opened Common

  const TargetRecordSize: nat := 30
  const CommAltSize: nat := 19
  const NavSize: nat := 64
  const HeaderSize: nat := 5
  /** The bytes after the target block: the comm/altimeter and nav blocks. */
  const TrailerSize: nat := 83

  datatype Target = Target(
    targetId: int, lat: F32, lon: F32, alt: F32,
    velNorth: F32, velEast: F32, velDown: F32, azimuth: F32, iffCode: int)

  datatype Shortwave = Shortwave(sourceId: int, destId: int, txPower: F32, frequency: F32, timestamp: F32)
  datatype Altimeter = Altimeter(active: int, frequency: F32)
  datatype Vec3 = Vec3(x: F32, y: F32, z: F32)
  datatype NavState = NavState(
    egoLat: F32, egoLon: F32, egoAlt: F32, airspeed: F32, groundspeed: F32,
    accel: Vec3, angRate: Vec3, attitude: Vec3)
  datatype CniState = CniState(
    targets: seq<Target>, shortwave: Shortwave, altimeter: Altimeter, nav: NavState, frameMode: int)

  /** One '<B f f f f f f f B' record: id and IFF code masked to 8 bits. */
  function TargetRecord(t: Target): (r: seq<Byte>)
    ensures |r| == TargetRecordSize
    ensures r[0] == Mask8(t.targetId) && r[29] == Mask8(t.iffCode)
    ensures r[1..5] == t.lat && r[25..29] == t.azimuth
  {
    [Mask8(t.targetId)] + t.lat + t.lon + t.alt + t.velNorth + t.velEast + t.velDown + t.azimuth
      + [Mask8(t.iffCode)]
  }

  /** The target block: the records one after another. */
  function TargetsBlock(ts: seq<Target>): seq<Byte>
  {
    if ts == [] then [] else TargetsBlock(ts[..|ts| - 1]) + TargetRecord(ts[|ts| - 1])
  }

  lemma {:induction false} TargetsBlockSize(ts: seq<Target>)
    ensures |TargetsBlock(ts)| == TargetRecordSize * |ts|
  {
    if ts != [] {
      TargetsBlockSize(ts[..|ts| - 1]);
    }
  }

  lemma {:induction false} TargetsBlockLayout(ts: seq<Target>)
    ensures |TargetsBlock(ts)| == TargetRecordSize * |ts|
    ensures forall i :: 0 <= i < |ts| ==>
      TargetsBlock(ts)[TargetRecordSize * i .. TargetRecordSize * i + TargetRecordSize] == TargetRecord(ts[i])
  {
    TargetsBlockSize(ts);
    forall i | 0 <= i < |ts|
      ensures TargetsBlock(ts)[TargetRecordSize * i .. TargetRecordSize * i + TargetRecordSize] == TargetRecord(ts[i])
    {
      RecordInBlock(ts, i);
    }
  }

  lemma {:induction false} RecordInBlock(ts: seq<Target>, i: nat)
    requires i < |ts|
    ensures TargetRecordSize * i + TargetRecordSize <= |TargetsBlock(ts)|
    ensures TargetsBlock(ts)[TargetRecordSize * i .. TargetRecordSize * i + TargetRecordSize] == TargetRecord(ts[i])
  {
    var init := ts[..|ts| - 1];
    var a, c := TargetsBlock(init), TargetRecord(ts[|init|]);
    assert TargetsBlock(ts) == a + c;
    TargetsBlockSize(init);
    if i == |init| {
      assert (a + c)[|a|..] == c;
    } else {
      RecordInBlock(init, i);
      SliceOfPrefix(a, c, TargetRecordSize * i, TargetRecordSize * i + TargetRecordSize);
      assert init[i] == ts[i];
    }
  }

  /** _pack_targets: append one record per target. */
  method PackTargets(targets: seq<Target>) returns (buf: seq<Byte>)
    ensures buf == TargetsBlock(targets)
    ensures |buf| == TargetRecordSize * |targets|
  {
    buf := [];
    var i := 0;
    while i < |targets|
      invariant 0 <= i <= |targets|
      invariant buf == TargetsBlock(targets[..i])
    {
      assert targets[..i + 1][..i] == targets[..i];
      buf := buf + TargetRecord(targets[i]);
      i := i + 1;
    }
    assert targets[..i] == targets;
    TargetsBlockLayout(targets);
  }

  /** _pack_comm_and_alt: '<B B f f f B f'. */
  function CommAltBlock(st: CniState): (r: seq<Byte>)
    ensures |r| == CommAltSize
    ensures r[0] == Mask8(st.shortwave.sourceId) && r[1] == Mask8(st.shortwave.destId)
    ensures r[14] == Mask8(st.altimeter.active) && r[15..] == st.altimeter.frequency
  {
    [Mask8(st.shortwave.sourceId), Mask8(st.shortwave.destId)]
      + st.shortwave.txPower + st.shortwave.frequency + st.shortwave.timestamp
      + [Mask8(st.altimeter.active)] + st.altimeter.frequency
  }

  function Vec3Bytes(v: Vec3): (r: seq<Byte>)
    ensures |r| == 12
  {
    v.x + v.y + v.z
  }

  /** _pack_nav: sixteen float32 values, the last two reserved zeros. */
  function NavBlock(n: NavState): (r: seq<Byte>)
    ensures |r| == NavSize
    ensures r[..4] == n.egoLat && r[44..56] == Vec3Bytes(n.attitude)
    ensures r[56..] == ZeroF32 + ZeroF32
  {
    n.egoLat + n.egoLon + n.egoAlt + n.airspeed + n.groundspeed
      + Vec3Bytes(n.accel) + Vec3Bytes(n.angRate) + Vec3Bytes(n.attitude)
      + ZeroF32 + ZeroF32
  }

  /** build_frame: header '<H B B B' (0xAA55, mode, payload length, count) then the three blocks. */
  function BuildFrame(st: CniState): (r: seq<Byte>)
    ensures |r| == HeaderSize + TargetRecordSize * |st.targets| + TrailerSize
    ensures r[0] == 0x55 && r[1] == 0xAA
  {
    TargetsBlockSize(st.targets);
    FrameHeader(st) + (TargetsBlock(st.targets) + CommAltBlock(st) + NavBlock(st.nav))
  }

  /** Where everything sits in a frame, and the values of the header bytes. */
  lemma FrameLayout(st: CniState)
    ensures var f := BuildFrame(st);
      var n := |st.targets|;
      var tEnd := HeaderSize + TargetRecordSize * n;
      && |f| == HeaderSize + TargetRecordSize * n + TrailerSize
      && f[0] == 0x55 && f[1] == 0xAA
      && f[2] == Mask8(st.frameMode)
      && f[3] == (TargetRecordSize * n + TrailerSize) % 0x100
      && f[4] == n % 0x100
      && f[HeaderSize..tEnd] == TargetsBlock(st.targets)
      && f[tEnd..tEnd + CommAltSize] == CommAltBlock(st)
      && f[tEnd + CommAltSize..] == NavBlock(st.nav)
  {
    TargetsBlockSize(st.targets);
    var tb, ca, nav := TargetsBlock(st.targets), CommAltBlock(st), NavBlock(st.nav);
    var hdr := FrameHeader(st);
    assert BuildFrame(st) == hdr + tb + ca + nav;
    ConcatParts(hdr, tb, ca, nav);
  }

  /** The five header bytes of build_frame. */
  function FrameHeader(st: CniState): (r: seq<Byte>)
    ensures |r| == HeaderSize && r[0] == 0x55 && r[1] == 0xAA && r[2] == Mask8(st.frameMode)
    ensures r[3] == Mask8(|TargetsBlock(st.targets) + CommAltBlock(st) + NavBlock(st.nav)|)
    ensures r[4] == Mask8(|st.targets|)
  {
    var payload := TargetsBlock(st.targets) + CommAltBlock(st) + NavBlock(st.nav);
    var h := ToLE(0xAA55, 2);
    assert h == [0x55, 0xAA] by {
      assert h == [0xAA55 % 0x100] + ToLE(0xAA55 / 0x100, 1);
      assert ToLE(0xAA, 1) == [0xAA] + ToLE(0, 0);
    }
    h + [Mask8(st.frameMode), Mask8(|payload|), Mask8(|st.targets|)]
  }

  /** The length byte is exact only while the payload fits in a byte, i.e. for at most 5 targets. */
  lemma LengthFieldWraps(st: CniState)
    ensures var f := BuildFrame(st);
      |st.targets| <= 5 <==> f[3] == |f| - HeaderSize
  {
    FrameLayout(st);
  }

  /** Any id or IFF code is reduced to its low byte: 0x1FF and 0xFF give the same record. */
  lemma IdMasked(t: Target)
    ensures TargetRecord(t.(targetId := t.targetId + 0x100)) == TargetRecord(t)
    ensures TargetRecord(t.(iffCode := t.iffCode - 0x100)) == TargetRecord(t)
  {
  }

  // ---------------------------------------------------------------------
  // frame_to_hex

  /** bytes.hex(): two lower-case hex digits per byte. */
  function Hex(bs: seq<Byte>): (s: string)
    ensures |s| == 2 * |bs|
    ensures forall i :: 0 <= i < |s| ==> IsHexDigit(s[i])
  {
    if bs == [] then [] else Hex(bs[..|bs| - 1]) + HexByte(bs[|bs| - 1])
  }

  lemma {:induction false} HexDecodes(bs: seq<Byte>)
    ensures forall i :: 0 <= i < |bs| ==>
      HexDigitValue(Hex(bs)[2 * i]) * 16 + HexDigitValue(Hex(bs)[2 * i + 1]) == bs[i]
  {
    if bs != [] {
      var init := bs[..|bs| - 1];
      HexDecodes(init);
      var h := Hex(bs);
      forall i | 0 <= i < |bs|
        ensures HexDigitValue(h[2 * i]) * 16 + HexDigitValue(h[2 * i + 1]) == bs[i]
      {
        if i < |init| {
          assert h[2 * i] == Hex(init)[2 * i] && h[2 * i + 1] == Hex(init)[2 * i + 1];
          assert init[i] == bs[i];
        }
      }
    }
  }

  /** ' '.join of the slices of length w: a space after every w characters but the last. */
  function Grouped(s: string, w: nat): string
    requires w > 0
    decreases |s|
  {
    if |s| <= w then s else s[..w] + " " + Grouped(s[w..], w)
  }

  function FrameToHex(frame: seq<Byte>, group: int): (r: string)
    ensures group <= 1 ==> |r| == 2 * |frame|
    ensures frame == [] ==> r == []
  {
    var h := Hex(frame);
    if group <= 1 then h else Grouped(h, 2 * group)
  }

  /** Drop every space: undoes the grouping. */
  function Unspaced(s: string): (r: string)
    ensures |r| <= |s|
  {
    if s == [] then [] else Unspaced(s[..|s| - 1]) + (if s[|s| - 1] == ' ' then [] else [s[|s| - 1]])
  }

  lemma {:induction false} UnspacedAppend(a: string, b: string)
    ensures Unspaced(a + b) == Unspaced(a) + Unspaced(b)
    decreases |b|
  {
    if b != [] {
      UnspacedAppend(a, b[..|b| - 1]);
      assert (a + b)[..|a + b| - 1] == a + b[..|b| - 1];
    } else {
      assert a + b == a;
    }
  }

  lemma {:induction false} UnspacedNoSpace(s: string)
    requires forall i :: 0 <= i < |s| ==> s[i] != ' '
    ensures Unspaced(s) == s
  {
    if s != [] {
      UnspacedNoSpace(s[..|s| - 1]);
    }
  }

  lemma {:induction false} UngroupGrouped(s: string, w: nat)
    requires w > 0
    requires forall i :: 0 <= i < |s| ==> s[i] != ' '
    ensures Unspaced(Grouped(s, w)) == s
    decreases |s|
  {
    if |s| <= w {
      UnspacedNoSpace(s);
    } else {
      UngroupGrouped(s[w..], w);
      UnspacedAppend(s[..w] + " ", Grouped(s[w..], w));
      UnspacedSpace(s[..w]);
      UnspacedNoSpace(s[..w]);
      assert s[..w] + s[w..] == s;
    }
  }

  lemma UnspacedSpace(a: string)
    ensures Unspaced(a + " ") == Unspaced(a)
  {
    assert (a + " ")[..|a|] == a;
  }

  /**
   * Character c of group k of a grouped string: position w of every group
   * is a space, the others are the input in order.
   */
  lemma {:induction false} GroupedAt(s: string, w: nat, k: nat, c: nat)
    requires w > 0 && c <= w && k * (w + 1) + c < |Grouped(s, w)|
    ensures c == w ==> Grouped(s, w)[k * (w + 1) + c] == ' '
    ensures c < w ==> k * w + c < |s| && Grouped(s, w)[k * (w + 1) + c] == s[k * w + c]
    decreases k
  {
    if k == 0 {
      GroupedHead(s, w, c);
    } else {
      GroupStep(k, w, c);
      GroupedShift(s, w, k * (w + 1) + c);
      GroupedAt(s[w..], w, k - 1, c);
    }
  }

  /** Within the first group, the grouped string holds the input, then the space. */
  lemma GroupedHead(s: string, w: nat, c: nat)
    requires w > 0 && c <= w && c < |Grouped(s, w)|
    ensures c == w ==> Grouped(s, w)[c] == ' '
    ensures c < w ==> c < |s| && Grouped(s, w)[c] == s[c]
  {
    if |s| > w {
      assert Grouped(s, w) == s[..w] + " " + Grouped(s[w..], w);
    }
  }

  /** Past the first group and its space, the grouped string is the grouping of the rest. */
  lemma GroupedShift(s: string, w: nat, i: nat)
    requires w > 0 && w + 1 <= i < |Grouped(s, w)|
    ensures |s| > w && i - (w + 1) < |Grouped(s[w..], w)|
    ensures Grouped(s, w)[i] == Grouped(s[w..], w)[i - (w + 1)]
  {
    assert Grouped(s, w) == s[..w] + " " + Grouped(s[w..], w);
  }

  lemma GroupStep(k: nat, w: nat, c: nat)
    requires k > 0
    ensures k * (w + 1) + c == (k - 1) * (w + 1) + c + (w + 1) >= w + 1
    ensures k * w + c == ((k - 1) * w + c) + w
  {
  }

  /** frame_to_hex with group <= 1 is the plain hex string; otherwise removing the spaces gives it back. */
  lemma FrameToHexShape(frame: seq<Byte>, group: int)
    ensures group <= 1 ==>
      |FrameToHex(frame, group)| == 2 * |frame|
      && forall i :: 0 <= i < |FrameToHex(frame, group)| ==> FrameToHex(frame, group)[i] != ' '
    ensures Unspaced(FrameToHex(frame, group)) == Hex(frame)
  {
    var h := Hex(frame);
    assert forall i :: 0 <= i < |h| ==> h[i] != ' ';
    if group <= 1 {
      UnspacedNoSpace(h);
    } else {
      UngroupGrouped(h, 2 * group);
    }
  }

  /** group = 2 on two bytes needs no separator; on three bytes one space splits 4 + 2 digits. */
  lemma FrameToHexExample()
    ensures FrameToHex([0x55, 0xAA], 2) == "55aa"
    ensures FrameToHex([0x55, 0xAA, 0x01], 2) == "55aa 01"
  {
    assert [0x55, 0xAA][..1] == [0x55];
    assert [0x55, 0xAA, 0x01][..2] == [0x55, 0xAA];
    assert Hex([0x55]) == "55";
    assert Hex([0x55, 0xAA]) == "55aa";
    assert Hex([0x55, 0xAA, 0x01]) == "55aa01";
    assert "55aa01"[..4] == "55aa" && "55aa01"[4..] == "01";
  }
}
