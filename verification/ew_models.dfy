/**
 * The electronic-warfare signal record of ew/models.py: the SignalType and
 * Modulation enumerations, the 64-byte little-endian binary struct
 * '<I i Q d d f f f f f f f i' and the JSON object form.
 *
 * Python floats are doubles; the model keeps each one as the 8 bytes of
 * its float64 encoding. Packing a float into a 4-byte 'f' field narrows it,
 * and unpacking widens it back; both conversions are parameters
 * (`narrow` answers None when the value is too large for a float32, where
 * struct.pack raises OverflowError).
 */
module EwModels {
  import opened Common

  datatype SignalType = SigRadar | SigComm | SigJam
  {
    function Code(): int
    {
      match this
      case SigRadar => 1
      case SigComm => 2
      case SigJam => 3
    }
  }

  datatype Modulation = ModNone | Am | Fm | Bpsk | Qpsk | Qam16 | Qam64 | Ofdm
  {
    function Code(): int
    {
      match this
      case ModNone => 0
      case Am => 1
      case Fm => 2
      case Bpsk => 3
      case Qpsk => 4
      case Qam16 => 5
      case Qam64 => 6
      case Ofdm => 7
    }
  }

  /** SignalType(n): ValueError for a value outside the enumeration. */
  function SignalTypeOf(n: int): (r: Result<SignalType>)
    ensures r.Ok? <==> 1 <= n <= 3
    ensures r.Ok? ==> r.value.Code() == n
    ensures r.Fail? ==> r.error == ValueError
  {
    if n == 1 then Ok(SigRadar)
    else if n == 2 then Ok(SigComm)
    else if n == 3 then Ok(SigJam)
    else Fail(ValueError)
  }

  /** Modulation(n): ValueError for a value outside 0..7. */
  function ModulationOf(n: int): (r: Result<Modulation>)
    ensures r.Ok? <==> 0 <= n <= 7
    ensures r.Ok? ==> r.value.Code() == n
    ensures r.Fail? ==> r.error == ValueError
  {
    if n == 0 then Ok(ModNone)
    else if n == 1 then Ok(Am)
    else if n == 2 then Ok(Fm)
    else if n == 3 then Ok(Bpsk)
    else if n == 4 then Ok(Qpsk)
    else if n == 5 then Ok(Qam16)
    else if n == 6 then Ok(Qam64)
    else if n == 7 then Ok(Ofdm)
    else Fail(ValueError)
  }

  /** Every enumeration member converts back from its own value. */
  lemma EnumCodesInvert(t: SignalType, m: Modulation)
    ensures SignalTypeOf(t.Code()) == Ok(t)
    ensures ModulationOf(m.Code()) == Ok(m)
  {
    match t
    case SigRadar =>
    case SigComm =>
    case SigJam =>
  }

  /** The EWSignal dataclass; the seven float32 fields are kept in `f32s`, in struct order. */
  datatype EwSignal = EwSignal(
    sourceId: int, sigType: SignalType, timestampMs: int,
    centerFreqHz: F64, bandwidthHz: F64,
    signalPowerDbm: F64, snrDb: F64, azimuthDeg: F64, elevationDeg: F64,
    rangeM: F64, priMs: F64, pulseWidthUs: F64,
    modulation: Modulation)

  /** The seven fields packed as 'f', in struct order. */
  function SingleFields(s: EwSignal): seq<F64>
  {
    [s.signalPowerDbm, s.snrDb, s.azimuthDeg, s.elevationDeg, s.rangeM, s.priMs, s.pulseWidthUs]
  }

  function WithSingleFields(s: EwSignal, fs: seq<F64>): (r: EwSignal)
    requires |fs| == 7
    ensures SingleFields(r) == fs
  {
    s.(signalPowerDbm := fs[0], snrDb := fs[1], azimuthDeg := fs[2], elevationDeg := fs[3],
       rangeM := fs[4], priMs := fs[5], pulseWidthUs := fs[6])
  }

  /** struct.calcsize of the record format: 4 + 4 + 8 + 2 * 8 + 7 * 4 + 4. */
  const StructSize: nat := 64

  const Two31: int := 0x8000_0000
  const Two32: int := 0x1_0000_0000
  const Two64: int := 0x1_0000_0000_0000_0000

  /** The value of the '<i' field at offset k. */
  function ReadI32(b: seq<Byte>, k: nat): (v: int)
    requires k + 4 <= |b|
    ensures -Two31 <= v < Two31
  {
    var u := ReadLE32(b, k);
    if u < Two31 then u else u - Two32
  }

  /** A '<i' field. */
  function I32(v: int): (r: seq<Byte>)
    requires -Two31 <= v < Two31
    ensures |r| == 4 && ReadI32(r, 0) == v
  {
    LE32(if v >= 0 then v else v + Two32)
  }

  /** The value of the '<Q' field at offset k. */
  function ReadLE64(b: seq<Byte>, k: nat): (v: int)
    requires k + 8 <= |b|
    ensures 0 <= v < Two64
  {
    ReadLE32(b, k) + Two32 * ReadLE32(b, k + 4)
  }

  /** A '<Q' field. */
  function LE64(v: int): (r: seq<Byte>)
    requires 0 <= v < Two64
    ensures |r| == 8 && ReadLE64(r, 0) == v
  {
    var r := LE32(v % Two32) + LE32(v / Two32);
    assert ReadLE32(r, 4) == v / Two32;
    r
  }

  lemma LE64OfRead(b: seq<Byte>, k: nat)
    requires k + 8 <= |b|
    ensures LE64(ReadLE64(b, k)) == b[k..k + 8]
  {
    var lo, hi := ReadLE32(b, k), ReadLE32(b, k + 4);
    SplitWords(lo, hi);
    LE32OfRead(b, k);
    LE32OfRead(b, k + 4);
    assert b[k..k + 8] == b[k..k + 4] + b[k + 4..k + 8];
  }

  /** The low and high words of lo + 2^32 * hi. */
  lemma SplitWords(lo: int, hi: int)
    requires 0 <= lo < Two32
    ensures (lo + Two32 * hi) % Two32 == lo && (lo + Two32 * hi) / Two32 == hi
  {
  }

  lemma I32OfRead(b: seq<Byte>, k: nat)
    requires k + 4 <= |b|
    ensures I32(ReadI32(b, k)) == b[k..k + 4]
  {
    LE32OfRead(b, k);
  }

  /** The 28 bytes of seven float32 fields. */
  function SingleBlock(fs: seq<F32>): (r: seq<Byte>)
    requires |fs| == 7
    ensures |r| == 28
  {
    var head: seq<Byte> := fs[0];
    head + fs[1] + fs[2] + fs[3] + fs[4] + fs[5] + fs[6]
  }

  /** The seven float32 fields starting at offset k. */
  function SinglesAt(b: seq<Byte>, k: nat): (fs: seq<F32>)
    requires k + 28 <= |b|
    ensures |fs| == 7
  {
    seq(7, i requires 0 <= i < 7 => b[k + 4 * i..k + 4 * i + 4])
  }

  lemma SinglesOfBlock(b: seq<Byte>, k: nat, fs: seq<F32>)
    requires |fs| == 7 && k + 28 <= |b| && b[k..k + 28] == SingleBlock(fs)
    ensures SinglesAt(b, k) == fs
  {
    var w := SingleBlock(fs);
    assert w[0..4] == fs[0];
    assert w[4..8] == fs[1];
    assert w[8..12] == fs[2];
    assert w[12..16] == fs[3];
    assert w[16..20] == fs[4];
    assert w[20..24] == fs[5];
    assert w[24..28] == fs[6];
    forall i | 0 <= i < 7 ensures b[k + 4 * i..k + 4 * i + 4] == w[4 * i..4 * i + 4] {
      SliceOfSlice(b, k, 28, 4 * i, 4 * i + 4);
    }
  }

  lemma SliceOfSlice(b: seq<Byte>, k: nat, n: nat, lo: nat, hi: nat)
    requires k + n <= |b| && lo <= hi <= n
    ensures b[k..k + n][lo..hi] == b[k + lo..k + hi]
  {
    var x := b[k..k + n][lo..hi];
    var y := b[k + lo..k + hi];
    forall j | 0 <= j < hi - lo ensures x[j] == y[j] {
      assert x[j] == b[k + lo + j];
    }
  }

  lemma BlockOfSingles(b: seq<Byte>, k: nat)
    requires k + 28 <= |b|
    ensures SingleBlock(SinglesAt(b, k)) == b[k..k + 28]
  {
    var fs := SinglesAt(b, k);
    var head: seq<Byte> := fs[0];
    assert head + fs[1] + fs[2] + fs[3] + fs[4] + fs[5] + fs[6] == b[k..k + 28];
  }

  /** Whether every float32 field fits a float32. */
  predicate Narrowable(s: EwSignal, narrow: F64 -> Option<F32>)
  {
    forall i :: 0 <= i < 7 ==> narrow(SingleFields(s)[i]).Some?
  }

  function Narrowed(s: EwSignal, narrow: F64 -> Option<F32>): (fs: seq<F32>)
    requires Narrowable(s, narrow)
    ensures |fs| == 7
  {
    seq(7, i requires 0 <= i < 7 => narrow(SingleFields(s)[i]).value)
  }

  /**
   * to_binary: struct.error for a source id outside uint32 or a timestamp
   * outside uint64 (checked in field order), OverflowError for a float32
   * field too large to narrow.
   */
  function ToBinary(s: EwSignal, narrow: F64 -> Option<F32>): (r: Result<seq<Byte>>)
    ensures r.Ok? <==> IsU32(s.sourceId) && 0 <= s.timestampMs < Two64 && Narrowable(s, narrow)
    ensures r.Fail? && IsU32(s.sourceId) && 0 <= s.timestampMs < Two64 ==> r.error == OverflowError
    ensures r.Fail? && !(IsU32(s.sourceId) && 0 <= s.timestampMs < Two64) ==> r.error == StructError
    ensures r.Ok? ==> |r.value| == StructSize
  {
    if !IsU32(s.sourceId) then Fail(StructError)
    else if !(0 <= s.timestampMs < Two64) then Fail(StructError)
    else if !Narrowable(s, narrow) then Fail(OverflowError)
    else
      Ok(LE32(s.sourceId) + I32(s.sigType.Code()) + LE64(s.timestampMs)
        + s.centerFreqHz + s.bandwidthHz + SingleBlock(Narrowed(s, narrow))
        + I32(s.modulation.Code()))
  }

  /** from_binary: struct.error unless exactly 64 bytes, ValueError for an unknown type or modulation. */
  function FromBinary(buf: seq<Byte>, widen: F32 -> F64): (r: Result<EwSignal>)
    ensures |buf| != StructSize ==> r == Fail(StructError)
    ensures |buf| == StructSize ==>
      (r.Ok? <==> 1 <= ReadI32(buf, 4) <= 3 && 0 <= ReadI32(buf, 60) <= 7)
    ensures |buf| == StructSize && r.Fail? ==> r.error == ValueError
    ensures r.Ok? ==> r.value.sigType.Code() == ReadI32(buf, 4) && r.value.modulation.Code() == ReadI32(buf, 60)
  {
    if |buf| != StructSize then Fail(StructError)
    else
      match SignalTypeOf(ReadI32(buf, 4))
      case Fail(e) => Fail(e)
      case Ok(t) =>
        match ModulationOf(ReadI32(buf, 60))
        case Fail(e) => Fail(e)
        case Ok(m) =>
          var fs := SinglesAt(buf, 32);
          Ok(EwSignal(ReadLE32(buf, 0), t, ReadLE64(buf, 8), buf[16..24], buf[24..32],
            widen(fs[0]), widen(fs[1]), widen(fs[2]), widen(fs[3]), widen(fs[4]), widen(fs[5]), widen(fs[6]),
            m))
  }

  /** The bytes of a packed record, field by field. */
  lemma BinaryLayout(s: EwSignal, narrow: F64 -> Option<F32>)
    requires ToBinary(s, narrow).Ok?
    ensures var b := ToBinary(s, narrow).value;
      && |b| == StructSize
      && ReadLE32(b, 0) == s.sourceId && ReadI32(b, 4) == s.sigType.Code()
      && ReadLE64(b, 8) == s.timestampMs
      && b[16..24] == s.centerFreqHz && b[24..32] == s.bandwidthHz
      && SinglesAt(b, 32) == Narrowed(s, narrow)
      && ReadI32(b, 60) == s.modulation.Code()
  {
    var b := ToBinary(s, narrow).value;
    var fs := Narrowed(s, narrow);
    var src, typ, ts := LE32(s.sourceId), I32(s.sigType.Code()), LE64(s.timestampMs);
    var h := src + typ + ts + s.centerFreqHz;
    ConcatParts(h, s.bandwidthHz, SingleBlock(fs), I32(s.modulation.Code()));
    ConcatParts(src, typ, ts, s.centerFreqHz);
    SliceInSlice(b, 0, h, 0, 4);
    SliceInSlice(b, 0, h, 4, 8);
    SliceInSlice(b, 0, h, 8, 16);
    SliceInSlice(b, 0, h, 16, 24);
    SinglesOfBlock(b, 32, fs);
  }

  /**
   * to_binary then from_binary gives back the signal, except that each
   * float32 field comes back as its narrowed then widened value.
   */
  lemma BinaryRoundTrip(s: EwSignal, narrow: F64 -> Option<F32>, widen: F32 -> F64)
    requires ToBinary(s, narrow).Ok?
    ensures |ToBinary(s, narrow).value| == StructSize
    ensures FromBinary(ToBinary(s, narrow).value, widen)
      == Ok(WithSingleFields(s, seq(7, i requires 0 <= i < 7 => widen(Narrowed(s, narrow)[i]))))
  {
    BinaryLayout(s, narrow);
    EnumCodesInvert(s.sigType, s.modulation);
  }

  /** When narrowing loses nothing, the binary form round-trips exactly. */
  lemma BinaryRoundTripExact(s: EwSignal, narrow: F64 -> Option<F32>, widen: F32 -> F64)
    requires ToBinary(s, narrow).Ok?
    requires forall i :: 0 <= i < 7 ==> widen(narrow(SingleFields(s)[i]).value) == SingleFields(s)[i]
    ensures FromBinary(ToBinary(s, narrow).value, widen) == Ok(s)
  {
    BinaryRoundTrip(s, narrow, widen);
    var ws := seq(7, i requires 0 <= i < 7 => widen(Narrowed(s, narrow)[i]));
    assert ws == SingleFields(s);
  }

  /**
   * In the other direction, a 64-byte buffer that decodes packs back to the
   * same bytes when widening a float32 and narrowing it again is the identity.
   */
  lemma BinaryRepack(buf: seq<Byte>, narrow: F64 -> Option<F32>, widen: F32 -> F64)
    requires FromBinary(buf, widen).Ok?
    requires forall f: F32 :: narrow(widen(f)) == Some(f)
    ensures ToBinary(FromBinary(buf, widen).value, narrow) == Ok(buf)
  {
    var s := FromBinary(buf, widen).value;
    var fs := SinglesAt(buf, 32);
    RenarrowSingles(buf, narrow, widen);
    I32OfRead(buf, 4);
    I32OfRead(buf, 60);
    LE32OfRead(buf, 0);
    LE64OfRead(buf, 8);
    BlockOfSingles(buf, 32);
    var out := LE32(s.sourceId) + I32(s.sigType.Code()) + LE64(s.timestampMs)
      + s.centerFreqHz + s.bandwidthHz + SingleBlock(fs) + I32(s.modulation.Code());
    assert out == buf[0..4] + buf[4..8] + buf[8..16] + buf[16..24] + buf[24..32] + buf[32..60] + buf[60..64];
    JoinSlices(buf, 0, 4, 8);
    JoinSlices(buf, 0, 8, 16);
    JoinSlices(buf, 0, 16, 24);
    JoinSlices(buf, 0, 24, 32);
    JoinSlices(buf, 0, 32, 60);
    JoinSlices(buf, 0, 60, 64);
    assert buf[0..64] == buf;
  }

  /** The float32 fields of a decoded buffer narrow back to the bytes they came from. */
  lemma RenarrowSingles(buf: seq<Byte>, narrow: F64 -> Option<F32>, widen: F32 -> F64)
    requires FromBinary(buf, widen).Ok?
    requires forall f: F32 :: narrow(widen(f)) == Some(f)
    ensures Narrowable(FromBinary(buf, widen).value, narrow)
    ensures Narrowed(FromBinary(buf, widen).value, narrow) == SinglesAt(buf, 32)
  {
    var s := FromBinary(buf, widen).value;
    var fs := SinglesAt(buf, 32);
    assert SingleFields(s) == seq(7, i requires 0 <= i < 7 => widen(fs[i]));
  }

  /** from_binary fails with ValueError exactly on an unknown type or modulation value. */
  lemma BinaryRejects(buf: seq<Byte>, widen: F32 -> F64)
    requires |buf| == StructSize
    ensures FromBinary(buf, widen).Fail? <==> !(1 <= ReadI32(buf, 4) <= 3) || !(0 <= ReadI32(buf, 60) <= 7)
    ensures FromBinary(buf, widen).Fail? ==> FromBinary(buf, widen).error == ValueError
  {
  }

  /**
   * The record is 64 bytes, not the 72 the comments announce: a 72-byte
   * datagram slice is never accepted, and a packed record is shorter than
   * the 72 bytes the UDP receiver waits for.
   */
  lemma SeventyTwoByteMismatch(buf: seq<Byte>, s: EwSignal, narrow: F64 -> Option<F32>, widen: F32 -> F64)
    ensures |buf| == 72 ==> FromBinary(buf, widen) == Fail(StructError)
    ensures ToBinary(s, narrow).Ok? ==> |ToBinary(s, narrow).value| < 72
  {
    if ToBinary(s, narrow).Ok? {
      BinaryLayout(s, narrow);
    }
  }

  // ---------------------------------------------------------------------
  // JSON form (json.dumps/json.loads text is not modelled: an object is a map)

  datatype JsonValue = JInt(i: int) | JFloat(f: F64)

  type JsonObject = map<string, JsonValue>

  /** to_json: asdict with type and modulation written as their integer values. */
  function ToJson(s: EwSignal): (d: JsonObject)
    ensures "type" in d && "modulation" in d
    ensures d["type"] == JInt(s.sigType.Code()) && d["modulation"] == JInt(s.modulation.Code())
  {
    map[
      "source_id" := JInt(s.sourceId), "type" := JInt(s.sigType.Code()),
      "timestamp_ms" := JInt(s.timestampMs),
      "center_freq_hz" := JFloat(s.centerFreqHz), "bandwidth_hz" := JFloat(s.bandwidthHz),
      "signal_power_dbm" := JFloat(s.signalPowerDbm), "snr_db" := JFloat(s.snrDb),
      "azimuth_deg" := JFloat(s.azimuthDeg), "elevation_deg" := JFloat(s.elevationDeg),
      "range_m" := JFloat(s.rangeM), "pri_ms" := JFloat(s.priMs),
      "pulse_width_us" := JFloat(s.pulseWidthUs),
      "modulation" := JInt(s.modulation.Code())]
  }

  /**
   * int(data[key]): KeyError for a missing key; a float is truncated by
   * `trunc`, which fails with ValueError or OverflowError for NaN or infinity.
   */
  function IntField(d: JsonObject, key: string, trunc: F64 -> Result<int>): Result<int>
  {
    if key !in d then Fail(KeyError)
    else match d[key]
      case JInt(i) => Ok(i)
      case JFloat(f) => trunc(f)
  }

  /** float(data[key]): KeyError for a missing key; an integer is converted by `toDouble`. */
  function FloatField(d: JsonObject, key: string, toDouble: int -> Result<F64>): Result<F64>
  {
    if key !in d then Fail(KeyError)
    else match d[key]
      case JInt(i) => toDouble(i)
      case JFloat(f) => Ok(f)
  }

  /** The float fields of from_json in keyword order. */
  const FloatKeys: seq<string> := ["center_freq_hz", "bandwidth_hz", "signal_power_dbm", "snr_db",
    "azimuth_deg", "elevation_deg", "range_m", "pri_ms", "pulse_width_us"]

  /** The float fields in order; the first failing one decides the error. */
  function FloatFields(d: JsonObject, keys: seq<string>, toDouble: int -> Result<F64>): (r: Result<seq<F64>>)
    ensures r.Ok? ==> |r.value| == |keys|
    ensures r.Ok? ==> forall i :: 0 <= i < |keys| ==> FloatField(d, keys[i], toDouble) == Ok(r.value[i])
  {
    if keys == [] then Ok([])
    else
      match FloatField(d, keys[0], toDouble)
      case Fail(e) => Fail(e)
      case Ok(f) =>
        match FloatFields(d, keys[1..], toDouble)
        case Fail(e) => Fail(e)
        case Ok(fs) => Ok([f] + fs)
  }

  /**
   * from_json: the keyword arguments are evaluated in order (source_id,
   * type, timestamp_ms, the nine floats, modulation) and the first failure
   * is the one raised.
   */
  function FromJson(d: JsonObject, trunc: F64 -> Result<int>, toDouble: int -> Result<F64>): (r: Result<EwSignal>)
    ensures "source_id" !in d ==> r == Fail(KeyError)
    ensures r.Ok? ==>
      && IntField(d, "source_id", trunc) == Ok(r.value.sourceId)
      && IntField(d, "type", trunc) == Ok(r.value.sigType.Code())
      && IntField(d, "timestamp_ms", trunc) == Ok(r.value.timestampMs)
      && IntField(d, "modulation", trunc) == Ok(r.value.modulation.Code())
      && FloatField(d, "snr_db", toDouble) == Ok(r.value.snrDb)
  {
    match IntField(d, "source_id", trunc)
    case Fail(e) => Fail(e)
    case Ok(src) =>
      match IntField(d, "type", trunc)
      case Fail(e) => Fail(e)
      case Ok(tc) =>
        match SignalTypeOf(tc)
        case Fail(e) => Fail(e)
        case Ok(t) =>
          match IntField(d, "timestamp_ms", trunc)
          case Fail(e) => Fail(e)
          case Ok(ts) =>
            match FloatFields(d, FloatKeys, toDouble)
            case Fail(e) => Fail(e)
            case Ok(fs) =>
              match IntField(d, "modulation", trunc)
              case Fail(e) => Fail(e)
              case Ok(mc) =>
                match ModulationOf(mc)
                case Fail(e) => Fail(e)
                case Ok(m) =>
                  Ok(EwSignal(src, t, ts, fs[0], fs[1], fs[2], fs[3], fs[4], fs[5], fs[6], fs[7], fs[8], m))
  }

  /** from_json inverts to_json, whatever the numeric conversions do. */
  lemma JsonRoundTrip(s: EwSignal, trunc: F64 -> Result<int>, toDouble: int -> Result<F64>)
    ensures FromJson(ToJson(s), trunc, toDouble) == Ok(s)
  {
    var d := ToJson(s);
    EnumCodesInvert(s.sigType, s.modulation);
    var want := [s.centerFreqHz, s.bandwidthHz, s.signalPowerDbm, s.snrDb, s.azimuthDeg,
      s.elevationDeg, s.rangeM, s.priMs, s.pulseWidthUs];
    assert IntField(d, "source_id", trunc) == Ok(s.sourceId);
    assert IntField(d, "type", trunc) == Ok(s.sigType.Code());
    assert IntField(d, "timestamp_ms", trunc) == Ok(s.timestampMs);
    assert IntField(d, "modulation", trunc) == Ok(s.modulation.Code());
    forall i | 0 <= i < |FloatKeys| ensures FloatKeys[i] in d && d[FloatKeys[i]] == JFloat(want[i]) {
      if i == 0 {} else if i == 1 {} else if i == 2 {} else if i == 3 {} else if i == 4 {}
      else if i == 5 {} else if i == 6 {} else if i == 7 {} else {}
    }
    FloatFieldsOfObject(d, FloatKeys, want, toDouble);
  }

  lemma {:induction false} FloatFieldsOfObject(d: JsonObject, keys: seq<string>, fs: seq<F64>,
                                                toDouble: int -> Result<F64>)
    requires |keys| == |fs|
    requires forall i :: 0 <= i < |keys| ==> keys[i] in d && d[keys[i]] == JFloat(fs[i])
    ensures FloatFields(d, keys, toDouble) == Ok(fs)
  {
    if keys != [] {
      FloatFieldsOfObject(d, keys[1..], fs[1..], toDouble);
      assert [fs[0]] + fs[1..] == fs;
    }
  }

  /**
   * With every key present and holding an integer or float of the right
   * kind, from_json fails exactly on an unknown type or modulation value,
   * and then with ValueError; without "source_id" it raises KeyError.
   */
  lemma JsonRejects(d: JsonObject, trunc: F64 -> Result<int>, toDouble: int -> Result<F64>)
    requires "source_id" in d && d["source_id"].JInt? && "type" in d && d["type"].JInt?
    requires "timestamp_ms" in d && d["timestamp_ms"].JInt? && "modulation" in d && d["modulation"].JInt?
    requires forall i :: 0 <= i < |FloatKeys| ==> FloatKeys[i] in d && d[FloatKeys[i]].JFloat?
    ensures FromJson(d, trunc, toDouble).Fail?
      <==> !(1 <= d["type"].i <= 3) || !(0 <= d["modulation"].i <= 7)
    ensures FromJson(d, trunc, toDouble).Fail? ==> FromJson(d, trunc, toDouble).error == ValueError
  {
    FloatFieldsOfObject(d, FloatKeys, seq(9, i requires 0 <= i < 9 => d[FloatKeys[i]].f), toDouble);
  }

  lemma JsonMissingSource(d: JsonObject, trunc: F64 -> Result<int>, toDouble: int -> Result<F64>)
    requires "source_id" !in d
    ensures FromJson(d, trunc, toDouble) == Fail(KeyError)
  {
  }
}
