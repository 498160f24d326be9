/**
 * The radar interface data frame and its codec (DataFrameCodec in
 * radar_core.py). A frame is a big-endian header 0xAA55, a target byte, a
 * length byte, then three counted sections: image targets (two bytes and
 * seven float64), radar targets (id, a reserved zero byte and four float64)
 * and fire-control request ids (one byte each). Float fields are carried as
 * their eight wire bytes.
 */
module RadarCodec {
  import opened Common

  const Header: int := 0xAA55

  /** Bytes actually written per record. */
  const ImageRecordSize: nat := 58
  const RadarRecordSize: nat := 34

  /** Bytes the length field and the decoder's guards assume per record. */
  const ImageNominalSize: nat := 30
  const RadarNominalSize: nat := 18

  datatype ImageTarget = ImageTarget(
    id: int, kind: int,
    distance: F64, azimuth: F64, frequency: F64,
    distance30ms: F64, azimuth30ms: F64, speed: F64, direction: F64)

  datatype RadarTarget = RadarTarget(id: int, distance: F64, azimuth: F64, rcs: F64, velocity: F64)

  datatype DataFrame = DataFrame(
    header: int, target: int, length: int,
    imageTargetNum: int, imageTargets: seq<ImageTarget>,
    radarTargetNum: int, radarTargets: seq<RadarTarget>,
    requestedTargetNum: int, requestedTargetIds: seq<int>)

  /** The frame a decoder starts from: defaults everywhere except the fixed fields. */
  function EmptyFrame(target: int, length: int): DataFrame
  {
    DataFrame(Header, target, length, 0, [], 0, [], 0, [])
  }

  /** The value the encoder stores into frame.length before writing anything. */
  function LengthField(f: DataFrame): int
  {
    f.imageTargetNum * ImageNominalSize as int + f.radarTargetNum * RadarNominalSize as int
      + f.requestedTargetNum + 3
  }

  /** The counts agree with the lists they describe. */
  predicate WellCounted(f: DataFrame)
  {
    f.imageTargetNum == |f.imageTargets| && f.radarTargetNum == |f.radarTargets|
      && f.requestedTargetNum == |f.requestedTargetIds|
  }

  // ---------------------------------------------------------------------
  // Encoding

  predicate ImageEncodable(t: ImageTarget) { IsByte(t.id) && IsByte(t.kind) }
  predicate RadarEncodable(t: RadarTarget) { IsByte(t.id) }

  /** Every value packed with a 'B' or '>H' code fits its field, so no struct.error occurs. */
  predicate Encodable(f: DataFrame)
  {
    && IsU16(f.header) && IsByte(f.target) && IsByte(LengthField(f))
    && IsByte(f.imageTargetNum) && (forall t <- f.imageTargets :: ImageEncodable(t))
    && IsByte(f.radarTargetNum) && (forall t <- f.radarTargets :: RadarEncodable(t))
    && IsByte(f.requestedTargetNum) && (forall id <- f.requestedTargetIds :: IsByte(id))
  }

  function ImageRecord(t: ImageTarget): (r: seq<Byte>)
    requires ImageEncodable(t)
    ensures |r| == ImageRecordSize
  {
    [t.id, t.kind] + t.distance + t.azimuth + t.frequency + t.distance30ms
      + t.azimuth30ms + t.speed + t.direction
  }

  function RadarRecord(t: RadarTarget): (r: seq<Byte>)
    requires RadarEncodable(t)
    ensures |r| == RadarRecordSize
  {
    [t.id, 0] + t.distance + t.azimuth + t.rcs + t.velocity
  }

  function ImageBlock(ts: seq<ImageTarget>): (r: seq<Byte>)
    requires forall t <- ts :: ImageEncodable(t)
    ensures |r| == ImageRecordSize * |ts|
  {
    if ts == [] then [] else ImageRecord(ts[0]) + ImageBlock(ts[1..])
  }

  function RadarBlock(ts: seq<RadarTarget>): (r: seq<Byte>)
    requires forall t <- ts :: RadarEncodable(t)
    ensures |r| == RadarRecordSize * |ts|
  {
    if ts == [] then [] else RadarRecord(ts[0]) + RadarBlock(ts[1..])
  }

  /** A list of ints that all fit in a byte, as the bytes they pack to. */
  function ByteBlock(ids: seq<int>): (r: seq<Byte>)
    requires forall id <- ids :: IsByte(id)
    ensures |r| == |ids|
    ensures forall i :: 0 <= i < |ids| ==> r[i] == ids[i]
  {
    if ids == [] then [] else assert ids[0] in ids; assert IsByte(ids[0]); var b: Byte := ids[0]; [b] + ByteBlock(ids[1..])
  }

  /** The bytes of an encodable frame. */
  function Encoding(f: DataFrame): (r: seq<Byte>)
    requires Encodable(f)
    ensures |r| == 7 + ImageRecordSize * |f.imageTargets| + RadarRecordSize * |f.radarTargets| + |f.requestedTargetIds|
    ensures r[2] == f.target && r[3] == LengthField(f)
  {
    ToBE(f.header, 2) + [f.target, LengthField(f), f.imageTargetNum]
      + ImageBlock(f.imageTargets)
      + [f.radarTargetNum] + RadarBlock(f.radarTargets)
      + [f.requestedTargetNum] + ByteBlock(f.requestedTargetIds)
  }

  lemma {:induction false} ImageBlockSnoc(ts: seq<ImageTarget>, t: ImageTarget)
    requires forall u <- ts :: ImageEncodable(u)
    requires ImageEncodable(t)
    ensures ImageBlock(ts + [t]) == ImageBlock(ts) + ImageRecord(t)
  {
    if ts != [] {
      assert (ts + [t])[1..] == ts[1..] + [t];
      ImageBlockSnoc(ts[1..], t);
    }
  }

  lemma {:induction false} RadarBlockSnoc(ts: seq<RadarTarget>, t: RadarTarget)
    requires forall u <- ts :: RadarEncodable(u)
    requires RadarEncodable(t)
    ensures RadarBlock(ts + [t]) == RadarBlock(ts) + RadarRecord(t)
  {
    if ts != [] {
      assert (ts + [t])[1..] == ts[1..] + [t];
      RadarBlockSnoc(ts[1..], t);
    }
  }

  /** The image-target loop of encode_frame: packs records until one has an id or type outside a byte. */
  method EncodeImages(images: seq<ImageTarget>) returns (ok: bool, out: seq<Byte>)
    ensures ok <==> forall t <- images :: ImageEncodable(t)
    ensures ok ==> out == ImageBlock(images)
  {
    out := [];
    var i := 0;
    while i < |images|
      invariant 0 <= i <= |images|
      invariant forall j :: 0 <= j < i ==> ImageEncodable(images[j])
      invariant out == ImageBlock(images[..i])
    {
      var t := images[i];
      if !IsByte(t.id) || !IsByte(t.kind) {
        assert t in images;
        return false, out;
      }
      ImageBlockSnoc(images[..i], t);
      assert images[..i + 1] == images[..i] + [t];
      out := out + ImageRecord(t);
      i := i + 1;
    }
    assert images[..i] == images;
    ok := true;
  }

  /** The radar-target loop of encode_frame. */
  method EncodeRadars(radars: seq<RadarTarget>) returns (ok: bool, out: seq<Byte>)
    ensures ok <==> forall t <- radars :: RadarEncodable(t)
    ensures ok ==> out == RadarBlock(radars)
  {
    out := [];
    var i := 0;
    while i < |radars|
      invariant 0 <= i <= |radars|
      invariant forall j :: 0 <= j < i ==> RadarEncodable(radars[j])
      invariant out == RadarBlock(radars[..i])
    {
      var t := radars[i];
      if !IsByte(t.id) {
        assert t in radars;
        return false, out;
      }
      RadarBlockSnoc(radars[..i], t);
      assert radars[..i + 1] == radars[..i] + [t];
      out := out + RadarRecord(t);
      i := i + 1;
    }
    assert radars[..i] == radars;
    ok := true;
  }

  /** The request-id loop of encode_frame. */
  method EncodeIds(ids: seq<int>) returns (ok: bool, out: seq<Byte>)
    ensures ok <==> forall id <- ids :: IsByte(id)
    ensures ok ==> out == ByteBlock(ids)
  {
    out := [];
    var i := 0;
    while i < |ids|
      invariant 0 <= i <= |ids|
      invariant forall j :: 0 <= j < i ==> IsByte(ids[j])
      invariant |out| == i
      invariant forall j :: 0 <= j < i ==> out[j] == ids[j]
    {
      if !IsByte(ids[i]) {
        assert ids[i] in ids;
        return false, out;
      }
      out := out + [ids[i]];
      i := i + 1;
    }
    ok := true;
  }

  /**
   * encode_frame: overwrites frame.length with LengthField, then packs the
   * fields in order; a value outside its struct field raises struct.error
   * after the length has already been stored.
   */
  method EncodeFrame(frame: DataFrame) returns (updated: DataFrame, r: Result<seq<Byte>>)
    ensures updated == frame.(length := LengthField(frame))
    ensures r.Ok? <==> Encodable(frame)
    ensures r.Ok? ==> r.value == Encoding(frame)
    ensures r.Fail? ==> r.error == StructError
  {
    updated := frame.(length := LengthField(frame));
    if !IsU16(frame.header) || !IsByte(frame.target) || !IsByte(updated.length)
       || !IsByte(frame.imageTargetNum)
    {
      return updated, Fail(StructError);
    }
    var buffer := ToBE(frame.header, 2) + [frame.target, updated.length, frame.imageTargetNum];
    var ok, block := EncodeImages(frame.imageTargets);
    if !ok {
      return updated, Fail(StructError);
    }
    buffer := buffer + block;
    if !IsByte(frame.radarTargetNum) {
      return updated, Fail(StructError);
    }
    buffer := buffer + [frame.radarTargetNum];
    ok, block := EncodeRadars(frame.radarTargets);
    if !ok {
      return updated, Fail(StructError);
    }
    buffer := buffer + block;
    if !IsByte(frame.requestedTargetNum) {
      return updated, Fail(StructError);
    }
    buffer := buffer + [frame.requestedTargetNum];
    ok, block := EncodeIds(frame.requestedTargetIds);
    if !ok {
      return updated, Fail(StructError);
    }
    assert buffer + block == Encoding(frame);
    r := Ok(buffer + block);
  }

  // ---------------------------------------------------------------------
  // Decoding

  /** The image record at off, as decode_frame unpacks it. */
  function ImageAt(data: seq<Byte>, off: nat): ImageTarget
    requires off + ImageRecordSize <= |data|
  {
    ImageTarget(data[off], data[off + 1],
      data[off + 2..off + 10], data[off + 10..off + 18], data[off + 18..off + 26],
      data[off + 26..off + 34], data[off + 34..off + 42], data[off + 42..off + 50],
      data[off + 50..off + 58])
  }

  /** The radar record at off; its second byte is read and discarded. */
  function RadarAt(data: seq<Byte>, off: nat): RadarTarget
    requires off + RadarRecordSize <= |data|
  {
    RadarTarget(data[off],
      data[off + 2..off + 10], data[off + 10..off + 18], data[off + 18..off + 26],
      data[off + 26..off + 34])
  }

  /**
   * Up to k image records from off. The loop stops when fewer than 30
   * bytes remain; with 30 to 57 bytes left, unpacking a float64 runs past
   * the end and struct.error makes the whole decode fail (None).
   */
  function ParseImages(data: seq<Byte>, off: nat, k: nat): Option<(seq<ImageTarget>, nat)>
    requires off <= |data|
    decreases k
  {
    if k == 0 || off + ImageNominalSize > |data| then Some(([], off))
    else if off + ImageRecordSize > |data| then None
    else
      match ParseImages(data, off + ImageRecordSize, k - 1)
      case None => None
      case Some((rest, next)) => Some(([ImageAt(data, off)] + rest, next))
  }

  /** Up to k radar records from off, with the 18-byte guard and 34-byte read. */
  function ParseRadars(data: seq<Byte>, off: nat, k: nat): Option<(seq<RadarTarget>, nat)>
    requires off <= |data|
    decreases k
  {
    if k == 0 || off + RadarNominalSize > |data| then Some(([], off))
    else if off + RadarRecordSize > |data| then None
    else
      match ParseRadars(data, off + RadarRecordSize, k - 1)
      case None => None
      case Some((rest, next)) => Some(([RadarAt(data, off)] + rest, next))
  }

  /** Up to k request ids from off, stopping at the end of the buffer. */
  function ParseIds(data: seq<Byte>, off: nat, k: nat): (seq<int>, nat)
    requires off <= |data|
    decreases k
  {
    if k == 0 || off >= |data| then ([], off)
    else
      var (rest, next) := ParseIds(data, off + 1, k - 1);
      ([data[off] as int] + rest, next)
  }

  /** A parsed section: its count byte, its records and the offset after them. */
  datatype Section<T> = Section(count: int, items: seq<T>, next: nat)

  /** A section is present only when a count byte remains; otherwise it keeps the defaults. */
  function ImageSection(data: seq<Byte>, off: nat): Option<Section<ImageTarget>>
    requires off <= |data|
  {
    if off < |data| then
      match ParseImages(data, off + 1, data[off])
      case None => None
      case Some((ts, next)) => Some(Section(data[off], ts, next))
    else Some(Section(0, [], off))
  }

  function RadarSection(data: seq<Byte>, off: nat): Option<Section<RadarTarget>>
    requires off <= |data|
  {
    if off < |data| then
      match ParseRadars(data, off + 1, data[off])
      case None => None
      case Some((ts, next)) => Some(Section(data[off], ts, next))
    else Some(Section(0, [], off))
  }

  function IdSection(data: seq<Byte>, off: nat): Section<int>
    requires off <= |data|
  {
    if off < |data| then
      var (ids, next) := ParseIds(data, off + 1, data[off]);
      Section(data[off], ids, next)
    else Section(0, [], off)
  }

  lemma {:induction false} ParseImagesShape(data: seq<Byte>, off: nat, k: nat)
    requires off <= |data|
    ensures ParseImages(data, off, k).Some? ==>
      var (ts, next) := ParseImages(data, off, k).value;
      |ts| <= k && next == off + ImageRecordSize * |ts| && next <= |data|
    decreases k
  {
    if k > 0 && off + ImageRecordSize <= |data| {
      ParseImagesShape(data, off + ImageRecordSize, k - 1);
    }
  }

  lemma {:induction false} ParseRadarsShape(data: seq<Byte>, off: nat, k: nat)
    requires off <= |data|
    ensures ParseRadars(data, off, k).Some? ==>
      var (ts, next) := ParseRadars(data, off, k).value;
      |ts| <= k && next == off + RadarRecordSize * |ts| && next <= |data|
    decreases k
  {
    if k > 0 && off + RadarRecordSize <= |data| {
      ParseRadarsShape(data, off + RadarRecordSize, k - 1);
    }
  }

  lemma {:induction false} ParseIdsShape(data: seq<Byte>, off: nat, k: nat)
    requires off <= |data|
    ensures var (ids, next) := ParseIds(data, off, k);
      |ids| <= k && next == off + |ids| && next <= |data|
      && (|ids| < k ==> next == |data|)
      && forall i :: 0 <= i < |ids| ==> ids[i] == data[off + i]
    decreases k
  {
    if k > 0 && off < |data| {
      ParseIdsShape(data, off + 1, k - 1);
    }
  }

  /** The specification of decode_frame. */
  function Decode(data: seq<Byte>): (r: Option<DataFrame>)
    ensures |data| < 4 ==> r.None?
    ensures r.Some? ==> FromBE(data[0..2]) == Header && r.value.header == Header
    ensures r.Some? ==> r.value.target == data[2] && r.value.length == data[3]
  {
    if |data| < 4 || FromBE(data[0..2]) != Header then None
    else
      match ImageSection(data, 4)
      case None => None
      case Some(img) =>
        ParseImagesShape(data, if 4 < |data| then 5 else 4, if 4 < |data| then data[4] else 0);
        match RadarSection(data, img.next)
        case None => None
        case Some(rad) =>
          ParseRadarsShape(data, if img.next < |data| then img.next + 1 else img.next,
            if img.next < |data| then data[img.next] else 0);
          var req := IdSection(data, rad.next);
          Some(EmptyFrame(data[2], data[3]).(
            imageTargetNum := img.count, imageTargets := img.items,
            radarTargetNum := rad.count, radarTargets := rad.items,
            requestedTargetNum := req.count, requestedTargetIds := req.items))
  }

  function PrependItems<T>(acc: seq<T>, r: Option<(seq<T>, nat)>): Option<(seq<T>, nat)>
  {
    match r
    case None => None
    case Some((ts, next)) => Some((acc + ts, next))
  }

  lemma PrependNothing<T>(r: Option<(seq<T>, nat)>)
    ensures PrependItems([], r) == r
  {
    if r.Some? {
      assert [] + r.value.0 == r.value.0;
    }
  }

  lemma PrependMore<T>(acc: seq<T>, x: T, r: Option<(seq<T>, nat)>)
    ensures PrependItems(acc, PrependItems([x], r)) == PrependItems(acc + [x], r)
  {
    if r.Some? {
      assert acc + ([x] + r.value.0) == (acc + [x]) + r.value.0;
    }
  }

  /** One image section of decode_frame: the count byte, then records while the guard allows. */
  method ReadImageSection(data: seq<Byte>, off: nat) returns (r: Option<Section<ImageTarget>>)
    requires off <= |data|
    ensures r == ImageSection(data, off)
  {
    if off >= |data| {
      return Some(Section(0, [], off));
    }
    var n := data[off];
    var offset: nat := off + 1;
    var items: seq<ImageTarget> := [];
    var i := 0;
    PrependNothing(ParseImages(data, off + 1, n));
    while i < n
      invariant 0 <= i <= n && off + 1 <= offset <= |data|
      invariant ParseImages(data, off + 1, n) == PrependItems(items, ParseImages(data, offset, n - i))
    {
      if offset + ImageNominalSize > |data| {
        break;
      }
      if offset + ImageRecordSize > |data| {
        // a float64 unpack runs past the end: struct.error
        return None;
      }
      PrependMore(items, ImageAt(data, offset), ParseImages(data, offset + ImageRecordSize, n - i - 1));
      items := items + [ImageAt(data, offset)];
      offset := offset + ImageRecordSize;
      i := i + 1;
    }
    assert ParseImages(data, offset, n - i) == Some(([], offset));
    assert items + [] == items;
    return Some(Section(n, items, offset));
  }

  /** One radar section of decode_frame. */
  method ReadRadarSection(data: seq<Byte>, off: nat) returns (r: Option<Section<RadarTarget>>)
    requires off <= |data|
    ensures r == RadarSection(data, off)
  {
    if off >= |data| {
      return Some(Section(0, [], off));
    }
    var n := data[off];
    var offset: nat := off + 1;
    var items: seq<RadarTarget> := [];
    var i := 0;
    PrependNothing(ParseRadars(data, off + 1, n));
    while i < n
      invariant 0 <= i <= n && off + 1 <= offset <= |data|
      invariant ParseRadars(data, off + 1, n) == PrependItems(items, ParseRadars(data, offset, n - i))
    {
      if offset + RadarNominalSize > |data| {
        break;
      }
      if offset + RadarRecordSize > |data| {
        return None;
      }
      PrependMore(items, RadarAt(data, offset), ParseRadars(data, offset + RadarRecordSize, n - i - 1));
      items := items + [RadarAt(data, offset)];
      offset := offset + RadarRecordSize;
      i := i + 1;
    }
    assert ParseRadars(data, offset, n - i) == Some(([], offset));
    assert items + [] == items;
    return Some(Section(n, items, offset));
  }

  /** The request-id section of decode_frame. */
  method ReadIdSection(data: seq<Byte>, off: nat) returns (r: Section<int>)
    requires off <= |data|
    ensures r == IdSection(data, off)
  {
    if off >= |data| {
      return Section(0, [], off);
    }
    var n := data[off];
    var offset: nat := off + 1;
    var ids: seq<int> := [];
    var i := 0;
    while i < n
      invariant 0 <= i <= n && off + 1 <= offset <= |data|
      invariant ParseIds(data, off + 1, n).1 == ParseIds(data, offset, n - i).1
      invariant ParseIds(data, off + 1, n).0 == ids + ParseIds(data, offset, n - i).0
    {
      if offset >= |data| {
        break;
      }
      assert ids + ParseIds(data, offset, n - i).0
        == (ids + [data[offset] as int]) + ParseIds(data, offset + 1, n - i - 1).0;
      ids := ids + [data[offset] as int];
      offset := offset + 1;
      i := i + 1;
    }
    assert ParseIds(data, offset, n - i).0 == [];
    return Section(n, ids, offset);
  }

  /** decode_frame: header checks, then the three sections with a running offset. */
  method DecodeFrame(data: seq<Byte>) returns (r: Option<DataFrame>)
    ensures r == Decode(data)
  {
    if |data| < 4 {
      return None;
    }
    var header := FromBE(data[0..2]);
    if header != Header {
      return None;
    }
    var img := ReadImageSection(data, 4);
    if img.None? {
      return None;
    }
    ParseImagesShape(data, if 4 < |data| then 5 else 4, if 4 < |data| then data[4] else 0);
    var rad := ReadRadarSection(data, img.value.next);
    if rad.None? {
      return None;
    }
    var next := img.value.next;
    ParseRadarsShape(data, if next < |data| then next + 1 else next, if next < |data| then data[next] else 0);
    var req := ReadIdSection(data, rad.value.next);
    r := Some(EmptyFrame(data[2], data[3]).(
      imageTargetNum := img.value.count, imageTargets := img.value.items,
      radarTargetNum := rad.value.count, radarTargets := rad.value.items,
      requestedTargetNum := req.count, requestedTargetIds := req.items));
  }

  // ---------------------------------------------------------------------
  // Properties

  /** With counts equal to list lengths the frame is 7 + 58n + 34m + k bytes long. */
  lemma EncodingSize(f: DataFrame)
    requires Encodable(f)
    ensures |Encoding(f)| == 7 + ImageRecordSize * |f.imageTargets|
      + RadarRecordSize * |f.radarTargets| + |f.requestedTargetIds|
  {
  }

  lemma HeaderBytes()
    ensures ToBE(Header, 2) == [0xAA, 0x55]
  {
    assert ToBE(Header, 2) == ToBE(0xAA, 1) + [0x55];
  }

  /** The frame opens with the big-endian header, then the target and length bytes. */
  lemma EncodingStart(f: DataFrame)
    requires Encodable(f) && f.header == Header
    ensures Encoding(f)[..4] == [0xAA, 0x55, f.target, LengthField(f)]
  {
    HeaderBytes();
  }

  /**
   * The length field counts 30 bytes per image record and 18 per radar
   * record, while 58 and 34 are written: it falls short of the bytes after
   * the length byte by 28 per image and 16 per radar target.
   */
  lemma LengthFieldShortfall(f: DataFrame)
    requires Encodable(f) && WellCounted(f)
    ensures |Encoding(f)| - 4 - LengthField(f)
      == 28 * |f.imageTargets| + 16 * |f.radarTargets|
  {
    EncodingSize(f);
  }

  lemma ImageAtRecord(data: seq<Byte>, off: nat, t: ImageTarget)
    requires ImageEncodable(t) && off + ImageRecordSize <= |data|
    requires data[off..off + ImageRecordSize] == ImageRecord(t)
    ensures ImageAt(data, off) == t
  {
    var w := data[off..off + ImageRecordSize];
    assert w[0] == data[off] && w[1] == data[off + 1];
    assert w[2..10] == data[off + 2..off + 10];
    assert w[10..18] == data[off + 10..off + 18];
    assert w[18..26] == data[off + 18..off + 26];
    assert w[26..34] == data[off + 26..off + 34];
    assert w[34..42] == data[off + 34..off + 42];
    assert w[42..50] == data[off + 42..off + 50];
    assert w[50..58] == data[off + 50..off + 58];
  }

  lemma RadarAtRecord(data: seq<Byte>, off: nat, t: RadarTarget)
    requires RadarEncodable(t) && off + RadarRecordSize <= |data|
    requires data[off..off + RadarRecordSize] == RadarRecord(t)
    ensures RadarAt(data, off) == t
  {
    var w := data[off..off + RadarRecordSize];
    assert w[0] == data[off];
    assert w[2..10] == data[off + 2..off + 10];
    assert w[10..18] == data[off + 10..off + 18];
    assert w[18..26] == data[off + 18..off + 26];
    assert w[26..34] == data[off + 26..off + 34];
  }

  /** Whatever follows it, an encoded image block decodes back to its targets. */
  /** A slice holding a + b holds a, then b. */
  lemma SplitSlice<T>(data: seq<T>, off: nat, a: seq<T>, b: seq<T>)
    requires off + |a| + |b| <= |data| && data[off..off + |a| + |b|] == a + b
    ensures data[off..off + |a|] == a && data[off + |a|..off + |a| + |b|] == b
  {
    var w := data[off..off + |a| + |b|];
    assert data[off..off + |a|] == w[..|a|];
    assert data[off + |a|..off + |a| + |b|] == w[|a|..];
  }

  lemma {:induction false} ParseImagesOfBlock(data: seq<Byte>, off: nat, ts: seq<ImageTarget>)
    requires forall t <- ts :: ImageEncodable(t)
    requires off + ImageRecordSize * |ts| <= |data|
    requires data[off..off + ImageRecordSize * |ts|] == ImageBlock(ts)
    ensures ParseImages(data, off, |ts|) == Some((ts, off + ImageRecordSize * |ts|))
    decreases |ts|
  {
    if ts != [] {
      var tail := off + ImageRecordSize;
      SplitSlice(data, off, ImageRecord(ts[0]), ImageBlock(ts[1..]));
      ImageAtRecord(data, off, ts[0]);
      ParseImagesOfBlock(data, tail, ts[1..]);
      assert [ts[0]] + ts[1..] == ts;
    }
  }

  lemma {:induction false} ParseRadarsOfBlock(data: seq<Byte>, off: nat, ts: seq<RadarTarget>)
    requires forall t <- ts :: RadarEncodable(t)
    requires off + RadarRecordSize * |ts| <= |data|
    requires data[off..off + RadarRecordSize * |ts|] == RadarBlock(ts)
    ensures ParseRadars(data, off, |ts|) == Some((ts, off + RadarRecordSize * |ts|))
    decreases |ts|
  {
    if ts != [] {
      var tail := off + RadarRecordSize;
      SplitSlice(data, off, RadarRecord(ts[0]), RadarBlock(ts[1..]));
      RadarAtRecord(data, off, ts[0]);
      ParseRadarsOfBlock(data, tail, ts[1..]);
      assert [ts[0]] + ts[1..] == ts;
    }
  }

  lemma {:induction false} ParseIdsOfBlock(data: seq<Byte>, off: nat, ids: seq<int>)
    requires off + |ids| <= |data|
    requires forall i :: 0 <= i < |ids| ==> data[off + i] == ids[i]
    ensures ParseIds(data, off, |ids|) == (ids, off + |ids|)
    decreases |ids|
  {
    if ids != [] {
      ParseIdsOfBlock(data, off + 1, ids[1..]);
      assert [ids[0]] + ids[1..] == ids;
    }
  }

  /** Where the radar block starts (its count byte) and where the id block starts. */
  function RadarOffset(f: DataFrame): nat { 5 + ImageRecordSize * |f.imageTargets| }
  function IdOffset(f: DataFrame): nat { RadarOffset(f) + 1 + RadarRecordSize * |f.radarTargets| }

  /** d is h + a + [m] + b + [k] + c, stated element by element. */
  ghost predicate Parts<T>(d: seq<T>, h: seq<T>, a: seq<T>, m: T, b: seq<T>, k: T, c: seq<T>)
  {
    var o1 := |h| + |a|;
    var o2 := o1 + 1 + |b|;
    && |d| == o2 + 1 + |c|
    && (forall i :: 0 <= i < |h| ==> d[i] == h[i])
    && (forall i :: 0 <= i < |a| ==> d[|h| + i] == a[i])
    && d[o1] == m
    && (forall i :: 0 <= i < |b| ==> d[o1 + 1 + i] == b[i])
    && d[o2] == k
    && (forall i :: 0 <= i < |c| ==> d[o2 + 1 + i] == c[i])
  }

  lemma PartsAt<T>(h: seq<T>, a: seq<T>, m: T, b: seq<T>, k: T, c: seq<T>)
    ensures Parts(h + a + [m] + b + [k] + c, h, a, m, b, k, c)
  {
  }

  /** data is laid out as the encoding of f: header, counts, then each block in place. */
  ghost predicate LaidOut(data: seq<Byte>, f: DataFrame)
    requires Encodable(f)
  {
    Parts(data, [0xAA, 0x55, f.target, LengthField(f), f.imageTargetNum], ImageBlock(f.imageTargets),
      f.radarTargetNum, RadarBlock(f.radarTargets), f.requestedTargetNum, ByteBlock(f.requestedTargetIds))
  }

  /** An encoded frame is the header bytes, then the three blocks, each after its count. */
  lemma EncodingParts(f: DataFrame)
    requires Encodable(f) && f.header == Header
    ensures Encoding(f) == [0xAA, 0x55, f.target, LengthField(f), f.imageTargetNum] + ImageBlock(f.imageTargets)
      + [f.radarTargetNum] + RadarBlock(f.radarTargets) + [f.requestedTargetNum] + ByteBlock(f.requestedTargetIds)
  {
    HeaderBytes();
  }

  /** Where each part of an encoded frame sits. */
  lemma EncodingLayout(f: DataFrame)
    requires Encodable(f) && f.header == Header
    ensures LaidOut(Encoding(f), f)
  {
    EncodingParts(f);
    PartsAt([0xAA, 0x55, f.target, LengthField(f), f.imageTargetNum], ImageBlock(f.imageTargets),
      f.radarTargetNum, RadarBlock(f.radarTargets), f.requestedTargetNum, ByteBlock(f.requestedTargetIds));
  }

  /** A run of elements equal to a, from off on, is the slice a. */
  lemma SliceOfPoints<T>(d: seq<T>, off: nat, a: seq<T>)
    requires off + |a| <= |d| && forall i :: 0 <= i < |a| ==> d[off + i] == a[i]
    ensures d[off..off + |a|] == a
  {
  }

  lemma ImagesOfLayout(data: seq<Byte>, f: DataFrame)
    requires Encodable(f) && WellCounted(f) && LaidOut(data, f)
    ensures ImageSection(data, 4) == Some(Section(|f.imageTargets|, f.imageTargets, RadarOffset(f)))
  {
    SliceOfPoints(data, 5, ImageBlock(f.imageTargets));
    ParseImagesOfBlock(data, 5, f.imageTargets);
  }

  lemma RadarsOfLayout(data: seq<Byte>, f: DataFrame)
    requires Encodable(f) && WellCounted(f) && LaidOut(data, f)
    ensures RadarSection(data, RadarOffset(f)) == Some(Section(|f.radarTargets|, f.radarTargets, IdOffset(f)))
  {
    var o1, rb := RadarOffset(f), RadarBlock(f.radarTargets);
    assert o1 == 5 + |ImageBlock(f.imageTargets)|;
    assert data[o1] == f.radarTargetNum;
    SliceOfPoints(data, o1 + 1, rb);
    ParseRadarsOfBlock(data, o1 + 1, f.radarTargets);
  }

  lemma IdsOfLayout(data: seq<Byte>, f: DataFrame)
    requires Encodable(f) && WellCounted(f) && LaidOut(data, f)
    ensures IdSection(data, IdOffset(f)) == Section(|f.requestedTargetIds|, f.requestedTargetIds, |data|)
  {
    ParseIdsOfBlock(data, IdOffset(f) + 1, f.requestedTargetIds);
  }

  /** Any buffer laid out as an encoded frame decodes to that frame. */
  lemma DecodeOfLayout(data: seq<Byte>, f: DataFrame)
    requires Encodable(f) && f.header == Header && WellCounted(f) && LaidOut(data, f)
    ensures Decode(data) == Some(f.(length := LengthField(f)))
  {
    FromBETwo(data[0..2]);
    ImagesOfLayout(data, f);
    RadarsOfLayout(data, f);
    IdsOfLayout(data, f);
  }

  /**
   * Round trip: an encodable frame with header 0xAA55 whose counts match its
   * lists decodes to itself, with length holding the value the encoder wrote.
   */
  lemma RoundTrip(f: DataFrame)
    requires Encodable(f) && f.header == Header && WellCounted(f)
    ensures Decode(Encoding(f)) == Some(f.(length := LengthField(f)))
  {
    EncodingLayout(f);
    DecodeOfLayout(Encoding(f), f);
  }

  /** Fewer than four bytes, or any header other than 0xAA55, decode to None. */
  lemma DecodeRejects(data: seq<Byte>)
    requires |data| < 4 || data[0] != 0xAA || data[1] != 0x55
    ensures Decode(data) == None
  {
    if |data| >= 4 {
      FromBETwo(data[0..2]);
    }
  }

  /** A bare valid header decodes to a frame with zero counts and empty lists. */
  lemma DecodeHeaderOnly(target: Byte, length: Byte)
    ensures Decode([0xAA, 0x55, target, length]) == Some(EmptyFrame(target, length))
  {
    var data: seq<Byte> := [0xAA, 0x55, target, length];
    FromBETwo(data[0..2]);
  }

  /**
   * An image record cut off after at least 30 of its 58 bytes passes the
   * guard, and the short float64 read makes the whole frame decode to None
   * rather than a truncated list.
   */
  lemma TruncatedImageRecordRejected(data: seq<Byte>)
    requires |data| >= 5 && data[0] == 0xAA && data[1] == 0x55 && data[4] >= 1
    requires ImageNominalSize <= |data| - 5 < ImageRecordSize
    ensures Decode(data) == None
  {
    FromBETwo(data[0..2]);
    assert ParseImages(data, 5, data[4]) == None;
  }

  /** The same for a radar record cut off after at least 18 of its 34 bytes. */
  lemma TruncatedRadarRecordRejected(data: seq<Byte>)
    requires |data| >= 6 && data[0] == 0xAA && data[1] == 0x55 && data[4] == 0 && data[5] >= 1
    requires RadarNominalSize <= |data| - 6 < RadarRecordSize
    ensures Decode(data) == None
  {
    FromBETwo(data[0..2]);
    assert ImageSection(data, 4) == Some(Section(0, [], 5));
    assert ParseRadars(data, 6, data[5]) == None;
  }

  lemma ImageSectionShape(data: seq<Byte>, off: nat)
    requires off <= |data| && ImageSection(data, off).Some?
    ensures var sec := ImageSection(data, off).value;
      |sec.items| <= sec.count && off <= sec.next <= |data|
  {
    if off < |data| {
      ParseImagesShape(data, off + 1, data[off]);
    }
  }

  lemma RadarSectionShape(data: seq<Byte>, off: nat)
    requires off <= |data| && RadarSection(data, off).Some?
    ensures var sec := RadarSection(data, off).value;
      |sec.items| <= sec.count && off <= sec.next <= |data|
  {
    if off < |data| {
      ParseRadarsShape(data, off + 1, data[off]);
    }
  }

  lemma IdSectionShape(data: seq<Byte>, off: nat)
    requires off <= |data|
    ensures var sec := IdSection(data, off);
      |sec.items| <= sec.count && forall id <- sec.items :: IsByte(id)
  {
    if off < |data| {
      ParseIdsShape(data, off + 1, data[off]);
      var sec := IdSection(data, off);
      forall id <- sec.items
        ensures IsByte(id)
      {
        var i :| 0 <= i < |sec.items| && sec.items[i] == id;
        assert id == data[off + 1 + i];
      }
    }
  }

  /** Decoded lists never exceed their counts, and request ids are the bytes that follow the count. */
  lemma DecodedWithinCounts(data: seq<Byte>)
    requires Decode(data).Some?
    ensures var f := Decode(data).value;
      && f.header == Header && WellCountedAtMost(f)
      && (forall id <- f.requestedTargetIds :: IsByte(id))
  {
    ImageSectionShape(data, 4);
    var img := ImageSection(data, 4).value;
    RadarSectionShape(data, img.next);
    var rad := RadarSection(data, img.next).value;
    IdSectionShape(data, rad.next);
  }

  predicate WellCountedAtMost(f: DataFrame)
  {
    |f.imageTargets| <= f.imageTargetNum && |f.radarTargets| <= f.radarTargetNum
      && |f.requestedTargetIds| <= f.requestedTargetNum
  }
}
