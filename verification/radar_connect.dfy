/**
 * The protocol-building half of the radar connection tool
 * (Radar_Connect/radar_connect_ui.py): the Length formula, the JSON object
 * the tool sends, the conversion of raw target dicts into protocol items,
 * and the choice of interface, port and card from a device configuration.
 * JSON objects are maps from keys to values; raw numeric target fields are
 * reals, so int() is truncation toward zero.
 */
module RadarConnect {
  import opened Common
  import RadarCodec

  const ImageItemSize: nat := 30
  const RadarItemSize: nat := 18
  const RequestItemSize: nat := 1
  const DefaultPort: int := 8888

  /** compute_length: 30 bytes per image target, 18 per radar target, one per request, plus 3. */
  function ComputeLength(nImage: int, nRadar: int, nReq: int): (r: int)
    ensures nImage >= 0 && nRadar >= 0 && nReq >= 0 ==>
      r >= 3 && (r == 3 <==> nImage == 0 && nRadar == 0 && nReq == 0)
  {
    30 * nImage + 18 * nRadar + nReq + 3
  }

  /** The Length this tool announces is the value the radar frame encoder writes into its length byte. */
  lemma LengthAgreesWithCodec(f: RadarCodec.DataFrame)
    requires RadarCodec.WellCounted(f)
    ensures ComputeLength(|f.imageTargets|, |f.radarTargets|, |f.requestedTargetIds|)
      == RadarCodec.LengthField(f)
  {
  }

  /** The length grows by 30, 18 and 1 for each further image target, radar target and request. */
  lemma LengthSteps(n: int, m: int, k: int)
    ensures ComputeLength(n + 1, m, k) == ComputeLength(n, m, k) + ImageItemSize
    ensures ComputeLength(n, m + 1, k) == ComputeLength(n, m, k) + RadarItemSize
    ensures ComputeLength(n, m, k + 1) == ComputeLength(n, m, k) + RequestItemSize
    ensures ComputeLength(0, 0, 0) == 3
  {
  }

  // ---------------------------------------------------------------------
  // build_protocol_json

  datatype Group<T> = Group(count: nat, itemSize: nat, items: seq<T>)

  datatype DataSection<I, R> = DataSection(
    id: int, length: int,
    imageTargets: Group<I>, radarTargets: Group<R>, fireControlRequests: Group<int>)

  datatype ProtocolJson<I, R> = ProtocolJson(ip: string, port: int, card: string, data: DataSection<I, R>)

  function Counted<T>(items: seq<T>, size: nat): (g: Group<T>)
    ensures g.count == |g.items| && g.itemSize == size && g.items == items
  {
    Group(|items|, size, items)
  }

  /** build_protocol_json; a missing or empty card becomes "". */
  function BuildProtocolJson<I, R>(ip: string, port: int, card: Option<string>,
                                   images: seq<I>, radars: seq<R>, reqIds: seq<int>,
                                   frameId: int): (j: ProtocolJson<I, R>)
    ensures j.data.imageTargets == Counted(images, ImageItemSize)
    ensures j.data.radarTargets == Counted(radars, RadarItemSize)
    ensures j.data.fireControlRequests == Counted(reqIds, RequestItemSize)
    ensures j.data.length == ComputeLength(j.data.imageTargets.count, j.data.radarTargets.count,
                                           j.data.fireControlRequests.count)
    ensures j.card == (if card.Some? then card.value else "")
    ensures j.ip == ip && j.port == port && j.data.id == frameId
  {
    ProtocolJson(ip, port, if card.Some? && card.value != "" then card.value else "",
      DataSection(frameId, ComputeLength(|images|, |radars|, |reqIds|),
        Counted(images, ImageItemSize), Counted(radars, RadarItemSize), Counted(reqIds, RequestItemSize)))
  }

  /**
   * The announced Length is the sum of count x item_size over the three
   * groups plus 3, for any lists.
   */
  lemma ProtocolLengthIsItemBytes<I, R>(ip: string, port: int, card: Option<string>,
                                        images: seq<I>, radars: seq<R>, reqIds: seq<int>, frameId: int)
    ensures var d := BuildProtocolJson(ip, port, card, images, radars, reqIds, frameId).data;
      d.length == d.imageTargets.count * d.imageTargets.itemSize
        + d.radarTargets.count * d.radarTargets.itemSize
        + d.fireControlRequests.count * d.fireControlRequests.itemSize + 3
  {
  }

  // ---------------------------------------------------------------------
  // convert_image_targets / convert_radar_targets

  /** A raw target dict with numeric values. */
  type RawTarget = map<string, real>

  /** int(t.get(key, 0)). */
  function IntOf(t: RawTarget, key: string): int
  {
    if key in t then TruncToInt(t[key]) else 0
  }

  /** float(t.get(key, 0.0)). */
  function RealOf(t: RawTarget, key: string): real
  {
    if key in t then t[key] else 0.0
  }

  datatype ImageItem = ImageItem(
    id: int, kind: int, distance: real, azimuth: real, frequency: real,
    distance30ms: real, azimuth30ms: real, speed: real, direction: real)

  datatype RadarItem = RadarItem(id: int, distance: real, azimuth: real, rcs: real, velocity: real)

  function ImageItemOf(t: RawTarget): ImageItem
  {
    ImageItem(IntOf(t, "id"), IntOf(t, "type"), RealOf(t, "distance_m"), RealOf(t, "azimuth_deg"),
      RealOf(t, "frequency_hz"), RealOf(t, "distance_30ms_m"), RealOf(t, "azimuth_30ms_deg"),
      RealOf(t, "speed_m_s"), RealOf(t, "direction_deg"))
  }

  function RadarItemOf(t: RawTarget): RadarItem
  {
    RadarItem(IntOf(t, "id"), RealOf(t, "distance_m"), RealOf(t, "azimuth_deg"),
      RealOf(t, "rcs_db"), RealOf(t, "velocity_m_s"))
  }

  const ZeroImageItem := ImageItem(0, 0, 0.0, 0.0, 0.0, 0.0, 0.0, 0.0, 0.0)
  const ZeroRadarItem := RadarItem(0, 0.0, 0.0, 0.0, 0.0)

  /**
   * Missing keys read as zero, whole-number ids and types are kept, and a
   * fractional id is truncated toward zero.
   */
  lemma ItemDefaults(t: RawTarget, n: int)
    ensures ImageItemOf(map[]) == ZeroImageItem && RadarItemOf(map[]) == ZeroRadarItem
    ensures "id" in t && t["id"] == n as real ==> ImageItemOf(t).id == n && RadarItemOf(t).id == n
    ensures "type" in t && t["type"] == n as real ==> ImageItemOf(t).kind == n
    ensures "id" in t && n as real <= t["id"] < (n + 1) as real && n >= 0 ==> ImageItemOf(t).id == n
    ensures "id" in t && (n - 1) as real < t["id"] <= n as real && n <= 0 ==> RadarItemOf(t).id == n
  {
  }

  /** convert_image_targets: one item per raw target, in order. */
  method ConvertImageTargets(raw: seq<RawTarget>) returns (out: seq<ImageItem>)
    ensures |out| == |raw|
    ensures forall i :: 0 <= i < |raw| ==> out[i] == ImageItemOf(raw[i])
  {
    out := [];
    for i := 0 to |raw|
      invariant |out| == i
      invariant forall j :: 0 <= j < i ==> out[j] == ImageItemOf(raw[j])
    {
      out := out + [ImageItemOf(raw[i])];
    }
  }

  /** convert_radar_targets: one item per raw target, in order. */
  method ConvertRadarTargets(raw: seq<RawTarget>) returns (out: seq<RadarItem>)
    ensures |out| == |raw|
    ensures forall i :: 0 <= i < |raw| ==> out[i] == RadarItemOf(raw[i])
  {
    out := [];
    for i := 0 to |raw|
      invariant |out| == i
      invariant forall j :: 0 <= j < i ==> out[j] == RadarItemOf(raw[j])
    {
      out := out + [RadarItemOf(raw[i])];
    }
  }

  // ---------------------------------------------------------------------
  // load_device_config (the dictionary part; reading the file is not modelled)

  datatype JVal = JNull | JBool(b: bool) | JInt(i: int) | JReal(r: real) | JStr(s: string) | JList(items: seq<JVal>)

  type Config = map<string, JVal>

  /** Python truthiness of a JSON value. */
  predicate Truthy(v: JVal)
  {
    match v
    case JNull => false
    case JBool(b) => b
    case JInt(i) => i != 0
    case JReal(r) => r != 0.0
    case JStr(s) => s != ""
    case JList(items) => items != []
  }

  /** x or y. */
  function Or(x: JVal, y: JVal): (r: JVal)
    ensures Truthy(x) ==> r == x
    ensures !Truthy(x) ==> r == y
  {
    if Truthy(x) then x else y
  }

  /** cfg.get(key), with JNull for a missing key. */
  function Get(cfg: Config, key: string): JVal
  {
    if key in cfg then cfg[key] else JNull
  }

  /**
   * int(port) for a present port; None stands for the exception int()
   * raises. Parsing a string is the parameter `parseInt`.
   */
  function IntConversion(v: JVal, parseInt: string -> Option<int>): Option<int>
  {
    match v
    case JNull => None
    case JBool(b) => Some(if b then 1 else 0)
    case JInt(i) => Some(i)
    case JReal(r) => Some(TruncToInt(r))
    case JStr(s) => parseInt(s)
    case JList(_) => None
  }

  /** The card: "Card" when truthy, else the first of a non-empty "Cards" list, else None. */
  function CardOf(cfg: Config): JVal
  {
    var cards := Or(Get(cfg, "Cards"), JList([]));
    Or(Get(cfg, "Card"), if cards.JList? && cards.items != [] then cards.items[0] else JNull)
  }

  function InterfaceOf(cfg: Config): string
  {
    if Truthy(Get(cfg, "IP")) && Truthy(Get(cfg, "Port")) then "udp"
    else if Truthy(CardOf(cfg)) then "ieee1394"
    else "udp"
  }

  function PortOf(cfg: Config, parseInt: string -> Option<int>): int
  {
    var port := Get(cfg, "Port");
    if port.JNull? then DefaultPort
    else
      var p := IntConversion(port, parseInt);
      if p.Some? then p.value else DefaultPort
  }

  /** load_device_config after json.load: the configuration with five derived keys added. */
  function DeviceConfig(cfg: Config, parseInt: string -> Option<int>): (out: Config)
    ensures forall k :: k in cfg ==> k in out
    ensures forall k :: k in cfg && k !in DerivedKeys ==> out[k] == cfg[k]
    ensures forall k :: k in out ==> k in cfg || k in DerivedKeys
  {
    cfg + map[
      "interface" := JStr(InterfaceOf(cfg)),
      "remote_host" := Or(Get(cfg, "IP"), JStr("127.0.0.1")),
      "remote_port" := JInt(PortOf(cfg, parseInt)),
      "card" := Or(CardOf(cfg), JStr("")),
      "channel" := Get(cfg, "Channel")]
  }

  const DerivedKeys: set<string> := {"interface", "remote_host", "remote_port", "card", "channel"}

  /**
   * The interface is "ieee1394" exactly when IP or Port is missing or
   * falsy and a card is configured; otherwise "udp".
   */
  lemma InterfaceRule(cfg: Config, parseInt: string -> Option<int>)
    ensures var out := DeviceConfig(cfg, parseInt);
      && "interface" in out
      && (out["interface"] == JStr("ieee1394")
          <==> !(Truthy(Get(cfg, "IP")) && Truthy(Get(cfg, "Port"))) && Truthy(CardOf(cfg)))
      && (out["interface"] == JStr("udp")
          <==> (Truthy(Get(cfg, "IP")) && Truthy(Get(cfg, "Port"))) || !Truthy(CardOf(cfg)))
  {
    var out := DeviceConfig(cfg, parseInt);
    assert out["interface"] == JStr(InterfaceOf(cfg));
    assert "ieee1394" != "udp";
  }

  /**
   * remote_port is 8888 when Port is missing or cannot be converted, and
   * the converted Port otherwise.
   */
  lemma PortRule(cfg: Config, parseInt: string -> Option<int>)
    ensures var out := DeviceConfig(cfg, parseInt);
      && "remote_port" in out
      && ("Port" !in cfg || cfg["Port"].JNull? ==> out["remote_port"] == JInt(DefaultPort))
      && ("Port" in cfg && IntConversion(cfg["Port"], parseInt).None? ==> out["remote_port"] == JInt(DefaultPort))
      && ("Port" in cfg && IntConversion(cfg["Port"], parseInt).Some?
          ==> out["remote_port"] == JInt(IntConversion(cfg["Port"], parseInt).value))
  {
    var out := DeviceConfig(cfg, parseInt);
    assert out["remote_port"] == JInt(PortOf(cfg, parseInt));
  }

  /**
   * card is "Card" when that is truthy, else the first element of a
   * non-empty "Cards" list when that is truthy, else "".
   */
  lemma CardRule(cfg: Config, parseInt: string -> Option<int>)
    ensures var out := DeviceConfig(cfg, parseInt);
      && "card" in out
      && ("Card" in cfg && Truthy(cfg["Card"]) ==> out["card"] == cfg["Card"])
      && ((!Truthy(Get(cfg, "Card")) && "Cards" in cfg && cfg["Cards"].JList? && cfg["Cards"].items != []
           && Truthy(cfg["Cards"].items[0])) ==> out["card"] == cfg["Cards"].items[0])
      && (!Truthy(Get(cfg, "Card")) && !("Cards" in cfg && cfg["Cards"].JList? && cfg["Cards"].items != [])
          ==> out["card"] == JStr(""))
  {
    var out := DeviceConfig(cfg, parseInt);
    assert out["card"] == Or(CardOf(cfg), JStr(""));
    CardChoice(cfg);
  }

  lemma CardChoice(cfg: Config)
    ensures var c := Or(CardOf(cfg), JStr(""));
      && ("Card" in cfg && Truthy(cfg["Card"]) ==> c == cfg["Card"])
      && ((!Truthy(Get(cfg, "Card")) && "Cards" in cfg && cfg["Cards"].JList? && cfg["Cards"].items != []
           && Truthy(cfg["Cards"].items[0])) ==> c == cfg["Cards"].items[0])
      && (!Truthy(Get(cfg, "Card")) && !("Cards" in cfg && cfg["Cards"].JList? && cfg["Cards"].items != [])
          ==> c == JStr(""))
  {
  }
}
