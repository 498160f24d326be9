/**
 * The multi-function display simulator's core (mfd_sim/sim_core.py):
 * waypoint cycling, the radar lock toggle, the link-bandwidth figure and
 * the ICD field filter applied to the frame payload before it is
 * serialised. The payload is the JSON value before json.dumps; the text
 * serialisation, the timer tick and the sockets are not part of this model.
 */
module Mfd {
  import opened Common

  // ---------------------------------------------------------------------
  // State records (mfd_sim/models.py)

  datatype MfdMode = AirToAir | AirToGround | AirToSea

  function ModeValue(m: MfdMode): string
  {
    match m
    case AirToAir => "air_to_air"
    case AirToGround => "air_to_ground"
    case AirToSea => "air_to_sea"
  }

  datatype FlightParameters = FlightParameters(
    airspeedMps: real, altitudeM: real, headingDeg: real, gLoad: real, aoaDeg: real, fuelKg: real,
    waypointName: string, waypointDistanceM: real)

  const DefaultFlight := FlightParameters(150.0, 1200.0, 90.0, 1.0, 5.0, 1200.0, "WP1", 5000.0)

  datatype WeaponState = WeaponState(
    selected: string, status: string, locked: bool, maxRangeM: real, minRangeM: real,
    launchPerm: bool, ammoMissile: int, ammoGun: int)

  const DefaultWeapon := WeaponState("AAM", "READY", false, 8000.0, 500.0, false, 4, 120)

  datatype TacticalInfo = TacticalInfo(
    targetBearingDeg: real, targetDistanceM: real, closureRateMps: real, threatLevel: string,
    isFriend: bool, radarTracks: int)

  const DefaultTactical := TacticalInfo(45.0, 6000.0, -120.0, "LOW", false, 0)

  // ---------------------------------------------------------------------
  // Waypoint cycling

  predicate AllDigits(s: string)
  {
    |s| > 0 && forall i :: 0 <= i < |s| ==> '0' <= s[i] <= '9'
  }

  /** Python's int() on a string: an optional sign and decimal digits, otherwise ValueError. */
  function PyInt(s: string): (r: Result<int>)
    ensures AllDigits(s) ==> r == Ok(ParseDecimal(s))
    ensures s == [] ==> r == Fail(ValueError)
  {
    if AllDigits(s) then Ok(ParseDecimal(s))
    else if |s| > 0 && s[0] == '-' && AllDigits(s[1..]) then Ok(-ParseDecimal(s[1..]))
    else if |s| > 0 && s[0] == '+' && AllDigits(s[1..]) then Ok(ParseDecimal(s[1..]))
    else Fail(ValueError)
  }

  function StartsWith(s: string, prefix: string): bool
  {
    |s| >= |prefix| && s[..|prefix|] == prefix
  }

  /** The waypoint number after `name`: the current number (1 if the name is not a WP name) mod 5, plus 1. */
  function NextIndex(name: string): (r: Result<int>)
    ensures r.Ok? ==> 1 <= r.value <= 5
  {
    if StartsWith(name, "WP") then
      match PyInt(name[2..])
      case Ok(idx) => Ok(idx % 5 + 1)
      case Fail(e) => Fail(e)
    else Ok(1 % 5 + 1)
  }

  function WaypointName(idx: nat): string
  {
    "WP" + Decimal(idx)
  }

  /** The next waypoint distance: 500 m less, but never below 1000 m. */
  function NextDistance(d: real): (r: real)
    ensures r >= 1000.0
    ensures d >= 1500.0 ==> r == d - 500.0
    ensures d <= 1500.0 ==> r == 1000.0
  {
    MaxReal(1000.0, d - 500.0)
  }

  lemma AllDigitsDecimal(n: nat)
    ensures AllDigits(Decimal(n))
  {
  }

  /** WP1 -> WP2 -> WP3 -> WP4 -> WP5 -> WP1. */
  lemma WaypointsCycle(k: nat)
    requires 1 <= k <= 5
    ensures NextIndex(WaypointName(k)) == Ok(if k == 5 then 1 else k + 1)
  {
    var name := WaypointName(k);
    assert name[..2] == "WP";
    assert name[2..] == Decimal(k);
    AllDigitsDecimal(k);
    ParseDecimalOfDecimal(k);
  }

  /** A name that is not a WP name moves to WP2. */
  lemma OtherNamesGoToWp2(name: string)
    requires !StartsWith(name, "WP")
    ensures NextIndex(name) == Ok(2)
  {
  }

  /** "WP" followed by something int() rejects raises ValueError. */
  lemma BadWaypointRaises()
    ensures NextIndex("WPx") == Fail(ValueError)
    ensures NextIndex("WP") == Fail(ValueError)
  {
    assert "WPx"[..2] == "WP" && "WPx"[2..] == "x";
    assert "x"[0] == 'x';
    assert "WP"[2..] == [];
  }

  /** Python's % is a floored modulo: WP-2 moves to WP4. */
  lemma NegativeWaypointNumber()
    ensures NextIndex("WP-2") == Ok(4)
  {
    assert "WP-2"[..2] == "WP" && "WP-2"[2..] == "-2";
    assert "-2"[0] == '-';
    assert "-2"[1..] == "2" && AllDigits("2");
    assert ParseDecimal("2") == 2 by {
      assert "2"[..0] == [];
    }
  }

  // ---------------------------------------------------------------------
  // Link bandwidth

  /** bandwidth(msg_len_bytes, rate_hz): the percentage of the link the message stream occupies. */
  function Bandwidth(msgLenBytes: int, rateHz: real, linkSpeedBps: real): (r: real)
    ensures linkSpeedBps <= 0.0 ==> r == 0.0
    ensures linkSpeedBps > 0.0 ==> r * linkSpeedBps == msgLenBytes as real * rateHz * 800.0
  {
    if linkSpeedBps <= 0.0 then 0.0 else (msgLenBytes as real * rateHz * 8.0 / linkSpeedBps) * 100.0
  }

  /**
   * No link gives 0%; otherwise the figure is proportional to the message
   * length, non-negative for non-negative inputs, and 100% exactly when
   * the stream's bits per second equal the link speed.
   */
  lemma BandwidthRule(len: int, rate: real, link: real)
    ensures link <= 0.0 ==> Bandwidth(len, rate, link) == 0.0
    ensures link > 0.0 ==> Bandwidth(len, rate, link) * link == len as real * rate * 800.0
    ensures link > 0.0 && len >= 0 && rate >= 0.0 ==> Bandwidth(len, rate, link) >= 0.0
    ensures link > 0.0 ==> (Bandwidth(len, rate, link) == 100.0 <==> len as real * rate * 8.0 == link)
    ensures link > 0.0 ==> Bandwidth(2 * len, rate, link) == 2.0 * Bandwidth(len, rate, link)
  {
    if link > 0.0 {
      var bps := len as real * rate * 8.0;
      assert Bandwidth(len, rate, link) == bps / link * 100.0;
      assert bps / link * link == bps;
    }
  }

  // ---------------------------------------------------------------------
  // The payload and the ICD filter

  /** A JSON value as json.dumps receives it; objects keep their key order. */
  datatype Json = JNull | JBool(b: bool) | JInt(i: int) | JNum(r: real) | JStr(s: string) | JObj(entries: seq<(string, Json)>)

  /** The value of the first entry with key k. */
  function Lookup(es: seq<(string, Json)>, k: string): (r: Option<Json>)
    ensures r.Some? ==> exists i :: 0 <= i < |es| && es[i] == (k, r.value)
    ensures r.None? ==> forall i :: 0 <= i < |es| ==> es[i].0 != k
  {
    if |es| == 0 then None
    else if es[0].0 == k then Some(es[0].1)
    else
      var r := Lookup(es[1..], k);
      assert r.Some? ==> exists i :: 0 <= i < |es[1..]| && es[1..][i] == (k, r.value);
      r
  }

  /** name.split("."). */
  function Split(s: string): (r: seq<string>)
    ensures |r| >= 1
  {
    if |s| == 0 then [""]
    else if s[0] == '.' then [""] + Split(s[1..])
    else
      var p := Split(s[1..]);
      [[s[0]] + p[0]] + p[1..]
  }

  /** '.'.join(parts). */
  function Join(parts: seq<string>): string
  {
    if |parts| == 0 then "" else if |parts| == 1 then parts[0] else parts[0] + "." + Join(parts[1..])
  }

  /** Joining the pieces with dots gives back the name. */
  lemma {:induction false} JoinSplit(s: string)
    ensures Join(Split(s)) == s
  {
    if |s| > 0 {
      var p := Split(s[1..]);
      JoinSplit(s[1..]);
      if s[0] == '.' {
        assert ([""] + p)[1..] == p;
      } else {
        var q := [[s[0]] + p[0]] + p[1..];
        if |p| > 1 {
          assert q[1..] == p[1..];
        }
      }
      assert [s[0]] + s[1..] == s;
    }
  }

  /** A name without a dot is a single piece. */
  lemma {:induction false} SplitNoDot(s: string)
    requires '.' !in s
    ensures Split(s) == [s]
  {
    if |s| > 0 {
      SplitNoDot(s[1..]);
      assert [s[0]] + s[1..] == s;
    }
  }

  /** "a.b" with no dot in a or b splits into [a, b]. */
  lemma {:induction false} SplitTwo(a: string, b: string)
    requires '.' !in a && '.' !in b
    ensures Split(a + "." + b) == [a, b]
  {
    if |a| == 0 {
      assert a + "." + b == ['.'] + b;
      assert (['.'] + b)[1..] == b;
      SplitNoDot(b);
    } else {
      SplitTwo(a[1..], b);
      assert (a + "." + b)[1..] == a[1..] + "." + b;
      assert [a[0]] + a[1..] == a;
    }
  }

  /** Follow a path of keys through nested objects. */
  function Resolve(j: Json, parts: seq<string>): (r: Option<Json>)
    ensures |parts| == 0 ==> r == Some(j)
    ensures |parts| > 0 && r.Some? ==>
      j.JObj? && Lookup(j.entries, parts[0]).Some? && r == Resolve(Lookup(j.entries, parts[0]).value, parts[1..])
    decreases |parts|
  {
    if |parts| == 0 then Some(j)
    else match j
      case JObj(es) =>
        (match Lookup(es, parts[0])
         case Some(v) => Resolve(v, parts[1..])
         case None => None)
      case _ => None
  }

  /** The keys of an association list. */
  function Keys(es: seq<(string, Json)>): seq<string>
  {
    seq(|es|, i requires 0 <= i < |es| => es[i].0)
  }

  /** The index of the first entry with key k, or |es| when there is none. */
  function KeyIndex(es: seq<(string, Json)>, k: string): (i: nat)
    ensures i <= |es|
    ensures i < |es| ==> es[i].0 == k
    ensures i == |es| ==> k !in Keys(es)
  {
    if |es| == 0 then 0
    else if es[0].0 == k then 0
    else
      var i := KeyIndex(es[1..], k);
      assert Keys(es) == [es[0].0] + Keys(es[1..]);
      i + 1
  }

  /** filtered[name] = value: replace the entry with that key in place, or append a new one. */
  function Assign(es: seq<(string, Json)>, k: string, v: Json): (r: seq<(string, Json)>)
    ensures k in Keys(r)
    ensures forall i :: 0 <= i < |r| ==> r[i] == (k, v) || r[i] in es
    ensures forall x :: x in es && x.0 != k ==> x in r
  {
    var i := KeyIndex(es, k);
    if i < |es| then
      var r := es[i := (k, v)];
      assert Keys(r)[i] == k;
      assert forall j :: 0 <= j < |es| && j != i ==> r[j] == es[j];
      r
    else
      assert Keys(es + [(k, v)])[|es|] == k;
      es + [(k, v)]
  }

  /** The entries the filter collects from the ICD field names, in field order. */
  function Filtered(payload: Json, fields: seq<Option<string>>): (r: seq<(string, Json)>)
    ensures forall x :: x in r ==> Some(x.0) in fields && x.0 != "" && Resolve(payload, Split(x.0)) == Some(x.1)
  {
    if |fields| == 0 then []
    else
      var prev := Filtered(payload, fields[..|fields| - 1]);
      match fields[|fields| - 1]
      case None => prev
      case Some(name) =>
        if name == "" then prev
        else match Resolve(payload, Split(name))
          case None => prev
          case Some(v) => Assign(prev, name, v)
  }

  /** A field name the filter keeps: present, non-empty and resolvable in the payload. */
  predicate Kept(payload: Json, fields: seq<Option<string>>, name: string)
  {
    && Some(name) in fields
    && name != ""
    && Resolve(payload, Split(name)).Some?
  }

  /**
   * The filter keeps exactly the resolvable dotted names, each with the
   * value its path leads to.
   */
  lemma {:induction false} FilteredSound(payload: Json, fields: seq<Option<string>>)
    ensures forall x :: x in Filtered(payload, fields) ==> Kept(payload, fields, x.0) && Resolve(payload, Split(x.0)) == Some(x.1)
    ensures forall name :: Kept(payload, fields, name) ==> name in Keys(Filtered(payload, fields))
  {
    if |fields| > 0 {
      var pre := fields[..|fields| - 1];
      FilteredSound(payload, pre);
      assert fields == pre + [fields[|fields| - 1]];
      var prev := Filtered(payload, pre);
      forall name | Kept(payload, fields, name)
        ensures name in Keys(Filtered(payload, fields))
      {
        if Some(name) in pre {
          assert Kept(payload, pre, name);
          var j :| 0 <= j < |prev| && Keys(prev)[j] == name;
          var x := prev[j];
          if fields[|fields| - 1].Some? && fields[|fields| - 1].value != "" && fields[|fields| - 1].value != name {
            var r := Resolve(payload, Split(fields[|fields| - 1].value));
            if r.Some? {
              assert x in Assign(prev, fields[|fields| - 1].value, r.value);
              KeyOf(Filtered(payload, fields), x);
            }
          }
        }
      }
    }
  }

  lemma KeyOf(es: seq<(string, Json)>, x: (string, Json))
    requires x in es
    ensures x.0 in Keys(es)
  {
    var i :| 0 <= i < |es| && es[i] == x;
    assert Keys(es)[i] == x.0;
  }

  /** The payload encode builds before serialising it. */
  function PayloadOf(fp: FlightParameters, ws: WeaponState, ti: TacticalInfo, ts: real, mode: MfdMode, page: string): Json
  {
    JObj([("ts", JNum(ts)), ("mode", JStr(ModeValue(mode))), ("page", JStr(page)),
          ("flight", FlightJson(fp)), ("weapon", WeaponJson(ws)), ("tactical", TacticalJson(ti))])
  }

  function FlightJson(fp: FlightParameters): Json
  {
    JObj([
      ("airspeed_mps", JNum(fp.airspeedMps)), ("altitude_m", JNum(fp.altitudeM)),
      ("heading_deg", JNum(fp.headingDeg)), ("g_load", JNum(fp.gLoad)), ("aoa_deg", JNum(fp.aoaDeg)),
      ("fuel_kg", JNum(fp.fuelKg)), ("waypoint_name", JStr(fp.waypointName)),
      ("waypoint_distance_m", JNum(fp.waypointDistanceM))])
  }

  function WeaponJson(ws: WeaponState): Json
  {
    JObj([
      ("selected", JStr(ws.selected)), ("status", JStr(ws.status)), ("locked", JBool(ws.locked)),
      ("max_range_m", JNum(ws.maxRangeM)), ("min_range_m", JNum(ws.minRangeM)),
      ("launch_perm", JBool(ws.launchPerm)), ("ammo_missile", JInt(ws.ammoMissile)), ("ammo_gun", JInt(ws.ammoGun))])
  }

  function TacticalJson(ti: TacticalInfo): Json
  {
    JObj([
      ("target_bearing_deg", JNum(ti.targetBearingDeg)), ("target_distance_m", JNum(ti.targetDistanceM)),
      ("closure_rate_mps", JNum(ti.closureRateMps)), ("threat_level", JStr(ti.threatLevel)),
      ("is_friend", JBool(ti.isFriend)), ("radar_tracks", JInt(ti.radarTracks))])
  }

  /** The output multiplexer: its link speed and the field list of the loaded ICD (empty when none). */
  class OutputMultiplexer {
    const linkSpeedBps: real
    var icdFields: seq<Option<string>>

    constructor (linkSpeedBps: real)
      ensures this.linkSpeedBps == linkSpeedBps && icdFields == []
    {
      this.linkSpeedBps := linkSpeedBps;
      icdFields := [];
    }

    /** The ICD filter loop of encode. */
    method FilterFields(payload: Json) returns (filtered: seq<(string, Json)>)
      ensures filtered == Filtered(payload, icdFields)
    {
      filtered := [];
      var i := 0;
      while i < |icdFields|
        invariant 0 <= i <= |icdFields|
        invariant filtered == Filtered(payload, icdFields[..i])
      {
        assert icdFields[..i + 1][..i] == icdFields[..i];
        var f := icdFields[i];
        i := i + 1;
        if f.None? || f.value == "" {
          continue;
        }
        var name := f.value;
        var r := Resolve(payload, Split(name));
        if r.Some? {
          filtered := Assign(filtered, name, r.value);
        }
      }
      assert icdFields[..|icdFields|] == icdFields;
    }

    /**
     * encode, up to serialisation: the filtered entries when an ICD field
     * list is loaded and some field resolves, otherwise the full payload.
     */
    method Encode(fp: FlightParameters, ws: WeaponState, ti: TacticalInfo, ts: real, mode: MfdMode, page: string)
      returns (payload: Json)
      ensures var full := PayloadOf(fp, ws, ti, ts, mode, page);
        payload == if |Filtered(full, icdFields)| > 0 then JObj(Filtered(full, icdFields)) else full
    {
      payload := PayloadOf(fp, ws, ti, ts, mode, page);
      if |icdFields| > 0 {
        var filtered := FilterFields(payload);
        if |filtered| > 0 {
          payload := JObj(filtered);
        }
      }
    }

    function BandwidthOf(msgLenBytes: int, rateHz: real): real
    {
      Bandwidth(msgLenBytes, rateHz, linkSpeedBps)
    }
  }

  /** A single resolvable field name filters the payload down to that one entry. */
  lemma FilteredSingle(payload: Json, name: string, v: Json)
    requires name != "" && Resolve(payload, Split(name)) == Some(v)
    ensures Filtered(payload, [Some(name)]) == [(name, v)]
  {
    assert [Some(name)][..0] == [];
  }

  lemma SplitAltitudeName()
    ensures Split("flight.altitude_m") == ["flight", "altitude_m"]
  {
    SplitTwo("flight", "altitude_m");
    assert "flight" + "." + "altitude_m" == "flight.altitude_m";
  }

  lemma LookupFlight(fp: FlightParameters, ws: WeaponState, ti: TacticalInfo, ts: real, mode: MfdMode, page: string)
    ensures Lookup(PayloadOf(fp, ws, ti, ts, mode, page).entries, "flight") == Some(FlightJson(fp))
  {
    var es := PayloadOf(fp, ws, ti, ts, mode, page).entries;
    assert es[3].0 == "flight";
    assert es[0].0 != "flight" && es[1].0 != "flight" && es[2].0 != "flight";
    assert es[1..][1..][1..] == es[3..];
  }

  lemma LookupAltitude(fp: FlightParameters)
    ensures Lookup(FlightJson(fp).entries, "altitude_m") == Some(JNum(fp.altitudeM))
  {
    var fs := FlightJson(fp).entries;
    assert fs[0].0 != "altitude_m";
  }

  /** "flight.altitude_m" leads to the altitude. */
  lemma ResolveAltitude(fp: FlightParameters, ws: WeaponState, ti: TacticalInfo, ts: real, mode: MfdMode, page: string)
    ensures Resolve(PayloadOf(fp, ws, ti, ts, mode, page), Split("flight.altitude_m")) == Some(JNum(fp.altitudeM))
  {
    SplitAltitudeName();
    LookupFlight(fp, ws, ti, ts, mode, page);
    LookupAltitude(fp);
    var parts: seq<string> := ["flight", "altitude_m"];
    assert parts[1..][1..] == [];
    assert Resolve(FlightJson(fp), parts[1..]) == Resolve(JNum(fp.altitudeM), []);
  }

  /** An ICD naming only flight.altitude_m reduces the frame to that one entry. */
  lemma AltitudeOnly(fp: FlightParameters, ws: WeaponState, ti: TacticalInfo, ts: real, mode: MfdMode, page: string)
    ensures Filtered(PayloadOf(fp, ws, ti, ts, mode, page), [Some("flight.altitude_m")])
            == [("flight.altitude_m", JNum(fp.altitudeM))]
  {
    ResolveAltitude(fp, ws, ti, ts, mode, page);
    FilteredSingle(PayloadOf(fp, ws, ti, ts, mode, page), "flight.altitude_m", JNum(fp.altitudeM));
  }

  /** The full payload is sent exactly when no ICD field name resolves. */
  lemma FallbackRule(payload: Json, fields: seq<Option<string>>)
    ensures |Filtered(payload, fields)| == 0 <==> forall name :: !Kept(payload, fields, name)
  {
    FilteredSound(payload, fields);
    if |Filtered(payload, fields)| > 0 {
      assert Filtered(payload, fields)[0] in Filtered(payload, fields);
    }
  }

  // ---------------------------------------------------------------------
  // The simulator's interactive operations

  class MfdSimulator {
    var fp: FlightParameters
    var ws: WeaponState
    var ti: TacticalInfo
    var page: string

    constructor ()
      ensures fp == DefaultFlight && ws == DefaultWeapon && ti == DefaultTactical && page == "overview"
    {
      fp := DefaultFlight;
      ws := DefaultWeapon;
      ti := DefaultTactical;
      page := "overview";
    }

    method SetPage(p: string)
      modifies this
      ensures page == p && fp == old(fp) && ws == old(ws) && ti == old(ti)
    {
      page := p;
    }

    /** toggle_lock: only the lock flag changes. */
    method ToggleLock()
      modifies this
      ensures ws == old(ws).(locked := !old(ws.locked))
      ensures fp == old(fp) && ti == old(ti) && page == old(page)
    {
      ws := ws.(locked := !ws.locked);
    }

    /**
     * next_waypoint: the next name in the WP1..WP5 cycle and a distance
     * 500 m shorter but at least 1000 m; a WP name with a suffix int()
     * rejects raises ValueError before anything changes.
     */
    method NextWaypoint() returns (r: Result<()>)
      modifies this
      ensures r.Fail? <==> NextIndex(old(fp.waypointName)).Fail?
      ensures r.Fail? ==> fp == old(fp) && r.error == ValueError
      ensures r.Ok? ==> fp == old(fp).(waypointName := WaypointName(NextIndex(old(fp.waypointName)).value),
                                       waypointDistanceM := NextDistance(old(fp.waypointDistanceM)))
      ensures ws == old(ws) && ti == old(ti) && page == old(page)
    {
      var name := fp.waypointName;
      var idx: int;
      if StartsWith(name, "WP") {
        var parsed := PyInt(name[2..]);
        if parsed.Fail? {
          return Fail(parsed.error);
        }
        idx := parsed.value;
      } else {
        idx := 1;
      }
      idx := (idx % 5) + 1;
      fp := fp.(waypointName := "WP" + Decimal(idx));
      fp := fp.(waypointDistanceM := MaxReal(1000.0, fp.waypointDistanceM - 500.0));
      return Ok(());
    }
  }

  /** Two toggles restore the lock state. */
  method ToggleTwice(sim: MfdSimulator)
    modifies sim
    ensures sim.ws == old(sim.ws) && sim.fp == old(sim.fp)
  {
    sim.ToggleLock();
    sim.ToggleLock();
  }
}
