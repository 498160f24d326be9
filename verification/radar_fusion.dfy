/**
 * Image/radar track fusion and fire-control answers (RadarSimulatorCore in
 * radar_simulation.py). The track table is a Python dict keyed by target
 * id; its insertion order matters because the fire-control fallback takes
 * the first nearest track in that order, so it is modelled as an ordered
 * key list beside a map.
 */
module RadarFusion {
  import opened Common

  datatype ImageTarget = ImageTarget(
    id: int, kind: int, distance: real, azimuth: real, frequency: real,
    distance30ms: real, azimuth30ms: real, speed: real, direction: real)

  datatype RadarTarget = RadarTarget(id: int, distance: real, azimuth: real, rcs: real, velocity: real)

  datatype TrackSource = Image | Radar | Fused

  datatype Track = Track(
    id: int, distance: real, azimuth: real, speed: real, lastUpdate: real,
    source: TrackSource, rcs: Option<real>, threat: real)

  /** The dict of tracks: keys in insertion order, and the entries. */
  datatype Table = Table(order: seq<int>, tracks: map<int, Track>)

  predicate Distinct(s: seq<int>)
  {
    forall i, j :: 0 <= i < j < |s| ==> s[i] != s[j]
  }

  ghost predicate ValidTable(tb: Table)
  {
    && Distinct(tb.order)
    && (forall i :: 0 <= i < |tb.order| ==> tb.order[i] in tb.tracks)
    && (forall k :: k in tb.tracks ==> k in tb.order)
    && (forall k :: k in tb.tracks ==> tb.tracks[k].id == k)
  }

  /** list(tracks.values()). */
  function Values(tb: Table): (vs: seq<Track>)
    requires ValidTable(tb)
    ensures |vs| == |tb.order|
    ensures forall i :: 0 <= i < |vs| ==> vs[i] == tb.tracks[tb.order[i]]
  {
    seq(|tb.order|, i requires 0 <= i < |tb.order| => tb.tracks[tb.order[i]])
  }

  const Alpha: real := 0.6
  const Ttl: real := 5.0

  predicate HasId(rs: seq<RadarTarget>, k: int)
  {
    exists i :: 0 <= i < |rs| && rs[i].id == k
  }

  lemma HasIdSnoc(rs: seq<RadarTarget>, k: int)
    requires rs != []
    ensures HasId(rs, k) <==> HasId(rs[..|rs| - 1], k) || rs[|rs| - 1].id == k
  {
    var init := rs[..|rs| - 1];
    if HasId(init, k) {
      var i :| 0 <= i < |init| && init[i].id == k;
      assert rs[i].id == k;
    }
    if HasId(rs, k) && rs[|rs| - 1].id != k {
      var i :| 0 <= i < |rs| && rs[i].id == k;
      assert init[i].id == k;
    }
  }

  /** radar_by_id = {r.id: r for r in radar_targets}: the last target with each id wins. */
  function RadarIndex(rs: seq<RadarTarget>): (m: map<int, RadarTarget>)
    ensures forall k :: k in m <==> HasId(rs, k)
    ensures forall k :: k in m ==> m[k] in rs && m[k].id == k
  {
    if rs == [] then map[]
    else
      var last := rs[|rs| - 1];
      var m := RadarIndex(rs[..|rs| - 1])[last.id := last];
      assert forall k :: HasId(rs, k) <==> HasId(rs[..|rs| - 1], k) || last.id == k by {
        forall k ensures HasId(rs, k) <==> HasId(rs[..|rs| - 1], k) || last.id == k {
          HasIdSnoc(rs, k);
        }
      }
      assert forall r <- rs[..|rs| - 1] :: r in rs;
      m
  }

  /** The image loop body: blend an existing track, or start one with the radar's RCS if any. */
  function ImageStep(tb: Table, it: ImageTarget, index: map<int, RadarTarget>, ts: real): (r: Table)
    ensures it.id in r.tracks && r.tracks[it.id].lastUpdate == ts && r.tracks[it.id].source == Image
  {
    if it.id in tb.tracks then
      var t := tb.tracks[it.id];
      Table(tb.order, tb.tracks[it.id := t.(
        distance := Alpha * it.distance + (1.0 - Alpha) * t.distance,
        azimuth := FloorMod(Alpha * it.azimuth + (1.0 - Alpha) * t.azimuth, 360.0),
        speed := Alpha * it.speed + (1.0 - Alpha) * t.speed,
        lastUpdate := ts, source := Image)])
    else
      var rcs := if it.id in index then Some(index[it.id].rcs) else None;
      Table(tb.order + [it.id],
        tb.tracks[it.id := Track(it.id, it.distance, it.azimuth, it.speed, ts, Image, rcs, 0.0)])
  }

  function ImagePass(tb: Table, its: seq<ImageTarget>, index: map<int, RadarTarget>, ts: real): Table
  {
    if its == [] then tb
    else ImageStep(ImagePass(tb, its[..|its| - 1], index, ts), its[|its| - 1], index, ts)
  }

  /**
   * The radar loop body. `bearing(a1, a2)` stands for
   * degrees(atan2(y, x)) of the 0.4/0.6 unit-vector blend of the two azimuths.
   */
  function RadarStep(tb: Table, rt: RadarTarget, ts: real, bearing: (real, real) -> real): (r: Table)
    ensures rt.id in r.tracks && r.tracks[rt.id].lastUpdate == ts && r.tracks[rt.id].source == Radar
    ensures r.tracks[rt.id].rcs == Some(rt.rcs)
    ensures r.order == if rt.id in tb.tracks then tb.order else tb.order + [rt.id]
  {
    if rt.id in tb.tracks then
      var t := tb.tracks[rt.id];
      Table(tb.order, tb.tracks[rt.id := t.(
        distance := Alpha * rt.distance + (1.0 - Alpha) * t.distance,
        azimuth := FloorMod(bearing(t.azimuth, rt.azimuth) + 360.0, 360.0),
        speed := Alpha * rt.velocity + (1.0 - Alpha) * t.speed,
        rcs := Some(rt.rcs), lastUpdate := ts, source := Radar)])
    else
      Table(tb.order + [rt.id],
        tb.tracks[rt.id := Track(rt.id, rt.distance, rt.azimuth, rt.velocity, ts, Radar, Some(rt.rcs), 0.0)])
  }

  function RadarPass(tb: Table, rs: seq<RadarTarget>, ts: real, bearing: (real, real) -> real): Table
  {
    if rs == [] then tb
    else RadarStep(RadarPass(tb, rs[..|rs| - 1], ts, bearing), rs[|rs| - 1], ts, bearing)
  }

  predicate Fresh(t: Track, now: real) { now - t.lastUpdate <= Ttl }

  /**
   * The keys the age-out step keeps, in order. `clock(k)` is the reading
   * time.time() returns while the comprehension examines key k: the
   * clock is read once per track, not once per step.
   */
  function FreshKeys(order: seq<int>, tracks: map<int, Track>, clock: int -> real): (r: seq<int>)
    ensures forall k :: k in r <==> k in order && (k in tracks ==> Fresh(tracks[k], clock(k)))
  {
    if order == [] then []
    else
      var k := order[|order| - 1];
      FreshKeys(order[..|order| - 1], tracks, clock)
        + (if k in tracks && !Fresh(tracks[k], clock(k)) then [] else [k])
  }

  /** The keys whose tracks are stale, in order: the ids the age-out step collects. */
  function StaleKeys(order: seq<int>, tracks: map<int, Track>, clock: int -> real): (r: seq<int>)
    ensures forall k :: k in r <==> k in order && k in tracks && !Fresh(tracks[k], clock(k))
  {
    if order == [] then []
    else
      var k := order[|order| - 1];
      StaleKeys(order[..|order| - 1], tracks, clock)
        + (if k in tracks && !Fresh(tracks[k], clock(k)) then [k] else [])
  }

  /** The scan of the age-out step: the keys to keep and the stale keys, each in order, one clock reading per key. */
  method SplitByAge(order: seq<int>, tracks: map<int, Track>, clock: int -> real) returns (kept: seq<int>, stale: seq<int>)
    requires forall j :: 0 <= j < |order| ==> order[j] in tracks
    ensures kept == FreshKeys(order, tracks, clock)
    ensures stale == StaleKeys(order, tracks, clock)
  {
    kept, stale := [], [];
    var i := 0;
    while i < |order|
      invariant 0 <= i <= |order|
      invariant kept == FreshKeys(order[..i], tracks, clock)
      invariant stale == StaleKeys(order[..i], tracks, clock)
    {
      assert order[..i + 1][..i] == order[..i];
      var k := order[i];
      var now := clock(k);
      if now - tracks[k].lastUpdate > Ttl {
        stale := stale + [k];
      } else {
        kept := kept + [k];
      }
      i := i + 1;
    }
    assert order[..i] == order;
  }

  /** The age-out step: tracks not refreshed within 5 s of their own clock reading are deleted. */
  function AgeOut(tb: Table, clock: int -> real): (r: Table)
    ensures forall k :: k in r.tracks <==> k in tb.tracks && Fresh(tb.tracks[k], clock(k))
    ensures forall k :: k in r.tracks ==> r.tracks[k] == tb.tracks[k]
    ensures forall k :: k in r.order <==> k in tb.order && (k in tb.tracks ==> Fresh(tb.tracks[k], clock(k)))
  {
    Table(FreshKeys(tb.order, tb.tracks, clock),
      map k | k in tb.tracks && Fresh(tb.tracks[k], clock(k)) :: tb.tracks[k])
  }

  /** The threat score of one track: range, speed and RCS terms, weighted, scaled in AirCombat mode and clamped. */
  function ThreatScore(t: Track, mode: string): (s: real)
    ensures 0.0 <= s <= 1.5
    ensures mode != "AirCombat" && t.distance >= 0.0 && (t.rcs.None? || -20.0 <= t.rcs.value <= 20.0) ==> s <= 1.0
  {
    var distScore := MaxReal(0.0, 1.0 - t.distance / 50000.0);
    var speedScore := MinReal(1.0, AbsReal(t.speed) / 400.0);
    var rcsScore := if t.rcs.Some? then (t.rcs.value + 20.0) / 40.0 else 0.5;
    var modeFactor := if mode == "AirCombat" then 1.5 else 1.0;
    var score := (0.6 * distScore + 0.3 * speedScore + 0.1 * rcsScore) * modeFactor;
    assert t.distance >= 0.0 ==> distScore <= 1.0 by {
      if t.distance >= 0.0 {
        assert t.distance / 50000.0 >= 0.0;
      }
    }
    assert t.rcs.None? || t.rcs.value <= 20.0 ==> rcsScore <= 1.0;
    ClampReal(score, 0.0, 1.5)
  }

  function ScoreAll(tb: Table, mode: string): Table
  {
    Table(tb.order, map k | k in tb.tracks :: tb.tracks[k].(threat := ThreatScore(tb.tracks[k], mode)))
  }

  /** The whole of fuse_and_track on the table. */
  function Fuse(tb: Table, its: seq<ImageTarget>, rs: seq<RadarTarget>, ts: real, clock: int -> real,
                bearing: (real, real) -> real, mode: string): (r: Table)
    ensures forall k :: k in r.tracks ==> 0.0 <= r.tracks[k].threat <= 1.5 && Fresh(r.tracks[k], clock(k))
  {
    ScoreAll(AgeOut(RadarPass(ImagePass(tb, its, RadarIndex(rs), ts), rs, ts, bearing), clock), mode)
  }

  datatype FcStatus = StatusOk | NoTarget | Fallback
  datatype Pick = Pick(selected: int, distance: real, azimuth: real)
  datatype Response = Response(requested: int, status: FcStatus, pick: Option<Pick>)

  function PickOf(t: Track): Pick { Pick(t.id, t.distance, t.azimuth) }

  /** min(tracks.values(), key=distance): the first key in order whose track is nearest. */
  function NearestIndex(tb: Table): (i: nat)
    requires ValidTable(tb) && tb.order != []
    ensures i < |tb.order|
    ensures forall j :: 0 <= j < |tb.order| ==> tb.tracks[tb.order[i]].distance <= tb.tracks[tb.order[j]].distance
    ensures forall j :: 0 <= j < i ==> tb.tracks[tb.order[j]].distance > tb.tracks[tb.order[i]].distance
  {
    NearestFrom(tb, 1, 0)
  }

  function NearestFrom(tb: Table, j: nat, best: nat): (i: nat)
    requires ValidTable(tb) && best < j <= |tb.order|
    requires forall l :: 0 <= l < j ==> tb.tracks[tb.order[best]].distance <= tb.tracks[tb.order[l]].distance
    requires forall l :: 0 <= l < best ==> tb.tracks[tb.order[l]].distance > tb.tracks[tb.order[best]].distance
    ensures i < |tb.order|
    ensures forall l :: 0 <= l < |tb.order| ==> tb.tracks[tb.order[i]].distance <= tb.tracks[tb.order[l]].distance
    ensures forall l :: 0 <= l < i ==> tb.tracks[tb.order[l]].distance > tb.tracks[tb.order[i]].distance
    decreases |tb.order| - j
  {
    if j == |tb.order| then best
    else if tb.tracks[tb.order[j]].distance < tb.tracks[tb.order[best]].distance then NearestFrom(tb, j + 1, j)
    else NearestFrom(tb, j + 1, best)
  }

  /** The answer to one requested id. */
  function Respond(tb: Table, rid: int): (r: Response)
    requires ValidTable(tb)
    ensures r.requested == rid
    ensures r.status == StatusOk <==> rid in tb.tracks
    ensures r.status == NoTarget <==> rid !in tb.tracks && tb.tracks == map[]
    ensures r.status == StatusOk ==> r.pick == Some(PickOf(tb.tracks[rid]))
    ensures r.status == NoTarget <==> r.pick == None
    ensures r.status == Fallback ==>
      && r.pick.Some? && r.pick.value.selected in tb.tracks
      && r.pick.value == PickOf(tb.tracks[r.pick.value.selected])
      && (forall k :: k in tb.tracks ==> r.pick.value.distance <= tb.tracks[k].distance)
  {
    if rid in tb.tracks then Response(rid, StatusOk, Some(PickOf(tb.tracks[rid])))
    else if tb.order == [] then
      EmptyTable(tb);
      Response(rid, NoTarget, None)
    else
      var i := NearestIndex(tb);
      assert forall k :: k in tb.tracks ==> exists j :: 0 <= j < |tb.order| && tb.order[j] == k;
      Response(rid, Fallback, Some(PickOf(tb.tracks[tb.order[i]])))
  }

  // ---------------------------------------------------------------------
  // The simulator object

  class FusionSimulator {
    var order: seq<int>
    var tracks: map<int, Track>
    var frameCounter: int
    var mode: string

    ghost predicate Valid()
      reads this
    {
      ValidTable(Table(order, tracks))
    }

    function State(): Table
      reads this
    {
      Table(order, tracks)
    }

    constructor ()
      ensures Valid() && order == [] && tracks == map[] && frameCounter == 0 && mode == "Search"
    {
      order, tracks, frameCounter, mode := [], map[], 0, "Search";
    }

    /** The image loop of fuse_and_track; returns the ids it touched. */
    method ImagePhase(its: seq<ImageTarget>, index: map<int, RadarTarget>, timestamp: real)
      returns (updated: set<int>)
      requires Valid()
      modifies this
      ensures Valid()
      ensures State() == ImagePass(old(State()), its, index, timestamp)
      ensures forall j :: 0 <= j < |its| ==> its[j].id in updated
      ensures frameCounter == old(frameCounter) && mode == old(mode)
    {
      updated := {};
      var ord, trk := order, tracks;
      var i := 0;
      while i < |its|
        invariant 0 <= i <= |its|
        invariant Table(ord, trk) == ImagePass(State(), its[..i], index, timestamp)
        invariant forall j :: 0 <= j < i ==> its[j].id in updated
      {
        assert its[..i + 1][..i] == its[..i];
        var it := its[i];
        ghost var before := Table(ord, trk);
        if it.id in trk {
          var t := trk[it.id];
          trk := trk[it.id := t.(
            distance := Alpha * it.distance + (1.0 - Alpha) * t.distance,
            azimuth := FloorMod(Alpha * it.azimuth + (1.0 - Alpha) * t.azimuth, 360.0),
            speed := Alpha * it.speed + (1.0 - Alpha) * t.speed,
            lastUpdate := timestamp, source := Image)];
        } else {
          var rcs := if it.id in index then Some(index[it.id].rcs) else None;
          ord := ord + [it.id];
          trk := trk[it.id := Track(it.id, it.distance, it.azimuth, it.speed, timestamp, Image, rcs, 0.0)];
        }
        assert Table(ord, trk) == ImageStep(before, it, index, timestamp);
        updated := updated + {it.id};
        i := i + 1;
      }
      assert its[..i] == its;
      ImagePassValid(State(), its, index, timestamp);
      order, tracks := ord, trk;
    }

    /** The radar loop of fuse_and_track. */
    method RadarPhase(rs: seq<RadarTarget>, timestamp: real, bearing: (real, real) -> real)
      requires Valid()
      modifies this
      ensures Valid()
      ensures State() == RadarPass(old(State()), rs, timestamp, bearing)
      ensures frameCounter == old(frameCounter) && mode == old(mode)
    {
      var ord, trk := order, tracks;
      var i := 0;
      while i < |rs|
        invariant 0 <= i <= |rs|
        invariant Table(ord, trk) == RadarPass(State(), rs[..i], timestamp, bearing)
      {
        assert rs[..i + 1][..i] == rs[..i];
        var rt := rs[i];
        if rt.id in trk {
          var t := trk[rt.id];
          trk := trk[rt.id := t.(
            distance := Alpha * rt.distance + (1.0 - Alpha) * t.distance,
            azimuth := FloorMod(bearing(t.azimuth, rt.azimuth) + 360.0, 360.0),
            speed := Alpha * rt.velocity + (1.0 - Alpha) * t.speed,
            rcs := Some(rt.rcs), lastUpdate := timestamp, source := Radar)];
        } else {
          ord := ord + [rt.id];
          trk := trk[rt.id := Track(rt.id, rt.distance, rt.azimuth, rt.velocity, timestamp, Radar, Some(rt.rcs), 0.0)];
        }
        i := i + 1;
      }
      assert rs[..i] == rs;
      RadarPassValid(State(), rs, timestamp, bearing);
      order, tracks := ord, trk;
    }

    /** The age-out step: collect the stale ids, then delete them. */
    method AgeOutPhase(clock: int -> real)
      requires Valid()
      modifies this
      ensures Valid()
      ensures State() == AgeOut(old(State()), clock)
      ensures frameCounter == old(frameCounter) && mode == old(mode)
    {
      var kept, stale := SplitByAge(order, tracks, clock);
      AgeOutValid(State(), clock);
      DropStale(tracks, stale, clock);
      tracks := map k | k in tracks && k !in stale :: tracks[k];
      order := kept;
    }

    /**
     * fuse_and_track. `timestamp` is the first clock reading, taken on entry;
     * `clock(k)` is the reading the age-out step compares track k against.
     */
    method FuseAndTrack(its: seq<ImageTarget>, rs: seq<RadarTarget>, timestamp: real, clock: int -> real,
                        bearing: (real, real) -> real) returns (result: seq<Track>)
      requires Valid()
      modifies this
      ensures Valid()
      ensures State() == Fuse(old(State()), its, rs, timestamp, clock, bearing, old(mode))
      ensures frameCounter == old(frameCounter) + 1 && mode == old(mode)
      ensures result == Values(State())
    {
      var index := RadarIndex(rs);
      var updated := ImagePhase(its, index, timestamp);
      RadarPhase(rs, timestamp, bearing);

      // The image-to-radar merge loop: every image id is already in
      // updated_ids, so each iteration takes the `continue` branch.
      var i := 0;
      while i < |its|
        invariant 0 <= i <= |its|
      {
        if its[i].id !in updated {
          assert false;
        }
        i := i + 1;
      }

      AgeOutPhase(clock);
      ghost var aged := State();
      ScoreAllEffect(aged, mode);
      tracks := map k | k in tracks :: tracks[k].(threat := ThreatScore(tracks[k], mode));
      assert State() == ScoreAll(aged, mode);
      frameCounter := frameCounter + 1;
      result := Values(State());
    }

    /** handle_fire_control_request: one response per requested id; the table is only read. */
    method HandleFireControlRequest(requested: seq<int>) returns (responses: seq<Response>)
      requires Valid()
      ensures |responses| == |requested|
      ensures forall i :: 0 <= i < |requested| ==> responses[i] == Respond(State(), requested[i])
    {
      responses := [];
      var i := 0;
      while i < |requested|
        invariant 0 <= i <= |requested|
        invariant |responses| == i
        invariant forall j :: 0 <= j < i ==> responses[j] == Respond(State(), requested[j])
      {
        var rid := requested[i];
        var r: Response;
        if rid in tracks {
          r := Response(rid, StatusOk, Some(PickOf(tracks[rid])));
        } else if |order| == 0 {
          r := Response(rid, NoTarget, None);
        } else {
          var best := Nearest();
          r := Response(rid, Fallback, Some(PickOf(tracks[order[best]])));
        }
        responses := responses + [r];
        i := i + 1;
      }
    }

    /** min over the values by distance: a strict < keeps the first of equals. */
    method Nearest() returns (best: nat)
      requires Valid() && order != []
      ensures best == NearestIndex(State())
    {
      ghost var tb := State();
      var ord, trk := order, tracks;
      best := 0;
      var j := 1;
      while j < |ord|
        invariant 1 <= j <= |ord| && best < j
        invariant forall l :: 0 <= l < j ==> trk[ord[best]].distance <= trk[ord[l]].distance
        invariant forall l :: 0 <= l < best ==> trk[ord[l]].distance > trk[ord[best]].distance
      {
        if trk[ord[j]].distance < trk[ord[best]].distance {
          best := j;
        }
        j := j + 1;
      }
      // Both best and NearestIndex are the first index of least distance.
      ghost var i := NearestIndex(tb);
      assert !(i < best) && !(best < i);
    }
  }

  // ---------------------------------------------------------------------
  // Table invariants kept by every step

  lemma ImageStepValid(tb: Table, it: ImageTarget, index: map<int, RadarTarget>, ts: real)
    requires ValidTable(tb)
    ensures ValidTable(ImageStep(tb, it, index, ts))
  {
  }

  lemma RadarStepValid(tb: Table, rt: RadarTarget, ts: real, bearing: (real, real) -> real)
    requires ValidTable(tb)
    ensures ValidTable(RadarStep(tb, rt, ts, bearing))
  {
  }

  lemma EmptyTable(tb: Table)
    requires ValidTable(tb) && tb.order == []
    ensures tb.tracks == map[]
  {
    assert forall k :: k in tb.tracks ==> k in tb.order;
    assert tb.tracks.Keys == {};
  }

  lemma DropStale(tracks: map<int, Track>, stale: seq<int>, clock: int -> real)
    requires forall k :: k in tracks ==> (k in stale <==> !Fresh(tracks[k], clock(k)))
    ensures (map k | k in tracks && k !in stale :: tracks[k])
      == (map k | k in tracks && Fresh(tracks[k], clock(k)) :: tracks[k])
  {
    var a := map k | k in tracks && k !in stale :: tracks[k];
    var b := map k | k in tracks && Fresh(tracks[k], clock(k)) :: tracks[k];
    forall k ensures k in a <==> k in b {
      if k in tracks {
        assert k in stale <==> !Fresh(tracks[k], clock(k));
      }
    }
    assert a.Keys == b.Keys;
    assert forall k :: k in a ==> a[k] == b[k];
  }

  lemma {:induction false} FreshKeysDistinct(order: seq<int>, tracks: map<int, Track>, clock: int -> real)
    requires Distinct(order)
    ensures Distinct(FreshKeys(order, tracks, clock))
  {
    if order != [] {
      var init := order[..|order| - 1];
      var k := order[|order| - 1];
      FreshKeysDistinct(init, tracks, clock);
      var r0 := FreshKeys(init, tracks, clock);
      var r := FreshKeys(order, tracks, clock);
      assert k !in r0;
      if k in tracks && !Fresh(tracks[k], clock(k)) {
        assert r == r0;
      } else {
        assert r == r0 + [k];
        forall i, j | 0 <= i < j < |r| ensures r[i] != r[j] {
          if j == |r0| {
            assert r[i] == r0[i] && r[j] == k && r0[i] in r0;
            assert r0[i] != k;
          } else {
            assert r[i] == r0[i] && r[j] == r0[j];
            assert r0[i] != r0[j];
          }
        }
      }
    }
  }

  lemma AgeOutValid(tb: Table, clock: int -> real)
    requires ValidTable(tb)
    ensures ValidTable(AgeOut(tb, clock))
  {
    FreshKeysDistinct(tb.order, tb.tracks, clock);
  }

  // ---------------------------------------------------------------------
  // What one call of fuse_and_track does to the table

  /** An image update keeps the RCS; a new image track takes the RCS of the radar target with its id, if any. */
  lemma ImageStepEffect(tb: Table, it: ImageTarget, index: map<int, RadarTarget>, ts: real)
    ensures var r := ImageStep(tb, it, index, ts);
      && it.id in r.tracks && r.tracks[it.id].lastUpdate == ts && r.tracks[it.id].source == Image
      && (it.id in tb.tracks ==> r.tracks[it.id].rcs == tb.tracks[it.id].rcs && r.order == tb.order)
      && (it.id !in tb.tracks ==>
            r.tracks[it.id].rcs == (if it.id in index then Some(index[it.id].rcs) else None)
            && r.order == tb.order + [it.id])
      && (forall k :: k in tb.tracks && k != it.id ==> k in r.tracks && r.tracks[k] == tb.tracks[k])
  {
  }

  /** A radar update overwrites the RCS and marks the track as a radar track. */
  lemma RadarStepEffect(tb: Table, rt: RadarTarget, ts: real, bearing: (real, real) -> real)
    ensures var r := RadarStep(tb, rt, ts, bearing);
      && rt.id in r.tracks && r.tracks[rt.id].lastUpdate == ts && r.tracks[rt.id].source == Radar
      && r.tracks[rt.id].rcs == Some(rt.rcs)
      && (forall k :: k in tb.tracks && k != rt.id ==> k in r.tracks && r.tracks[k] == tb.tracks[k])
  {
  }

  /** After the image loop every image id has a track stamped with the call's time, and no track is lost. */
  lemma {:induction false} ImagePassCovers(tb: Table, its: seq<ImageTarget>, index: map<int, RadarTarget>, ts: real)
    ensures var r := ImagePass(tb, its, index, ts);
      && (forall j :: 0 <= j < |its| ==> its[j].id in r.tracks && r.tracks[its[j].id].lastUpdate == ts)
      && (forall k :: k in tb.tracks ==> k in r.tracks)
  {
    if its != [] {
      var init := its[..|its| - 1];
      ImagePassCovers(tb, init, index, ts);
      var mid := ImagePass(tb, init, index, ts);
      ImageStepEffect(mid, its[|its| - 1], index, ts);
      var r := ImagePass(tb, its, index, ts);
      forall j | 0 <= j < |its| ensures its[j].id in r.tracks && r.tracks[its[j].id].lastUpdate == ts {
        if j < |its| - 1 {
          assert its[j] == init[j];
        }
      }
    }
  }

  /**
   * After the radar loop every radar id has a radar track stamped with the
   * call's time, carrying the RCS of the last radar target with that id;
   * tracks stamped with the call's time before the loop still are.
   */
  lemma {:induction false} RadarPassCovers(tb: Table, rs: seq<RadarTarget>, ts: real, bearing: (real, real) -> real)
    ensures var r := RadarPass(tb, rs, ts, bearing);
      && (forall k :: HasId(rs, k) ==>
            k in r.tracks && r.tracks[k].lastUpdate == ts && r.tracks[k].source == Radar
            && r.tracks[k].rcs == Some(RadarIndex(rs)[k].rcs))
      && (forall k :: k in tb.tracks && !HasId(rs, k) ==> k in r.tracks && r.tracks[k] == tb.tracks[k])
      && (forall k :: k in tb.tracks ==> k in r.tracks)
  {
    if rs != [] {
      var init := rs[..|rs| - 1];
      var last := rs[|rs| - 1];
      RadarPassCovers(tb, init, ts, bearing);
      var mid := RadarPass(tb, init, ts, bearing);
      RadarStepEffect(mid, last, ts, bearing);
      forall k ensures HasId(rs, k) <==> HasId(init, k) || last.id == k {
        HasIdSnoc(rs, k);
      }
    }
  }

  /** Age-out keeps exactly the tracks refreshed within 5 s of their own clock reading, in their order. */
  lemma AgeOutKeepsFresh(tb: Table, clock: int -> real)
    requires ValidTable(tb)
    ensures var r := AgeOut(tb, clock);
      && ValidTable(r)
      && (forall k :: k in r.tracks <==> k in tb.tracks && clock(k) - tb.tracks[k].lastUpdate <= Ttl)
      && (forall k :: k in r.tracks ==> r.tracks[k] == tb.tracks[k])
  {
    AgeOutValid(tb, clock);
  }

  /**
   * When every reading of the age-out lies in [lo, hi], a track fresh at
   * the latest reading hi is kept, and a kept track is fresh at the
   * earliest reading lo; a track whose age passes 5 s between lo and hi
   * may go either way, depending on when its own reading is taken.
   */
  lemma AgeOutBetweenReadings(tb: Table, clock: int -> real, lo: real, hi: real)
    requires ValidTable(tb)
    requires forall k :: k in tb.tracks ==> lo <= clock(k) <= hi
    ensures var r := AgeOut(tb, clock);
      && (forall k :: k in tb.tracks && Fresh(tb.tracks[k], hi) ==> k in r.tracks)
      && (forall k :: k in r.tracks ==> Fresh(tb.tracks[k], lo))
      && (forall k :: k in tb.tracks && !Fresh(tb.tracks[k], lo) ==> k !in r.tracks && k !in r.order)
  {
    AgeOutKeepsFresh(tb, clock);
  }

  /** Scoring touches only the threat score, and every score is in [0, 1.5]. */
  lemma ScoreAllEffect(tb: Table, mode: string)
    requires ValidTable(tb)
    ensures var r := ScoreAll(tb, mode);
      && ValidTable(r) && r.order == tb.order
      && (forall k :: k in r.tracks <==> k in tb.tracks)
      && (forall k :: k in r.tracks ==>
            && 0.0 <= r.tracks[k].threat <= 1.5
            && r.tracks[k] == tb.tracks[k].(threat := r.tracks[k].threat))
  {
  }

  /**
   * The whole call: the table stays valid; when the age-out reading is
   * within 5 s of the call's timestamp, every image and radar id is tracked
   * with that timestamp; radar ids carry radar tracks; image ids with no
   * radar target carry image tracks; every threat score is in [0, 1.5];
   * and every surviving track is fresh.
   */
  lemma FuseEffect(tb: Table, its: seq<ImageTarget>, rs: seq<RadarTarget>, ts: real, clock: int -> real,
                   bearing: (real, real) -> real, mode: string)
    requires ValidTable(tb)
    ensures var r := Fuse(tb, its, rs, ts, clock, bearing, mode);
      && ValidTable(r)
      && (forall j :: 0 <= j < |its| && clock(its[j].id) - ts <= Ttl ==>
            its[j].id in r.tracks && r.tracks[its[j].id].lastUpdate == ts)
      && (forall j :: 0 <= j < |rs| && clock(rs[j].id) - ts <= Ttl ==>
            rs[j].id in r.tracks && r.tracks[rs[j].id].lastUpdate == ts)
      && (forall k :: k in r.tracks && HasId(rs, k) ==> r.tracks[k].source == Radar)
      && (forall j :: 0 <= j < |its| && its[j].id in r.tracks && !HasId(rs, its[j].id) ==>
            r.tracks[its[j].id].source == Image)
      && (forall k :: k in r.tracks ==> 0.0 <= r.tracks[k].threat <= 1.5 && clock(k) - r.tracks[k].lastUpdate <= Ttl)
  {
    var index := RadarIndex(rs);
    var a := ImagePass(tb, its, index, ts);
    ImagePassCovers(tb, its, index, ts);
    ImagePassValid(tb, its, index, ts);
    var b := RadarPass(a, rs, ts, bearing);
    RadarPassCovers(a, rs, ts, bearing);
    RadarPassValid(a, rs, ts, bearing);
    var c := AgeOut(b, clock);
    AgeOutKeepsFresh(b, clock);
    ScoreAllEffect(c, mode);
    forall j | 0 <= j < |rs| ensures HasId(rs, rs[j].id) {
    }
    forall j | 0 <= j < |its| && its[j].id in c.tracks && !HasId(rs, its[j].id)
      ensures c.tracks[its[j].id].source == Image
    {
      ImagePassSource(tb, its, index, ts, j);
    }
  }

  lemma {:induction false} ImagePassValid(tb: Table, its: seq<ImageTarget>, index: map<int, RadarTarget>, ts: real)
    requires ValidTable(tb)
    ensures ValidTable(ImagePass(tb, its, index, ts))
  {
    if its != [] {
      ImagePassValid(tb, its[..|its| - 1], index, ts);
      ImageStepValid(ImagePass(tb, its[..|its| - 1], index, ts), its[|its| - 1], index, ts);
    }
  }

  lemma {:induction false} RadarPassValid(tb: Table, rs: seq<RadarTarget>, ts: real, bearing: (real, real) -> real)
    requires ValidTable(tb)
    ensures ValidTable(RadarPass(tb, rs, ts, bearing))
  {
    if rs != [] {
      RadarPassValid(tb, rs[..|rs| - 1], ts, bearing);
      RadarStepValid(RadarPass(tb, rs[..|rs| - 1], ts, bearing), rs[|rs| - 1], ts, bearing);
    }
  }

  /** The image loop leaves every image id with an image track. */
  lemma {:induction false} ImagePassSource(tb: Table, its: seq<ImageTarget>, index: map<int, RadarTarget>, ts: real, j: nat)
    requires j < |its|
    ensures var r := ImagePass(tb, its, index, ts);
      its[j].id in r.tracks && r.tracks[its[j].id].source == Image
  {
    var init := its[..|its| - 1];
    var mid := ImagePass(tb, init, index, ts);
    ImageStepEffect(mid, its[|its| - 1], index, ts);
    if j < |its| - 1 {
      ImagePassSource(tb, init, index, ts, j);
      assert init[j] == its[j];
    }
  }

  /**
   * The image-to-radar merge never happens: one radar target at 10000 m,
   * 50 degrees and one image target with another id at 10050 m, 50.2
   * degrees give two tracks, an image track and a radar track, and no
   * fused one.
   */
  lemma FusionScenario(ts: real, bearing: (real, real) -> real)
    ensures var it := ImageTarget(8, 1, 10050.0, 50.2, 0.0, 10050.0, 50.2, 0.0, 0.0);
      var rt := RadarTarget(7, 10000.0, 50.0, 0.0, 0.0);
      var r := Fuse(Table([], map[]), [it], [rt], ts, k => ts, bearing, "Search");
      && r.order == [8, 7] && r.tracks.Keys == {7, 8}
      && r.tracks[8].source == Image && r.tracks[7].source == Radar
  {
    var it := ImageTarget(8, 1, 10050.0, 50.2, 0.0, 10050.0, 50.2, 0.0, 0.0);
    var rt := RadarTarget(7, 10000.0, 50.0, 0.0, 0.0);
    var index := RadarIndex([rt]);
    assert [it][..0] == [] && [rt][..0] == [];
    var empty := Table([], map[]);
    var a := ImagePass(empty, [it], index, ts);
    assert a == ImageStep(ImagePass(empty, [], index, ts), it, index, ts);
    assert a == ImageStep(empty, it, index, ts);
    assert a.order == [8] && a.tracks.Keys == {8};
    var b := RadarPass(a, [rt], ts, bearing);
    assert b == RadarStep(RadarPass(a, [], ts, bearing), rt, ts, bearing);
    assert b == RadarStep(a, rt, ts, bearing);
    assert b.order == [8, 7];
    assert b.tracks.Keys == {7, 8};
    var clock := k => ts;
    var c := AgeOut(b, clock);
    assert [8, 7][..1] == [8] && [8][..0] == [];
    assert FreshKeys([], b.tracks, clock) == [];
    assert FreshKeys([8], b.tracks, clock) == [8];
    assert c.order == [8, 7];
    assert c.tracks.Keys == {7, 8};
  }
}
