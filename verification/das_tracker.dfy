/**
 * The multi-target tracker of the distributed aperture simulator
 * (dist_aperture_sim/sim/tracker.py): constant-velocity prediction and
 * nearest-neighbour gate association. The track dictionary is kept as the
 * sequence of its values in insertion order; keys are "TRK_<n>" for the
 * track number n, and every insertion uses a born number.
 */
module DasTracker {
  import opened Common
  import opened GateTracking

  /** Confidence of a track created from an unused observation. */
  const NewConfidence: real := 0.6
  const DefaultGate: real := 200.0

  datatype Track = Track(id: nat, pos: Point, vx: real, vy: real, confidence: real)

  /** The dictionary invariant: numbers strictly increase in insertion order and stay below the counter. */
  predicate ValidTable(ts: seq<Track>, nextId: nat)
  {
    && nextId >= 1
    && (forall i, j :: 0 <= i < j < |ts| ==> ts[i].id < ts[j].id)
    && (forall i :: 0 <= i < |ts| ==> 1 <= ts[i].id < nextId)
    && (forall i :: 0 <= i < |ts| ==> 0.0 <= ts[i].confidence <= 1.0)
  }

  function Positions(ts: seq<Track>): (ps: seq<Point>)
    ensures |ps| == |ts| && forall i :: 0 <= i < |ts| ==> ps[i] == ts[i].pos
  {
    seq(|ts|, i requires 0 <= i < |ts| => ts[i].pos)
  }

  /** One constant-velocity step. */
  function Advance(t: Track, dt: real): Track
  {
    t.(pos := Point(t.pos.x + t.vx * dt, t.pos.y + t.vy * dt))
  }

  function Predicted(ts: seq<Track>, dt: real): (r: seq<Track>)
    ensures |r| == |ts|
  {
    seq(|ts|, i requires 0 <= i < |ts| => Advance(ts[i], dt))
  }

  /** An existing track after association: pulled toward its observation, or only less confident. */
  function Settle(t: Track, obs: seq<Point>, pick: Option<nat>): Track
    requires pick.Some? ==> pick.value < |obs|
  {
    if pick.Some? then t.(pos := Blend(t.pos, obs[pick.value]), confidence := Raise(t.confidence))
    else t.(confidence := Lower(t.confidence))
  }

  /** The tracks created from the unused observations below n, numbered from `next`. */
  function Spawned(obs: seq<Point>, used: set<nat>, next: nat, n: nat): (r: seq<Track>)
    requires n <= |obs|
    ensures |r| == |Unused(n, used)|
  {
    var u := Unused(n, used);
    seq(|u|, i requires 0 <= i < |u| => Track(next + i, obs[u[i]], 0.0, 0.0, NewConfidence))
  }

  datatype Table = Table(tracks: seq<Track>, nextId: nat)

  /** The table after update(observations). */
  function Updated(ts: seq<Track>, nextId: nat, obs: seq<Point>, gate: real): Table
  {
    var born := Spawned(obs, Used(Assign(Positions(ts), obs, gate)), nextId, |obs|);
    Table(Settled(ts, obs, gate) + born, nextId + |born|)
  }

  /** The tracks after association, in table order. */
  function Settled(ts: seq<Track>, obs: seq<Point>, gate: real): (r: seq<Track>)
    ensures |r| == |ts|
  {
    if ts == [] then []
    else
      var init := ts[..|ts| - 1];
      var last := ts[|ts| - 1];
      Settled(init, obs, gate) + [Settle(last, obs, Pick(last.pos, obs, Used(Assign(Positions(init), obs, gate)), gate))]
  }

  lemma SettledSnoc(ts: seq<Track>, obs: seq<Point>, gate: real, i: nat)
    requires i < |ts|
    ensures Settled(ts[..i + 1], obs, gate)
      == Settled(ts[..i], obs, gate) + [Settle(ts[i], obs, Pick(ts[i].pos, obs, Used(Assign(Positions(ts[..i]), obs, gate)), gate))]
  {
    assert ts[..i + 1][..i] == ts[..i];
  }

  lemma PositionsTake(ts: seq<Track>, i: nat)
    requires i <= |ts|
    ensures Positions(ts)[..i] == Positions(ts[..i])
  {
  }

  lemma PositionsSnoc(ts: seq<Track>, i: nat)
    requires i < |ts|
    ensures Positions(ts[..i + 1]) == Positions(ts[..i]) + [ts[i].pos]
  {
  }

  lemma {:induction false} SettledPick(ts: seq<Track>, obs: seq<Point>, gate: real, i: nat)
    requires i < |ts|
    ensures Settled(ts, obs, gate)[i] == Settle(ts[i], obs, Pick(ts[i].pos, obs, Used(Assign(Positions(ts[..i]), obs, gate)), gate))
  {
    var init := ts[..|ts| - 1];
    if i < |init| {
      SettledPick(init, obs, gate, i);
      assert init[..i] == ts[..i];
    } else {
      assert init == ts[..i];
    }
  }

  /** Track i after association is track i settled with its pick. */
  lemma SettledAt(ts: seq<Track>, obs: seq<Point>, gate: real, i: nat)
    requires i < |ts|
    ensures Assign(Positions(ts), obs, gate)[i] == Pick(ts[i].pos, obs, Used(Assign(Positions(ts[..i]), obs, gate)), gate)
    ensures Settled(ts, obs, gate)[i] == Settle(ts[i], obs, Assign(Positions(ts), obs, gate)[i])
  {
    SettledPick(ts, obs, gate, i);
    AssignPrefix(Positions(ts), obs, gate, i);
    PositionsTake(ts, i);
  }

  /** Association keeps every track's number and velocity, and confidences within [0, 1]. */
  lemma SettledKeeps(ts: seq<Track>, obs: seq<Point>, gate: real)
    ensures var r := Settled(ts, obs, gate);
      forall i :: 0 <= i < |ts| ==>
        && r[i].id == ts[i].id && r[i].vx == ts[i].vx && r[i].vy == ts[i].vy
        && (0.0 <= ts[i].confidence <= 1.0 ==> 0.0 <= r[i].confidence <= 1.0)
  {
    forall i | 0 <= i < |ts| {
      SettledPick(ts, obs, gate, i);
    }
  }

  /** The association loop of update. */
  method Associate(ts: seq<Track>, obs: seq<Point>, gate: real) returns (kept: seq<Track>, used: set<nat>)
    ensures kept == Settled(ts, obs, gate)
    ensures used == Used(Assign(Positions(ts), obs, gate))
  {
    used := {};
    kept := [];
    var i := 0;
    while i < |ts|
      invariant 0 <= i <= |ts|
      invariant used == Used(Assign(Positions(ts[..i]), obs, gate))
      invariant kept == Settled(ts[..i], obs, gate)
    {
      ghost var a := Assign(Positions(ts[..i]), obs, gate);
      var pick, t := AssociateOne(ts[i], obs, used, gate);
      SettledSnoc(ts, obs, gate, i);
      PositionsSnoc(ts, i);
      AssignSnoc(Positions(ts[..i + 1]), obs, gate, i);
      PositionsTake(ts[..i + 1], i);
      assert ts[..i + 1][..i] == ts[..i];
      UsedSnoc(a, pick);
      if pick.Some? {
        used := used + {pick.value};
      }
      kept := kept + [t];
      i := i + 1;
    }
    assert ts[..i] == ts;
  }

  /** One pass of the association loop: search, gate test, then pull or decay. */
  method AssociateOne(t: Track, obs: seq<Point>, used: set<nat>, gate: real) returns (pick: Option<nat>, r: Track)
    ensures pick == Pick(t.pos, obs, used, gate)
    ensures r == Settle(t, obs, pick)
  {
    pick := GatedNearest(obs, used, t.pos, gate);
    if pick.Some? {
      r := t.(pos := Blend(t.pos, obs[pick.value]), confidence := Raise(t.confidence));
    } else {
      r := t.(confidence := Lower(t.confidence));
    }
  }

  /** The creation loop of update: one track per unused observation, numbered from `next`. */
  method SpawnTracks(obs: seq<Point>, used: set<nat>, next: nat) returns (born: seq<Track>)
    ensures born == Spawned(obs, used, next, |obs|)
  {
    born := [];
    var n := next;
    for idx := 0 to |obs|
      invariant born == Spawned(obs, used, next, idx)
      invariant n == next + |born|
    {
      if idx !in used {
        born := born + [Track(n, obs[idx], 0.0, 0.0, NewConfidence)];
        n := n + 1;
      }
    }
  }

  class Tracker {
    var tracks: seq<Track>
    var nextId: nat
    const gate: real

    ghost predicate Valid()
      reads this
    {
      ValidTable(tracks, nextId)
    }

    constructor (gate: real)
      ensures Valid() && tracks == [] && nextId == 1 && this.gate == gate
    {
      tracks := [];
      nextId := 1;
      this.gate := gate;
    }

    /** predict(dt_s): every track moves by its velocity times dt. */
    method Predict(dt: real)
      requires Valid()
      modifies this
      ensures Valid()
      ensures tracks == Predicted(old(tracks), dt) && nextId == old(nextId)
    {
      var moved: seq<Track> := [];
      for i := 0 to |tracks|
        invariant |moved| == i
        invariant forall j :: 0 <= j < i ==> moved[j] == Advance(tracks[j], dt)
      {
        moved := moved + [Advance(tracks[i], dt)];
      }
      tracks := moved;
    }

    /** update(observations): associate the existing tracks, then create tracks from the rest. */
    method Update(obs: seq<Point>)
      requires Valid()
      modifies this
      ensures Valid()
      ensures Table(tracks, nextId) == Updated(old(tracks), old(nextId), obs, gate)
    {
      var kept, used := Associate(tracks, obs, gate);
      var born := SpawnTracks(obs, used, nextId);
      UpdatedValid(tracks, nextId, obs, gate);
      tracks := kept + born;
      nextId := nextId + |born|;
    }

    /** get_tracks(): the tracks in insertion order. */
    function GetTracks(): seq<Track>
      reads this
    {
      tracks
    }
  }

  // ---------------------------------------------------------------------
  // Properties of the update

  /** The update keeps the table invariant, so confidences stay within [0, 1]. */
  lemma UpdatedValid(ts: seq<Track>, nextId: nat, obs: seq<Point>, gate: real)
    requires ValidTable(ts, nextId)
    ensures ValidTable(Updated(ts, nextId, obs, gate).tracks, Updated(ts, nextId, obs, gate).nextId)
  {
    SettledKeeps(ts, obs, gate);
  }

  /**
   * No track is removed: the old tracks keep their place and number, and
   * one track is added per observation that no track took.
   */
  lemma UpdatedCount(ts: seq<Track>, nextId: nat, obs: seq<Point>, gate: real)
    ensures var r := Updated(ts, nextId, obs, gate);
      var a := Assign(Positions(ts), obs, gate);
      && |r.tracks| == |ts| + |obs| - Hits(a)
      && r.nextId == nextId + |obs| - Hits(a)
      && forall i :: 0 <= i < |ts| ==> r.tracks[i].id == ts[i].id
  {
    var a := Assign(Positions(ts), obs, gate);
    AssignSound(Positions(ts), obs, gate);
    SettledKeeps(ts, obs, gate);
    UnusedCount(|obs|, Used(a));
    AllUsedBelow(|obs|, Used(a));
  }

  /**
   * An old track that took observation k moved 60% of the way to it (so
   * its squared distance shrank to 16%) and gained 0.05 confidence up to 1;
   * one that took none kept its position and lost 0.1 confidence down to 0.
   */
  lemma UpdatedOldTracks(ts: seq<Track>, nextId: nat, obs: seq<Point>, gate: real, i: nat)
    requires i < |ts|
    ensures var r := Updated(ts, nextId, obs, gate).tracks[i];
      var a := Assign(Positions(ts), obs, gate);
      && (a[i].Some? ==> && a[i].value < |obs| && InGate(ts[i].pos, obs[a[i].value], gate)
                         && SqDist(r.pos, obs[a[i].value]) == 0.16 * SqDist(ts[i].pos, obs[a[i].value])
                         && r.confidence == MinReal(1.0, ts[i].confidence + 0.05))
      && (a[i].None? ==> r.pos == ts[i].pos && r.confidence == MaxReal(0.0, ts[i].confidence - 0.1))
      && r.vx == ts[i].vx && r.vy == ts[i].vy
  {
    var a := Assign(Positions(ts), obs, gate);
    SettledAt(ts, obs, gate, i);
    assert Updated(ts, nextId, obs, gate).tracks[i] == Settled(ts, obs, gate)[i];
    if a[i].Some? {
      BlendShrinks(ts[i].pos, obs[a[i].value]);
    }
  }

  /** The m-th unused observation becomes the track right after the old ones plus m, numbered nextId + m. */
  lemma SpawnedAt(ts: seq<Track>, nextId: nat, obs: seq<Point>, gate: real, m: nat)
    requires m < |Unused(|obs|, Used(Assign(Positions(ts), obs, gate)))|
    ensures var u := Unused(|obs|, Used(Assign(Positions(ts), obs, gate)));
      Updated(ts, nextId, obs, gate).tracks[|ts| + m] == Track(nextId + m, obs[u[m]], 0.0, 0.0, NewConfidence)
  {
  }

  /** An observation is taken by at most one old track, and it is taken exactly when it is in Used. */
  lemma ObservationsTakenOnce(ts: seq<Track>, obs: seq<Point>, gate: real, k: nat)
    ensures var a := Assign(Positions(ts), obs, gate);
      && (forall i, j :: 0 <= i < j < |ts| && a[i] == Some(k) ==> a[j] != Some(k))
      && ((exists i :: 0 <= i < |ts| && a[i] == Some(k)) <==> k in Used(a))
  {
    AssignSound(Positions(ts), obs, gate);
  }

  /**
   * An observation that no old track took becomes exactly one new track,
   * at its position, with zero velocity, confidence 0.6 and the next
   * number in line; a taken one becomes none.
   */
  lemma ObservationsSpawned(ts: seq<Track>, nextId: nat, obs: seq<Point>, gate: real, k: nat)
    requires k < |obs|
    ensures var a := Assign(Positions(ts), obs, gate);
      var u := Unused(|obs|, Used(a));
      var r := Updated(ts, nextId, obs, gate).tracks;
      && (k !in Used(a) <==> exists m :: 0 <= m < |u| && u[m] == k)
      && (forall m :: 0 <= m < |u| ==> r[|ts| + m] == Track(nextId + m, obs[u[m]], 0.0, 0.0, NewConfidence))
      && (forall m, m' :: 0 <= m < m' < |u| ==> u[m] != u[m'])
      && |r| == |ts| + |u|
  {
    var a := Assign(Positions(ts), obs, gate);
    UnusedSound(|obs|, Used(a));
    forall m | 0 <= m < |Unused(|obs|, Used(a))|
      ensures Updated(ts, nextId, obs, gate).tracks[|ts| + m] == Track(nextId + m, obs[Unused(|obs|, Used(a))[m]], 0.0, 0.0, NewConfidence)
    {
      SpawnedAt(ts, nextId, obs, gate, m);
    }
  }

  /** Tracks created by update have zero velocity, so predict leaves them where they are. */
  lemma PredictKeepsStillTracks(ts: seq<Track>, dt: real, i: nat)
    requires i < |ts| && ts[i].vx == 0.0 && ts[i].vy == 0.0
    ensures Predicted(ts, dt)[i] == ts[i]
  {
  }

  const TestTrack1 := Track(1, Point(0.0, 0.0), 0.0, 0.0, NewConfidence)
  const TestTrack2 := Track(2, Point(100.0, 0.0), 0.0, 0.0, NewConfidence)

  /** Two observations and no tracks: both observations become tracks, numbered 1 and 2. */
  lemma TestCreation()
    ensures Updated([], 1, [Point(0.0, 0.0), Point(100.0, 0.0)], 100.0) == Table([TestTrack1, TestTrack2], 3)
  {
    assert Assign(Positions([]), [Point(0.0, 0.0), Point(100.0, 0.0)], 100.0) == [];
    assert Unused(0, {}) == [];
    assert Unused(1, {}) == [0];
    assert Unused(2, {}) == [0, 1];
  }

  /** The track at the origin takes the observation at (10, 0), 10 m away. */
  lemma TestFirstPick()
    ensures Assign([Point(0.0, 0.0)], [Point(10.0, 0.0)], 100.0) == [Some(0)]
  {
    var obs := [Point(10.0, 0.0)];
    assert Nearest(obs, {}, Point(0.0, 0.0)) == Some(0);
    assert [Point(0.0, 0.0)][..0] == [];
  }

  /** The observation at (10, 0) goes to the track at the origin; the track at (100, 0) finds none left. */
  lemma TestAssociation()
    ensures Assign(Positions([TestTrack1, TestTrack2]), [Point(10.0, 0.0)], 100.0) == [Some(0), None]
    ensures Used([Some(0), None]) == {0}
  {
    var obs := [Point(10.0, 0.0)];
    var ps := [Point(0.0, 0.0), Point(100.0, 0.0)];
    assert Positions([TestTrack1, TestTrack2]) == ps;
    TestFirstPick();
    UsedSnoc([], Some(0));
    assert [] + [Some(0)] == [Some(0)];
    assert Nearest(obs, {0}, Point(100.0, 0.0)) == None;
    assert ps[..1] == [Point(0.0, 0.0)];
    UsedSnoc([Some(0)], None);
    assert [Some(0)] + [None] == [Some(0), None];
  }

  /** Tracks with zero velocity stay in place. */
  lemma TestPrediction()
    ensures Predicted([TestTrack1, TestTrack2], 1.0) == [TestTrack1, TestTrack2]
  {
    PredictKeepsStillTracks([TestTrack1, TestTrack2], 1.0, 0);
    PredictKeepsStillTracks([TestTrack1, TestTrack2], 1.0, 1);
  }

  lemma TestSettled()
    ensures Settled([TestTrack1, TestTrack2], [Point(10.0, 0.0)], 100.0)[0] == Settle(TestTrack1, [Point(10.0, 0.0)], Some(0))
  {
    TestAssociation();
    SettledAt([TestTrack1, TestTrack2], [Point(10.0, 0.0)], 100.0, 0);
  }

  lemma TestNothingSpawned()
    ensures Spawned([Point(10.0, 0.0)], {0}, 3, 1) == []
  {
    assert Unused(1, {0}) == [];
  }

  /** The second update pulls TRK_1 to (6, 0) and creates no track. */
  lemma TestSecondUpdate()
    ensures var r := Updated([TestTrack1, TestTrack2], 3, [Point(10.0, 0.0)], 100.0).tracks;
      |r| == 2 && r[0].pos == Point(6.0, 0.0)
  {
    var obs := [Point(10.0, 0.0)];
    var p := [TestTrack1, TestTrack2];
    TestAssociation();
    TestNothingSpawned();
    var st := Settled(p, obs, 100.0);
    calc {
      Updated(p, 3, obs, 100.0).tracks;
      st + Spawned(obs, Used(Assign(Positions(p), obs, 100.0)), 3, |obs|);
      st + Spawned(obs, {0}, 3, 1);
      st;
    }
    TestSettled();
  }

  /**
   * The unit-test scenario: gate 100, two observations create TRK_1 and
   * TRK_2, prediction leaves them in place, and an observation at (10, 0)
   * pulls TRK_1 to x = 6, within 6 m of it.
   */
  lemma TestScenario()
    ensures var t1 := Updated([], 1, [Point(0.0, 0.0), Point(100.0, 0.0)], 100.0);
      var t2 := Updated(Predicted(t1.tracks, 1.0), t1.nextId, [Point(10.0, 0.0)], 100.0);
      && |t1.tracks| == 2 && t1.tracks[0].id == 1 && t1.tracks[1].id == 2
      && |t2.tracks| == 2 && t2.tracks[0].pos.x == 6.0
      && -6.0 < t2.tracks[0].pos.x - 10.0 < 6.0
  {
    TestCreation();
    TestPrediction();
    TestSecondUpdate();
  }
}
