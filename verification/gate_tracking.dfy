/**
 * The nearest-neighbour gate association shared by the two position
 * trackers (dist_aperture_sim/sim/tracker.py and irst/sim/tracker.py).
 * Tracks are visited in table order; each takes the nearest observation
 * that no earlier track took (the first one on a tie), and keeps it only
 * when it lies within the gate. Distances are compared through their
 * squares, which orders points exactly as math.hypot does on reals.
 */
module GateTracking {
  import opened Common

  datatype Point = Point(x: real, y: real)

  function SqDist(a: Point, b: Point): (d: real)
    ensures d >= 0.0
  {
    (a.x - b.x) * (a.x - b.x) + (a.y - b.y) * (a.y - b.y)
  }

  /** hypot(a - b) <= gate, stated on squares. */
  predicate InGate(a: Point, b: Point, gate: real)
  {
    gate >= 0.0 && SqDist(a, b) <= gate * gate
  }

  /**
   * The nearest observation not in `used`, scanning from index i with
   * `best` the best so far; best_dist starts at infinity, so the first
   * unused observation is always taken as a candidate.
   */
  function NearestFrom(obs: seq<Point>, used: set<nat>, p: Point, i: nat, best: Option<nat>): (r: Option<nat>)
    requires i <= |obs|
    requires best.Some? ==> best.value < |obs| && best.value !in used
    ensures r.Some? ==> r.value < |obs| && r.value !in used
    decreases |obs| - i
  {
    if i == |obs| then best
    else if i in used then NearestFrom(obs, used, p, i + 1, best)
    else if best.None? || SqDist(p, obs[i]) < SqDist(p, obs[best.value]) then NearestFrom(obs, used, p, i + 1, Some(i))
    else NearestFrom(obs, used, p, i + 1, best)
  }

  /**
   * The scan finds nothing only when every observation is used; otherwise
   * it finds the first unused observation of least distance.
   */
  lemma {:induction false} NearestFromSound(obs: seq<Point>, used: set<nat>, p: Point, i: nat, best: Option<nat>)
    requires i <= |obs|
    requires best.Some? ==> best.value < i && best.value !in used
    requires best.None? ==> forall j :: 0 <= j < i ==> j in used
    requires best.Some? ==> forall j :: 0 <= j < i && j !in used ==> SqDist(p, obs[best.value]) <= SqDist(p, obs[j])
    requires best.Some? ==> forall j :: 0 <= j < best.value && j !in used ==> SqDist(p, obs[j]) > SqDist(p, obs[best.value])
    ensures var r := NearestFrom(obs, used, p, i, best);
      && (r.None? <==> forall j :: 0 <= j < |obs| ==> j in used)
      && (r.Some? ==> forall j :: 0 <= j < |obs| && j !in used ==> SqDist(p, obs[r.value]) <= SqDist(p, obs[j]))
      && (r.Some? ==> forall j :: 0 <= j < r.value && j !in used ==> SqDist(p, obs[j]) > SqDist(p, obs[r.value]))
    decreases |obs| - i
  {
    if i < |obs| {
      if i in used {
        NearestFromSound(obs, used, p, i + 1, best);
      } else if best.None? || SqDist(p, obs[i]) < SqDist(p, obs[best.value]) {
        NearestFromSound(obs, used, p, i + 1, Some(i));
      } else {
        NearestFromSound(obs, used, p, i + 1, best);
      }
    }
  }

  function Nearest(obs: seq<Point>, used: set<nat>, p: Point): Option<nat>
  {
    NearestFrom(obs, used, p, 0, None)
  }

  /** The observation a track at p takes: the nearest unused one, if it is within the gate. */
  function Pick(p: Point, obs: seq<Point>, used: set<nat>, gate: real): (r: Option<nat>)
    ensures r.Some? ==> r.value < |obs| && r.value !in used && InGate(p, obs[r.value], gate)
  {
    var n := Nearest(obs, used, p);
    if n.Some? && InGate(p, obs[n.value], gate) then n else None
  }

  /**
   * A pick is an unused observation no farther than any other unused one;
   * no pick means that no unused observation lies within the gate.
   */
  lemma PickSound(p: Point, obs: seq<Point>, used: set<nat>, gate: real)
    ensures var r := Pick(p, obs, used, gate);
      && (r.Some? ==> forall j :: 0 <= j < |obs| && j !in used ==> SqDist(p, obs[r.value]) <= SqDist(p, obs[j]))
      && (r.None? ==> forall j :: 0 <= j < |obs| && j !in used ==> !InGate(p, obs[j], gate))
  {
    NearestFromSound(obs, used, p, 0, None);
  }

  /** The observations taken by the picks in `a`. */
  function Used(a: seq<Option<nat>>): set<nat>
  {
    if a == [] then {} else Used(a[..|a| - 1]) + (if a[|a| - 1].Some? then {a[|a| - 1].value} else {})
  }

  lemma UsedSnoc(a: seq<Option<nat>>, x: Option<nat>)
    ensures Used(a + [x]) == Used(a) + (if x.Some? then {x.value} else {})
  {
    assert (a + [x])[..|a|] == a;
  }

  /** The number of tracks that took an observation. */
  function Hits(a: seq<Option<nat>>): nat
  {
    if a == [] then 0 else Hits(a[..|a| - 1]) + (if a[|a| - 1].Some? then 1 else 0)
  }

  /** The pick of every track in table order, each seeing the observations taken before it. */
  function Assign(ps: seq<Point>, obs: seq<Point>, gate: real): (a: seq<Option<nat>>)
    ensures |a| == |ps|
  {
    if ps == [] then []
    else
      var prev := Assign(ps[..|ps| - 1], obs, gate);
      prev + [Pick(ps[|ps| - 1], obs, Used(prev), gate)]
  }

  /** Extending the tracks by one appends that track's pick. */
  lemma AssignSnoc(ps: seq<Point>, obs: seq<Point>, gate: real, i: nat)
    requires i < |ps|
    ensures Assign(ps[..i + 1], obs, gate)
      == Assign(ps[..i], obs, gate) + [Pick(ps[i], obs, Used(Assign(ps[..i], obs, gate)), gate)]
  {
    assert ps[..i + 1][..i] == ps[..i];
  }

  /** The picks of the first i tracks do not depend on the tracks after them. */
  lemma {:induction false} AssignTake(ps: seq<Point>, obs: seq<Point>, gate: real, i: nat)
    requires i <= |ps|
    ensures Assign(ps, obs, gate)[..i] == Assign(ps[..i], obs, gate)
  {
    if i == |ps| {
      assert ps[..i] == ps;
    } else {
      var init := ps[..|ps| - 1];
      var prev := Assign(init, obs, gate);
      AssignTake(init, obs, gate, i);
      assert init[..i] == ps[..i];
      assert Assign(ps, obs, gate)[..i] == prev[..i];
    }
  }

  /** Track i's pick, made after the picks of the tracks before it. */
  lemma AssignPrefix(ps: seq<Point>, obs: seq<Point>, gate: real, i: nat)
    requires i < |ps|
    ensures Assign(ps, obs, gate)[..i] == Assign(ps[..i], obs, gate)
    ensures Assign(ps, obs, gate)[i] == Pick(ps[i], obs, Used(Assign(ps[..i], obs, gate)), gate)
  {
    var a := Assign(ps, obs, gate);
    AssignTake(ps, obs, gate, i);
    AssignTake(ps, obs, gate, i + 1);
    AssignSnoc(ps, obs, gate, i);
    assert a[i] == a[..i + 1][i];
  }

  lemma {:induction false} UsedMembers(a: seq<Option<nat>>)
    ensures forall k :: k in Used(a) <==> exists i :: 0 <= i < |a| && a[i] == Some(k)
  {
    if a != [] {
      var init := a[..|a| - 1];
      UsedMembers(init);
      forall k | k in Used(init) ensures exists i :: 0 <= i < |a| && a[i] == Some(k) {
        var i :| 0 <= i < |init| && init[i] == Some(k);
        assert a[i] == Some(k);
      }
    }
  }

  /** A track's pick is never an observation an earlier track took. */
  predicate FreshPicks(a: seq<Option<nat>>)
  {
    forall i :: 0 <= i < |a| && a[i].Some? ==> a[i].value !in Used(a[..i])
  }

  lemma {:induction false} FreshPicksCount(a: seq<Option<nat>>)
    requires FreshPicks(a)
    ensures |Used(a)| == Hits(a)
  {
    if a != [] {
      var init := a[..|a| - 1];
      forall i | 0 <= i < |init| && init[i].Some? ensures init[i].value !in Used(init[..i]) {
        assert init[..i] == a[..i];
      }
      FreshPicksCount(init);
      assert a[..|a| - 1] == init;
    }
  }

  /**
   * Every pick is an observation within the gate of its track, no
   * observation is taken twice, and the taken observations number exactly
   * the tracks that took one.
   */
  lemma AssignSound(ps: seq<Point>, obs: seq<Point>, gate: real)
    ensures var a := Assign(ps, obs, gate);
      && (forall i :: 0 <= i < |a| && a[i].Some? ==> a[i].value < |obs| && InGate(ps[i], obs[a[i].value], gate))
      && (forall i, j :: 0 <= i < j < |a| && a[i].Some? && a[j].Some? ==> a[i].value != a[j].value)
      && (forall k :: k in Used(a) <==> exists i :: 0 <= i < |a| && a[i] == Some(k))
      && |Used(a)| == Hits(a)
      && (forall k :: k in Used(a) ==> k < |obs|)
  {
    var a := Assign(ps, obs, gate);
    forall i | 0 <= i < |a| ensures a[..i] == Assign(ps[..i], obs, gate)
      ensures a[i] == Pick(ps[i], obs, Used(a[..i]), gate)
    {
      AssignPrefix(ps, obs, gate, i);
    }
    assert FreshPicks(a);
    FreshPicksCount(a);
    UsedMembers(a);
    forall i, j | 0 <= i < j < |a| && a[i].Some? && a[j].Some? ensures a[i].value != a[j].value {
      UsedMembers(a[..j]);
      assert a[..j][i] == a[i];
    }
  }

  /** The indices below n that are not in `used`, in increasing order. */
  function Unused(n: nat, used: set<nat>): (r: seq<nat>)
    ensures forall i :: 0 <= i < |r| ==> r[i] < n
  {
    if n == 0 then [] else Unused(n - 1, used) + (if n - 1 in used then [] else [n - 1])
  }

  /** Unused lists exactly the indices below n outside `used`, each once and in increasing order. */
  lemma {:induction false} UnusedSound(n: nat, used: set<nat>)
    ensures var r := Unused(n, used);
      && (forall k: nat :: k in r <==> k < n && k !in used)
      && (forall i, j :: 0 <= i < j < |r| ==> r[i] < r[j])
  {
    if n > 0 {
      UnusedSound(n - 1, used);
    }
  }

  /** The used indices below n. */
  function UsedBelow(n: nat, used: set<nat>): (r: set<nat>)
    ensures forall k: nat :: k in r <==> k < n && k in used
  {
    if n == 0 then {} else UsedBelow(n - 1, used) + (if n - 1 in used then {n - 1} else {})
  }

  /** The unused and the used indices below n together number n. */
  lemma {:induction false} UnusedCount(n: nat, used: set<nat>)
    ensures |Unused(n, used)| + |UsedBelow(n, used)| == n
  {
    if n > 0 {
      var m := n - 1;
      UnusedCount(m, used);
      var below := UsedBelow(m, used);
      if m in used {
        assert m !in below;
        assert UsedBelow(n, used) == below + {m};
      } else {
        assert UsedBelow(n, used) == below;
      }
    }
  }

  lemma AllUsedBelow(n: nat, used: set<nat>)
    requires forall k :: k in used ==> k < n
    ensures UsedBelow(n, used) == used
  {
  }

  /** The dictionary key f"TRK_{n}" of track number n. */
  function TrackName(n: nat): string
  {
    "TRK_" + Decimal(n)
  }

  /** Distinct track numbers give distinct keys, so a new track never overwrites an old one. */
  lemma TrackNamesDistinct(a: nat, b: nat)
    ensures TrackName(a) == TrackName(b) <==> a == b
  {
    if TrackName(a) == TrackName(b) {
      assert TrackName(a)[4..] == Decimal(a);
      assert TrackName(b)[4..] == Decimal(b);
      ParseDecimalOfDecimal(a);
      ParseDecimalOfDecimal(b);
    }
  }

  /** The 0.6 exponential pull of a position toward an observation. */
  function Blend(p: Point, o: Point): Point
  {
    Point(0.6 * o.x + 0.4 * p.x, 0.6 * o.y + 0.4 * p.y)
  }

  /** The pulled position is 0.4 times as far from the observation, so its squared distance is 0.16 times as large. */
  lemma BlendShrinks(p: Point, o: Point)
    ensures SqDist(Blend(p, o), o) == 0.16 * SqDist(p, o)
  {
    var q := Blend(p, o);
    assert q.x - o.x == 0.4 * (p.x - o.x);
    assert q.y - o.y == 0.4 * (p.y - o.y);
  }

  /** min(1.0, c + 0.05) */
  function Raise(c: real): (r: real)
    ensures 0.0 <= c <= 1.0 ==> 0.0 <= r <= 1.0
    ensures r <= 1.0 && (r == 1.0 || r == c + 0.05)
  {
    if 1.0 <= c + 0.05 then 1.0 else c + 0.05
  }

  /** max(0.0, c - 0.1) */
  function Lower(c: real): (r: real)
    ensures 0.0 <= c <= 1.0 ==> 0.0 <= r <= 1.0
    ensures r >= 0.0 && (r == 0.0 || r == c - 0.1)
  {
    if 0.0 >= c - 0.1 then 0.0 else c - 0.1
  }

  /** The scan for the nearest unused observation, as both trackers write it. */
  method FindNearest(obs: seq<Point>, used: set<nat>, p: Point) returns (best: Option<nat>, bestDist: real)
    ensures best == Nearest(obs, used, p)
    ensures best.Some? ==> bestDist == SqDist(p, obs[best.value])
  {
    best := None;
    bestDist := 0.0;
    var i := 0;
    while i < |obs|
      invariant 0 <= i <= |obs|
      invariant best.Some? ==> best.value < i && best.value !in used && bestDist == SqDist(p, obs[best.value])
      invariant NearestFrom(obs, used, p, i, best) == Nearest(obs, used, p)
    {
      if i !in used {
        var d := SqDist(p, obs[i]);
        if best.None? || d < bestDist {
          best := Some(i);
          bestDist := d;
        }
      }
      i := i + 1;
    }
  }

  /** One track's search and gate test, as both update loops write it. */
  method GatedNearest(obs: seq<Point>, used: set<nat>, p: Point, gate: real) returns (pick: Option<nat>)
    ensures pick == Pick(p, obs, used, gate)
  {
    var best, bestDist := FindNearest(obs, used, p);
    pick := None;
    if best.Some? && gate >= 0.0 && bestDist <= gate * gate {
      pick := best;
    }
  }
}
