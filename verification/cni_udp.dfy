/**
 * The networked CNI simulator (cni/cni_udp_sim.c): text lines received
 * over UDP update a 128-slot target table, the inertial inputs and the
 * short-wave packet; each processing step turns the valid slots into
 * tracks. The numbers sscanf reads from a line are parameters: sockets,
 * the text scanning itself and the main loop are not part of this model.
 */
module CniUdp {
  import opened Common
  import opened CniCore

  /** A target slot and its `valid` flag. */
  datatype Slot = Slot(target: Target, valid: bool)

  const EmptySlot := Slot(NoTarget, false)

  /** The fourteen numbers of an INERTIAL line. */
  const InertialFields: nat := 14

  /** The fields of a COMM_PKT line, as sscanf reads them. */
  datatype CommFields = CommFields(sourceId: int, destId: int, txPowerDbm: real, frequencyHz: real, timestampS: real, payload: string)

  /** The inputs the simulator accumulates from received lines. */
  datatype Inputs = Inputs(
    slots: seq<Slot>, targetCount: int, packet: ShortwavePacket, packetValid: bool,
    inertial: seq<real>, navValid: bool)

  // ---------------------------------------------------------------------
  // The slot table

  /** The targets of the valid slots, in slot order. */
  function ValidTargets(s: seq<Slot>): (r: seq<Target>)
    ensures |r| <= |s|
  {
    if |s| == 0 then []
    else ValidTargets(s[..|s| - 1]) + (if s[|s| - 1].valid then [s[|s| - 1].target] else [])
  }

  /** A target is listed exactly when some valid slot holds it. */
  lemma {:induction false} ValidTargetsMembers(s: seq<Slot>, t: Target)
    ensures t in ValidTargets(s) <==> exists k :: 0 <= k < |s| && s[k].valid && s[k].target == t
  {
    if |s| > 0 {
      var p := s[..|s| - 1];
      ValidTargetsMembers(p, t);
      if exists k :: 0 <= k < |p| && p[k].valid && p[k].target == t {
        var k :| 0 <= k < |p| && p[k].valid && p[k].target == t;
        assert s[k] == p[k];
      }
      if exists k :: 0 <= k < |s| && s[k].valid && s[k].target == t {
        var k :| 0 <= k < |s| && s[k].valid && s[k].target == t;
        if k < |p| {
          assert p[k] == s[k];
        }
      }
    }
  }

  /** Replacing one slot changes the number of valid slots by the change in that slot's flag. */
  lemma {:induction false} ValidCountUpdate(s: seq<Slot>, k: nat, x: Slot)
    requires k < |s|
    ensures |ValidTargets(s[k := x])| == |ValidTargets(s)| - (if s[k].valid then 1 else 0) + (if x.valid then 1 else 0)
  {
    var p := s[..|s| - 1];
    if k == |s| - 1 {
      assert s[k := x][..|s| - 1] == p;
    } else {
      assert s[k := x][..|s| - 1] == p[k := x];
      ValidCountUpdate(p, k, x);
    }
  }

  /** No two valid slots hold the same id. */
  predicate UniqueIds(s: seq<Slot>)
  {
    forall i, j :: 0 <= i < |s| && 0 <= j < |s| && s[i].valid && s[j].valid && s[i].target.id == s[j].target.id ==> i == j
  }

  /** The first valid slot at or after `from` holding the id. */
  function FindId(s: seq<Slot>, id: int, from: nat): (r: Option<nat>)
    ensures r.Some? ==> from <= r.value < |s| && s[r.value].valid && s[r.value].target.id == id
    decreases |s| - from
  {
    if from >= |s| then None
    else if s[from].valid && s[from].target.id == id then Some(from)
    else FindId(s, id, from + 1)
  }

  /** The first free slot at or after `from`. */
  function FindFree(s: seq<Slot>, from: nat): (r: Option<nat>)
    ensures r.Some? ==> from <= r.value < |s| && !s[r.value].valid
    decreases |s| - from
  {
    if from >= |s| then None
    else if !s[from].valid then Some(from)
    else FindFree(s, from + 1)
  }

  /** FindId finds the first match, and reports none only when no slot from `from` on matches. */
  lemma {:induction false} FindIdSound(s: seq<Slot>, id: int, from: nat)
    ensures FindId(s, id, from).Some? ==>
      forall j :: from <= j < FindId(s, id, from).value ==> !(s[j].valid && s[j].target.id == id)
    ensures FindId(s, id, from).None? ==> forall j :: from <= j < |s| ==> !(s[j].valid && s[j].target.id == id)
    decreases |s| - from
  {
    if from < |s| && !(s[from].valid && s[from].target.id == id) {
      FindIdSound(s, id, from + 1);
    }
  }

  /** FindFree finds the first free slot, and reports none only when every slot from `from` on is valid. */
  lemma {:induction false} FindFreeSound(s: seq<Slot>, from: nat)
    ensures FindFree(s, from).Some? ==> forall j :: from <= j < FindFree(s, from).value ==> s[j].valid
    ensures FindFree(s, from).None? ==> forall j :: from <= j < |s| ==> s[j].valid
    decreases |s| - from
  {
    if from < |s| && s[from].valid {
      FindFreeSound(s, from + 1);
    }
  }

  /** The slot a TARGET line writes: the one already holding the id, else the first free one. */
  function SlotFor(s: seq<Slot>, id: int): Option<nat>
  {
    if FindId(s, id, 0).Some? then FindId(s, id, 0) else FindFree(s, 0)
  }

  /**
   * The slot rule: a valid slot with the id is chosen whenever there is
   * one (the first); otherwise the first free slot; no slot exactly when
   * every slot is valid and none holds the id.
   */
  lemma SlotForSound(s: seq<Slot>, id: int)
    ensures SlotFor(s, id).Some? ==> SlotFor(s, id).value < |s|
    ensures (exists k :: 0 <= k < |s| && s[k].valid && s[k].target.id == id) ==>
      && SlotFor(s, id).Some?
      && s[SlotFor(s, id).value].valid && s[SlotFor(s, id).value].target.id == id
    ensures (forall k :: 0 <= k < |s| ==> !(s[k].valid && s[k].target.id == id)) ==>
      && (SlotFor(s, id).Some? ==> !s[SlotFor(s, id).value].valid
                                   && forall j :: 0 <= j < SlotFor(s, id).value ==> s[j].valid)
      && (SlotFor(s, id).None? <==> forall j :: 0 <= j < |s| ==> s[j].valid)
  {
    FindIdSound(s, id, 0);
    FindFreeSound(s, 0);
  }

  /** The table after a TARGET line whose nine fields scanned as t. */
  function StoredTarget(s: seq<Slot>, t: Target): seq<Slot>
  {
    match SlotFor(s, t.id)
    case None => s
    case Some(k) => s[k := Slot(t, true)]
  }

  /** Storing a target keeps ids unique, and afterwards exactly the chosen slot holds its id. */
  lemma StoredTargetUnique(s: seq<Slot>, t: Target)
    requires UniqueIds(s)
    ensures UniqueIds(StoredTarget(s, t))
    ensures SlotFor(s, t.id).Some? ==>
      var s' := StoredTarget(s, t);
      forall j :: 0 <= j < |s'| && s'[j].valid && s'[j].target.id == t.id ==> s'[j] == Slot(t, true)
  {
    SlotForSound(s, t.id);
    FindIdSound(s, t.id, 0);
    if SlotFor(s, t.id).Some? {
      var k := SlotFor(s, t.id).value;
      var s' := s[k := Slot(t, true)];
      forall i, j | 0 <= i < |s'| && 0 <= j < |s'| && s'[i].valid && s'[j].valid && s'[i].target.id == s'[j].target.id
        ensures i == j
      {
        if i != k && j != k {
          assert s[i] == s'[i] && s[j] == s'[j];
        }
      }
    }
  }

  /** The number of valid slots grows by one when a new id takes a free slot, and is otherwise kept. */
  lemma StoredTargetCount(s: seq<Slot>, t: Target)
    ensures |StoredTarget(s, t)| == |s|
    ensures |ValidTargets(StoredTarget(s, t))| ==
      |ValidTargets(s)| + (if SlotFor(s, t.id).Some? && !s[SlotFor(s, t.id).value].valid then 1 else 0)
  {
    SlotForSound(s, t.id);
    if SlotFor(s, t.id).Some? {
      ValidCountUpdate(s, SlotFor(s, t.id).value, Slot(t, true));
    }
  }

  /** The valid slots' targets carry distinct ids when the table's ids are unique. */
  lemma {:induction false} ValidTargetsDistinct(s: seq<Slot>)
    requires UniqueIds(s)
    ensures forall i, j :: 0 <= i < j < |ValidTargets(s)| ==> ValidTargets(s)[i].id != ValidTargets(s)[j].id
  {
    if |s| > 0 {
      var p := s[..|s| - 1];
      assert UniqueIds(p) by {
        forall i, j | 0 <= i < |p| && 0 <= j < |p| && p[i].valid && p[j].valid && p[i].target.id == p[j].target.id
          ensures i == j
        {
          assert s[i] == p[i] && s[j] == p[j];
        }
      }
      ValidTargetsDistinct(p);
      var last := s[|s| - 1];
      if last.valid {
        forall i | 0 <= i < |ValidTargets(p)|
          ensures ValidTargets(p)[i].id != last.target.id
        {
          var u := ValidTargets(p)[i];
          ValidTargetsMembers(p, u);
          var k :| 0 <= k < |p| && p[k].valid && p[k].target == u;
          assert s[k] == p[k];
        }
      }
    }
  }

  // ---------------------------------------------------------------------
  // Line handling on the input state

  /** The table invariant: 128 slots, unique ids, the count equal to the number of valid slots. */
  predicate WellFormed(st: Inputs)
  {
    && |st.slots| == MaxTargets
    && UniqueIds(st.slots)
    && st.targetCount == |ValidTargets(st.slots)|
    && |st.inertial| == InertialFields
  }

  /**
   * handle_target_line: `None` stands for a line with fewer than nine
   * scanned fields. When no slot is free the table and count are kept;
   * otherwise the slot is written and the count recomputed.
   */
  function AfterTargetLine(st: Inputs, scanned: Option<Target>): Inputs
  {
    match scanned
    case None => st
    case Some(t) =>
      if SlotFor(st.slots, t.id).None? then st
      else st.(slots := StoredTarget(st.slots, t), targetCount := |ValidTargets(StoredTarget(st.slots, t))|)
  }

  /**
   * handle_inertial_line: sscanf stores each field it scans straight into
   * the inputs, so a short line still overwrites its leading fields; the
   * inputs become valid only when all fourteen were read.
   */
  function AfterInertialLine(st: Inputs, scanned: seq<real>): Inputs
    requires |scanned| <= InertialFields <= |st.inertial|
  {
    st.(inertial := scanned + st.inertial[|scanned|..],
        navValid := st.navValid || |scanned| == InertialFields)
  }

  /** handle_comm_pkt_line: `None` stands for fewer than six scanned fields. */
  function AfterCommLine(st: Inputs, scanned: Option<CommFields>): Inputs
  {
    match scanned
    case None => st
    case Some(c) =>
      st.(packet := ShortwavePacket(c.sourceId, c.destId, c.txPowerDbm, c.frequencyHz, c.timestampS, Bounded(c.payload)),
          packetValid := true)
  }

  predicate IsLineEnd(c: char)
  {
    c == '\n' || c == '\r'
  }

  /** A received line with its trailing run of '\n' and '\r' removed. */
  function Trimmed(line: string): (r: string)
    ensures |r| <= |line| && r == line[..|r|]
    ensures |r| > 0 ==> !IsLineEnd(r[|r| - 1])
    ensures forall k :: |r| <= k < |line| ==> IsLineEnd(line[k])
  {
    if |line| > 0 && IsLineEnd(line[|line| - 1]) then Trimmed(line[..|line| - 1]) else line
  }

  /** Trimming twice is trimming once, and a line ending is never part of the trimmed text. */
  lemma {:induction false} TrimmedRule(line: string, ending: string)
    requires forall k :: 0 <= k < |ending| ==> IsLineEnd(ending[k])
    ensures Trimmed(Trimmed(line)) == Trimmed(line)
    ensures Trimmed(line + ending) == Trimmed(line)
    decreases |ending|
  {
    if |ending| > 0 {
      var e := ending[..|ending| - 1];
      assert (line + ending)[..|line + ending| - 1] == line + e;
      TrimmedRule(line, e);
    } else {
      assert line + ending == line;
    }
  }

  /**
   * trim_newline on a NUL-terminated buffer holding a line of `len`
   * characters: the trailing line endings are overwritten with NULs and
   * the new length is returned.
   */
  method TrimNewline(buf: array<char>, len: nat) returns (n: nat)
    requires len <= buf.Length
    modifies buf
    ensures n <= len
    ensures buf[..n] == Trimmed(old(buf[..len]))
    ensures forall k :: n <= k < len ==> buf[k] == '\0'
    ensures forall k :: len <= k < buf.Length ==> buf[k] == old(buf[k])
  {
    n := len;
    while n > 0 && (buf[n - 1] == '\n' || buf[n - 1] == '\r')
      invariant n <= len
      invariant buf[..n] == old(buf[..n])
      invariant Trimmed(buf[..n]) == Trimmed(old(buf[..len]))
      invariant forall k :: n <= k < len ==> buf[k] == '\0'
      invariant forall k :: len <= k < buf.Length ==> buf[k] == old(buf[k])
    {
      assert buf[..n][..n - 1] == buf[..n - 1];
      buf[n - 1] := '\0';
      n := n - 1;
    }
  }

  function StartsWith(line: string, prefix: string): bool
  {
    |line| >= |prefix| && line[..|prefix|] == prefix
  }

  /** What sscanf reads from a line under each of the three formats. */
  datatype LineScan = LineScan(target: Option<Target>, inertial: seq<real>, comm: Option<CommFields>)

  /** handle_incoming_line: dispatch on the line's prefix; unknown lines change nothing. */
  function AfterLine(st: Inputs, line: string, scan: LineScan): Inputs
    requires |scan.inertial| <= InertialFields <= |st.inertial|
  {
    if StartsWith(line, "TARGET,") then AfterTargetLine(st, scan.target)
    else if StartsWith(line, "INERTIAL,") then AfterInertialLine(st, scan.inertial)
    else if StartsWith(line, "COMM_PKT,") then AfterCommLine(st, scan.comm)
    else st
  }

  /** Every line keeps the table invariant. */
  lemma AfterLineWellFormed(st: Inputs, line: string, scan: LineScan)
    requires WellFormed(st) && |scan.inertial| <= InertialFields
    ensures WellFormed(AfterLine(st, line, scan))
  {
    if StartsWith(line, "TARGET,") && scan.target.Some? {
      StoredTargetUnique(st.slots, scan.target.value);
    }
  }

  /**
   * A TARGET line with the nine fields lands in the slot that held its id,
   * else in the first free one, and then is the only valid entry with its
   * id; the count grows only for a new id.
   */
  lemma TargetLineStores(st: Inputs, t: Target)
    requires WellFormed(st)
    requires SlotFor(st.slots, t.id).Some?
    ensures var st' := AfterTargetLine(st, Some(t));
      && Slot(t, true) in st'.slots
      && (forall j :: 0 <= j < |st'.slots| && st'.slots[j].valid && st'.slots[j].target.id == t.id ==> st'.slots[j] == Slot(t, true))
      && st'.targetCount == st.targetCount + (if st.slots[SlotFor(st.slots, t.id).value].valid then 0 else 1)
      && st'.packet == st.packet && st'.inertial == st.inertial
  {
    StoredTargetUnique(st.slots, t);
    StoredTargetCount(st.slots, t);
    SlotForSound(st.slots, t.id);
    var k := SlotFor(st.slots, t.id).value;
    assert StoredTarget(st.slots, t)[k] == Slot(t, true);
  }

  /** A full table with no slot for the id drops the target and keeps everything. */
  lemma TargetLineTableFull(st: Inputs, t: Target)
    requires forall j :: 0 <= j < |st.slots| ==> st.slots[j].valid && st.slots[j].target.id != t.id
    ensures AfterTargetLine(st, Some(t)) == st
  {
    SlotForSound(st.slots, t.id);
  }

  /** Malformed and unknown lines leave the inputs unchanged. */
  lemma BadLinesChangeNothing(st: Inputs, line: string, scan: LineScan)
    requires |scan.inertial| <= InertialFields <= |st.inertial|
    ensures StartsWith(line, "TARGET,") && scan.target.None? ==> AfterLine(st, line, scan) == st
    ensures StartsWith(line, "COMM_PKT,") && scan.comm.None? ==> AfterLine(st, line, scan) == st
    ensures !StartsWith(line, "TARGET,") && !StartsWith(line, "INERTIAL,") && !StartsWith(line, "COMM_PKT,") ==>
      AfterLine(st, line, scan) == st
  {
    assert StartsWith(line, "COMM_PKT,") ==> !StartsWith(line, "TARGET,") && !StartsWith(line, "INERTIAL,") by {
      if StartsWith(line, "COMM_PKT,") {
        assert line[0] == 'C';
      }
    }
  }

  /**
   * An INERTIAL line with only some fields scanned overwrites those leading
   * fields without marking the inputs valid.
   */
  lemma ShortInertialOverwrites(st: Inputs, scanned: seq<real>)
    requires |scanned| < InertialFields <= |st.inertial|
    ensures var st' := AfterInertialLine(st, scanned);
      && st'.inertial[..|scanned|] == scanned
      && st'.inertial[|scanned|..] == st.inertial[|scanned|..]
      && st'.navValid == st.navValid
      && st'.slots == st.slots && st'.packet == st.packet
  {
    assert (scanned + st.inertial[|scanned|..])[..|scanned|] == scanned;
  }

  // ---------------------------------------------------------------------
  // Outputs of a step

  /** attitude_deg[0..2] are inertial fields 11 to 13. */
  function NavFromInertial(v: seq<real>): NavInputs
    requires |v| == InertialFields
  {
    NavInputs(v[0], v[1], v[2], v[3], v[4], v[11], v[12], v[13])
  }

  /** process_shortwave: no packet yet gives ids -1, SNR -9999, "[NO_PKT]" and time 0. */
  function CommOf(packet: ShortwavePacket, valid: bool, pathLossDb: real): (c: CommOutput)
    ensures !valid ==> c.sourceId == -1 && c.destId == -1 && c.decodedPayload == "[NO_PKT]"
    ensures valid ==> c.sourceId == packet.sourceId && c.destId == packet.destId
  {
    if !valid then CommOutput(-1, -1, -9999.0, "[NO_PKT]", 0.0) else DecodeShortwave(packet, pathLossDb)
  }

  // ---------------------------------------------------------------------
  // The input container, updated in place

  class CniInputs {
    const targets: array<Slot>
    var targetCount: int
    var packet: ShortwavePacket
    var packetValid: bool
    var inertial: seq<real>
    var navValid: bool
    var simTime: real
    var dt: real

    function State(): Inputs
      reads this, targets
    {
      Inputs(targets[..], targetCount, packet, packetValid, inertial, navValid)
    }

    predicate Valid()
      reads this, targets
    {
      targets.Length == MaxTargets && WellFormed(State())
    }

    /** The zeroed container: every slot free, nothing received. */
    constructor ()
      ensures fresh(targets) && Valid()
      ensures forall i :: 0 <= i < targets.Length ==> targets[i] == EmptySlot
      ensures targetCount == 0 && !packetValid && !navValid && simTime == 0.0 && dt == 0.0
    {
      targets := new Slot[MaxTargets](_ => EmptySlot);
      targetCount := 0;
      packet := ShortwavePacket(0, 0, 0.0, 0.0, 0.0, "");
      packetValid := false;
      inertial := seq(InertialFields, _ => 0.0);
      navValid := false;
      simTime := 0.0;
      dt := 0.0;
      new;
      NoValidSlots(targets[..]);
      assert UniqueIds(targets[..]);
    }

    /** The slot search of handle_target_line; -1 when there is none. */
    method FindSlot(id: int) returns (slot: int)
      ensures slot == match SlotFor(targets[..], id) case Some(k) => k case None => -1
    {
      ghost var s := targets[..];
      slot := -1;
      var i := 0;
      while i < targets.Length
        invariant 0 <= i <= targets.Length
        invariant FindId(s, id, 0) == FindId(s, id, i)
        invariant slot == -1 ==> FindFree(s, 0) == FindFree(s, i)
        invariant slot != -1 ==> FindFree(s, 0) == Some(slot)
      {
        if targets[i].valid && targets[i].target.id == id {
          slot := i;
          break;
        }
        if slot == -1 && !targets[i].valid {
          slot := i;
        }
        i := i + 1;
      }
    }

    /** The recount loop of handle_target_line. */
    method Recount()
      modifies this
      ensures targetCount == |ValidTargets(targets[..])|
      ensures packet == old(packet) && packetValid == old(packetValid)
      ensures inertial == old(inertial) && navValid == old(navValid)
      ensures simTime == old(simTime) && dt == old(dt)
    {
      var cnt := 0;
      var i := 0;
      while i < targets.Length
        invariant 0 <= i <= targets.Length
        invariant cnt == |ValidTargets(targets[..i])|
      {
        assert targets[..i + 1][..i] == targets[..i];
        if targets[i].valid {
          cnt := cnt + 1;
        }
        i := i + 1;
      }
      assert targets[..targets.Length] == targets[..];
      targetCount := cnt;
    }

    method HandleTargetLine(scanned: Option<Target>)
      modifies this, targets
      ensures State() == AfterTargetLine(old(State()), scanned)
      ensures simTime == old(simTime) && dt == old(dt)
    {
      if scanned.None? {
        return;
      }
      var t := scanned.value;
      var slot := FindSlot(t.id);
      if slot >= 0 {
        targets[slot] := Slot(t, true);
        Recount();
      }
    }

    method HandleInertialLine(scanned: seq<real>)
      requires |scanned| <= InertialFields <= |inertial|
      modifies this
      ensures State() == AfterInertialLine(old(State()), scanned)
      ensures simTime == old(simTime) && dt == old(dt)
    {
      inertial := scanned + inertial[|scanned|..];
      if |scanned| >= InertialFields {
        navValid := true;
      }
    }

    method HandleCommLine(scanned: Option<CommFields>)
      modifies this
      ensures State() == AfterCommLine(old(State()), scanned)
      ensures simTime == old(simTime) && dt == old(dt)
    {
      if scanned.Some? {
        var c := scanned.value;
        packet := ShortwavePacket(c.sourceId, c.destId, c.txPowerDbm, c.frequencyHz, c.timestampS, Bounded(c.payload));
        packetValid := true;
      }
    }

    method HandleIncomingLine(line: string, scan: LineScan)
      requires |scan.inertial| <= InertialFields <= |inertial|
      modifies this, targets
      ensures State() == AfterLine(old(State()), line, scan)
      ensures simTime == old(simTime) && dt == old(dt)
    {
      if StartsWith(line, "TARGET,") {
        HandleTargetLine(scan.target);
      } else if StartsWith(line, "INERTIAL,") {
        HandleInertialLine(scan.inertial);
      } else if StartsWith(line, "COMM_PKT,") {
        HandleCommLine(scan.comm);
      }
    }

    /**
     * cni_process_step: the nav output from the inertial inputs, one track
     * per valid slot in slot order at the start of the track array (the
     * rest keeps its old contents), and the packet's comm output.
     */
    method ProcessStep(out: CniOutputs, geo: (Target, real) -> GeoEstimate, pathLossDb: real)
      requires Valid() && out.tracks.Length == MaxTargets
      modifies out, out.tracks
      ensures out.nav == NavOf(NavFromInertial(inertial), simTime)
      ensures out.trackCount == |ValidTargets(targets[..])| == targetCount
      ensures out.tracks[..out.trackCount] == Estimates(ValidTargets(targets[..]), dt, geo)
      ensures forall k :: out.trackCount <= k < MaxTargets ==> out.tracks[k] == old(out.tracks[k])
      ensures out.comm == CommOf(packet, packetValid, pathLossDb)
    {
      out.nav := GenerateNavOutput(NavFromInertial(inertial), simTime);
      var tc := Tracks(out.tracks, geo);
      out.trackCount := tc;
      if !packetValid {
        out.comm := CommOutput(-1, -1, -9999.0, "[NO_PKT]", 0.0);
      } else {
        out.comm := DecodeShortwave(packet, pathLossDb);
      }
    }

    /** The track loop: estimate each valid slot into the next track entry. */
    method Tracks(tracks: array<TrackOutput>, geo: (Target, real) -> GeoEstimate) returns (tc: int)
      requires targets.Length == tracks.Length == MaxTargets
      modifies tracks
      ensures tc == |ValidTargets(targets[..])|
      ensures tracks[..tc] == Estimates(ValidTargets(targets[..]), dt, geo)
      ensures forall k :: tc <= k < tracks.Length ==> tracks[k] == old(tracks[k])
    {
      ghost var s := targets[..];
      tc := 0;
      var i := 0;
      while i < MaxTargets
        invariant 0 <= i <= MaxTargets && s == targets[..]
        invariant tc == |ValidTargets(s[..i])| && tc <= i
        invariant tracks[..tc] == Estimates(ValidTargets(s[..i]), dt, geo)
        invariant forall k :: tc <= k < tracks.Length ==> tracks[k] == old(tracks[k])
      {
        ValidTargetsSnoc(s, i);
        assert s[i] == targets[i];
        if targets[i].valid {
          var t := targets[i].target;
          EstimateAt(tracks, tc, t, dt, geo);
          EstimatesSnoc(ValidTargets(s[..i]), t, dt, geo);
          tc := tc + 1;
          if tc >= MaxTargets {
            assert s[..i + 1] == s;
            return;
          }
        } else {
          assert ValidTargets(s[..i]) + [] == ValidTargets(s[..i]);
        }
        i := i + 1;
      }
      assert s[..MaxTargets] == s;
    }
  }

  /** One track entry written after the earlier ones, leaving the later ones alone. */
  method EstimateAt(tracks: array<TrackOutput>, tc: nat, t: Target, dt: real, geo: (Target, real) -> GeoEstimate)
    requires tc < tracks.Length
    modifies tracks
    ensures tracks[..tc + 1] == old(tracks[..tc]) + [EstimateTarget(t, dt, geo(t, dt))]
    ensures forall k :: tc < k < tracks.Length ==> tracks[k] == old(tracks[k])
  {
    tracks[tc] := EstimateTarget(t, dt, geo(t, dt));
    assert tracks[..tc + 1] == tracks[..tc] + [tracks[tc]];
  }

  /** One more slot adds its target when it is valid. */
  lemma ValidTargetsSnoc(s: seq<Slot>, i: nat)
    requires i < |s|
    ensures ValidTargets(s[..i + 1]) == ValidTargets(s[..i]) + (if s[i].valid then [s[i].target] else [])
  {
    assert s[..i + 1][..i] == s[..i];
  }

  /** A table of free slots lists no targets. */
  lemma {:induction false} NoValidSlots(s: seq<Slot>)
    requires forall i :: 0 <= i < |s| ==> !s[i].valid
    ensures ValidTargets(s) == [] && UniqueIds(s)
  {
    if |s| > 0 {
      NoValidSlots(s[..|s| - 1]);
    }
  }

  /** The tracks of a step carry distinct ids, and each comes from a valid slot. */
  lemma StepTracksDistinct(s: seq<Slot>, dt: real, geo: (Target, real) -> GeoEstimate)
    requires UniqueIds(s)
    ensures var ts := Estimates(ValidTargets(s), dt, geo);
      && (forall i, j :: 0 <= i < j < |ts| ==> ts[i].id != ts[j].id)
      && (forall i :: 0 <= i < |ts| ==> exists k :: 0 <= k < |s| && s[k].valid && s[k].target.id == ts[i].id)
  {
    var vt := ValidTargets(s);
    EstimatesAt(vt, dt, geo);
    ValidTargetsDistinct(s);
    forall i | 0 <= i < |vt|
      ensures exists k :: 0 <= k < |s| && s[k].valid && s[k].target.id == vt[i].id
    {
      ValidTargetsMembers(s, vt[i]);
    }
  }
}
