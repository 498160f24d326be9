/**
 * The release controller (weapon/sim_core/release.py): rack unlock, fuze
 * arming, the release sequence and its reset, each recorded in an event
 * log. The wall-clock timestamp of each log entry is a parameter.
 */
module WeaponRelease {
  import opened WeaponModels

  datatype Level = Info | Warn

  /** The fixed message of each log entry. */
  datatype Note = RackUnlocked | FuzeArmed | ReleaseRefused | ReleaseStarted | WeaponSeparated | ResetDone

  datatype ReleaseEvent = ReleaseEvent(ts: real, level: Level, message: Note)

  /** The controller together with the system it drives. */
  datatype Controller = Controller(rack: Rack, ejector: Ejector, weapon: Weapon, log: seq<ReleaseEvent>, running: bool)

  function Logged(c: Controller, e: ReleaseEvent): Controller
  {
    c.(log := c.log + [e])
  }

  function Unlocked(c: Controller, now: real): Controller
  {
    Logged(c.(rack := c.rack.(locked := false)), ReleaseEvent(now, Info, RackUnlocked))
  }

  function Armed(c: Controller, now: real): Controller
  {
    Logged(c.(weapon := c.weapon.(fuze := c.weapon.fuze.(armed := true))), ReleaseEvent(now, Info, FuzeArmed))
  }

  datatype Outcome = Outcome(ok: bool, after: Controller)

  function Started(c: Controller, now: real): Outcome
  {
    if !Releasable(c.rack, c.ejector, c.weapon) then
      Outcome(false, Logged(c, ReleaseEvent(now, Warn, ReleaseRefused)))
    else
      Outcome(true, Logged(c.(running := true, weapon := c.weapon.(state := Releasing)), ReleaseEvent(now, Info, ReleaseStarted)))
  }

  function Stepped(c: Controller, now: real): Controller
  {
    if !c.running then c
    else Logged(c.(weapon := c.weapon.(state := Separated)), ReleaseEvent(now, Info, WeaponSeparated)).(running := false)
  }

  function ResetOf(c: Controller, now: real): Controller
  {
    Logged(c.(weapon := c.weapon.(state := Mounted, fuze := c.weapon.fuze.(armed := false)),
              rack := c.rack.(locked := true)),
           ReleaseEvent(now, Info, ResetDone))
  }

  class ReleaseController {
    const sys: WeaponSystem
    var log: seq<ReleaseEvent>
    var running: bool

    function State(): Controller
      reads this, sys
    {
      Controller(sys.rack, sys.ejector, sys.weapon, log, running)
    }

    constructor (sys: WeaponSystem)
      ensures this.sys == sys && log == [] && !running
    {
      this.sys := sys;
      log := [];
      running := false;
    }

    method Log(level: Level, message: Note, now: real)
      modifies this
      ensures log == old(log) + [ReleaseEvent(now, level, message)] && running == old(running)
    {
      log := log + [ReleaseEvent(now, level, message)];
    }

    method UnlockRack(now: real)
      modifies this, sys
      ensures State() == Unlocked(old(State()), now)
    {
      sys.rack := sys.rack.(locked := false);
      Log(Info, RackUnlocked, now);
    }

    method ArmFuze(now: real)
      modifies this, sys
      ensures State() == Armed(old(State()), now)
    {
      sys.weapon := sys.weapon.(fuze := sys.weapon.fuze.(armed := true));
      Log(Info, FuzeArmed, now);
    }

    method StartRelease(now: real) returns (ok: bool)
      modifies this, sys
      ensures Outcome(ok, State()) == Started(old(State()), now)
    {
      if !sys.CanRelease() {
        Log(Warn, ReleaseRefused, now);
        return false;
      }
      running := true;
      sys.weapon := sys.weapon.(state := Releasing);
      Log(Info, ReleaseStarted, now);
      return true;
    }

    method Step(now: real)
      modifies this, sys
      ensures State() == Stepped(old(State()), now)
    {
      if !running {
        return;
      }
      sys.weapon := sys.weapon.(state := Separated);
      Log(Info, WeaponSeparated, now);
      running := false;
    }

    method Reset(now: real)
      modifies this, sys
      ensures State() == ResetOf(old(State()), now)
    {
      sys.weapon := sys.weapon.(state := Mounted);
      sys.rack := sys.rack.(locked := true);
      sys.weapon := sys.weapon.(fuze := sys.weapon.fuze.(armed := false));
      Log(Info, ResetDone, now);
    }
  }

  // ---------------------------------------------------------------------
  // Properties of the sequence

  /**
   * start_release succeeds exactly when can_release holds. A refusal only
   * logs a warning. A success sets running and the releasing state and
   * logs one entry.
   */
  lemma StartedIffReleasable(c: Controller, now: real)
    ensures Started(c, now).ok <==> Releasable(c.rack, c.ejector, c.weapon)
    ensures !Started(c, now).ok ==>
      Started(c, now).after == c.(log := c.log + [ReleaseEvent(now, Warn, ReleaseRefused)])
    ensures Started(c, now).ok ==>
      var d := Started(c, now).after;
      && d.running && d.weapon.state == Releasing
      && d.rack == c.rack && d.ejector == c.ejector && d.weapon.fuze == c.weapon.fuze
      && d.log == c.log + [ReleaseEvent(now, Info, ReleaseStarted)]
  {
  }

  /** A started release cannot be started again: the weapon is no longer mounted. */
  lemma NoDoubleRelease(c: Controller, now: real, later: real)
    requires Started(c, now).ok
    ensures !Started(Started(c, now).after, later).ok
  {
  }

  /** step is a no-op unless a release is running; then it separates the weapon and stops. */
  lemma SteppedSeparates(c: Controller, now: real)
    ensures !c.running ==> Stepped(c, now) == c
    ensures c.running ==>
      var d := Stepped(c, now);
      && d.weapon.state == Separated && !d.running
      && d.rack == c.rack && d.ejector == c.ejector
      && d.log == c.log + [ReleaseEvent(now, Info, WeaponSeparated)]
  {
  }

  /** After reset the rack is locked again, so no release can start until it is unlocked. */
  lemma ResetBlocksRelease(c: Controller, now: real, later: real)
    ensures ResetOf(c, now).weapon.state == Mounted && !ResetOf(c, now).weapon.fuze.armed
    ensures !Started(ResetOf(c, now), later).ok
    ensures ResetOf(c, now).running == c.running
  {
  }

  /**
   * reset does not clear `running`: a reset issued while a release is
   * running leaves the next step to separate the freshly remounted weapon.
   */
  lemma ResetThenStepSeparates(c: Controller, t1: real, t2: real, t3: real)
    requires Started(c, t1).ok
    ensures Stepped(ResetOf(Started(c, t1).after, t2), t3).weapon.state == Separated
  {
  }

  /** Every effective operation appends exactly one entry and keeps the earlier log. */
  lemma OneEntryPerOperation(c: Controller, now: real)
    ensures Unlocked(c, now).log == c.log + [ReleaseEvent(now, Info, RackUnlocked)]
    ensures Armed(c, now).log == c.log + [ReleaseEvent(now, Info, FuzeArmed)]
    ensures |Started(c, now).after.log| == |c.log| + 1 && Started(c, now).after.log[..|c.log|] == c.log
    ensures |Stepped(c, now).log| == |c.log| + (if c.running then 1 else 0)
    ensures Stepped(c, now).log[..|c.log|] == c.log
    ensures ResetOf(c, now).log == c.log + [ReleaseEvent(now, Info, ResetDone)]
  {
    assert (c.log + [ReleaseEvent(now, Warn, ReleaseRefused)])[..|c.log|] == c.log;
    assert (c.log + [ReleaseEvent(now, Info, ReleaseStarted)])[..|c.log|] == c.log;
    assert (c.log + [ReleaseEvent(now, Info, WeaponSeparated)])[..|c.log|] == c.log;
  }

  /**
   * The unit test: with default rack, ejector and weapon, release is
   * refused while the rack is locked, accepted once it is unlocked, and
   * one step separates the weapon.
   */
  lemma TestReleaseFlow(t1: real, t2: real, t3: real, t4: real)
    ensures var c0 := Controller(NewRack("R", 500.0), NewEjector("E", 10.0),
                                 NewWeapon("W", 100.0, "external", NewFuze("F", 0.5)), [], false);
      var s1 := Started(c0, t1);
      var s2 := Started(Unlocked(s1.after, t2), t3);
      && !s1.ok && s2.ok
      && Stepped(s2.after, t4).weapon.state == Separated
  {
  }

  /** The same scenario run on the controller object. */
  method ReleaseFlowScenario(t1: real, t2: real, t3: real, t4: real) returns (first: bool, second: bool, state: WeaponState)
    ensures !first && second && state == Separated
  {
    var sys := new WeaponSystem(NewRack("R", 500.0), NewEjector("E", 10.0),
                                NewWeapon("W", 100.0, "external", NewFuze("F", 0.5)));
    var ctl := new ReleaseController(sys);
    first := ctl.StartRelease(t1);
    ctl.UnlockRack(t2);
    second := ctl.StartRelease(t3);
    ctl.Step(t4);
    state := sys.weapon.state;
  }
}
