/**
 * The store-management system state (weapon/sim_core/models.py): rack,
 * ejector, fuze and weapon records, the release-permission rule and the
 * first-order temperature model.
 */
module WeaponModels {
  datatype Rack = Rack(rackId: string, maxLoadKg: real, locked: bool, overloadProtect: bool, electricalOk: bool)

  datatype Ejector = Ejector(ejectorId: string, pressureMpa: real, ready: bool, fault: bool)

  datatype Fuze = Fuze(fuzeId: string, sensitivity: real, armed: bool, antiJam: real)

  /** The three values the release sequence gives the weapon's state string. */
  datatype WeaponState = Mounted | Releasing | Separated

  datatype Weapon = Weapon(
    weaponId: string, massKg: real, aerodynamicMode: string,
    temperatureC: real, state: WeaponState, fuze: Fuze)

  /** The dataclass defaults: locked, no overload protection, electrical ok. */
  function NewRack(rackId: string, maxLoadKg: real): Rack
  {
    Rack(rackId, maxLoadKg, true, false, true)
  }

  function NewEjector(ejectorId: string, pressureMpa: real): Ejector
  {
    Ejector(ejectorId, pressureMpa, true, false)
  }

  function NewFuze(fuzeId: string, sensitivity: real): Fuze
  {
    Fuze(fuzeId, sensitivity, false, 0.5)
  }

  /** A weapon starts at 20 degrees C, mounted. */
  function NewWeapon(weaponId: string, massKg: real, aerodynamicMode: string, fuze: Fuze): Weapon
  {
    Weapon(weaponId, massKg, aerodynamicMode, 20.0, Mounted, fuze)
  }

  /** can_release: every interlock is clear and the weapon is still mounted. */
  predicate Releasable(rack: Rack, ejector: Ejector, weapon: Weapon)
  {
    && !rack.locked
    && rack.electricalOk
    && ejector.ready
    && !ejector.fault
    && !rack.overloadProtect
    && weapon.state == Mounted
  }

  /** An external store settles at ambient temperature, an internal one 5 degrees above. */
  function TemperatureTarget(aerodynamicMode: string, ambientC: real): real
  {
    if aerodynamicMode == "external" then ambientC else ambientC + 5.0
  }

  /** One step of the temperature model: 5% of the way to the target. */
  function NextTemperature(t: real, target: real): real
  {
    t + (target - t) * 0.05
  }

  /** A step never overshoots the target, and the gap to it shrinks to 95%. */
  lemma NextTemperatureApproaches(t: real, target: real)
    ensures t <= target ==> t <= NextTemperature(t, target) <= target
    ensures target <= t ==> target <= NextTemperature(t, target) <= t
    ensures NextTemperature(t, target) - target == 0.95 * (t - target)
    ensures NextTemperature(t, target) == t <==> t == target
  {
  }

  /** The aggregate whose parts the release controller updates in place. */
  class WeaponSystem {
    var rack: Rack
    var ejector: Ejector
    var weapon: Weapon

    constructor (rack: Rack, ejector: Ejector, weapon: Weapon)
      ensures this.rack == rack && this.ejector == ejector && this.weapon == weapon
    {
      this.rack := rack;
      this.ejector := ejector;
      this.weapon := weapon;
    }

    function CanRelease(): bool
      reads this
    {
      Releasable(rack, ejector, weapon)
    }

    /** step_temperature(ambient_c): only the weapon's temperature changes. */
    method StepTemperature(ambientC: real)
      modifies this
      ensures rack == old(rack) && ejector == old(ejector)
      ensures weapon == old(weapon).(temperatureC := NextTemperature(old(weapon.temperatureC),
                                                      TemperatureTarget(old(weapon.aerodynamicMode), ambientC)))
    {
      var target := if weapon.aerodynamicMode == "external" then ambientC else ambientC + 5.0;
      weapon := weapon.(temperatureC := weapon.temperatureC + (target - weapon.temperatureC) * 0.05);
    }
  }
}
