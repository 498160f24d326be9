/**
 * The weapon pylon processing chain (weapon/main.c): the intercept
 * decision, the intercept parameters and the fire command, computed in
 * that order from the global input records and written into the global
 * output records. Single-precision arithmetic is modelled by exact reals.
 */
module WeaponPylon {
  /** The intercept range, in metres, and the assumed closing speed, in metres per second. */
  const InterceptRange: real := 15000.0
  const ClosingSpeed: real := 300.0

  datatype TargetInfo = TargetInfo(targetId: nat, distance: real, azimuth: real, elevation: real, radialSpeed: real)

  datatype FireControlInput = FireControlInput(timeToGo: real, ballisticAngle: real, launchAngle: real)

  datatype InterceptParam = InterceptParam(leadAngle: real, launchTime: real, interceptTime: real)

  /** The decision rule: in range and time to go left. */
  predicate InterceptEnabled(target: TargetInfo, fcs: FireControlInput)
  {
    target.distance < InterceptRange && fcs.timeToGo > 0.0
  }

  /** Lead a tenth of the azimuth, launch after 1.2 s, intercept after distance / 300 s. */
  function ParamsFor(target: TargetInfo): InterceptParam
  {
    InterceptParam(target.azimuth * 0.1, 1.2, target.distance / ClosingSpeed)
  }

  /** The global records of the pylon simulation; all start zeroed. */
  class Pylon {
    var weaponType: nat
    var weaponCount: nat
    var target: TargetInfo
    var fcs: FireControlInput
    var remainAmmo: nat
    var interceptEnable: nat
    var param: InterceptParam
    var fireCmd: nat

    constructor ()
      ensures target == TargetInfo(0, 0.0, 0.0, 0.0, 0.0) && fcs == FireControlInput(0.0, 0.0, 0.0)
      ensures remainAmmo == 0 && interceptEnable == 0 && fireCmd == 0 && param == InterceptParam(0.0, 0.0, 0.0)
      ensures weaponType == 0 && weaponCount == 0
    {
      weaponType := 0;
      weaponCount := 0;
      target := TargetInfo(0, 0.0, 0.0, 0.0, 0.0);
      fcs := FireControlInput(0.0, 0.0, 0.0);
      remainAmmo := 0;
      interceptEnable := 0;
      param := InterceptParam(0.0, 0.0, 0.0);
      fireCmd := 0;
    }

    /** calc_intercept_decision. */
    method CalcInterceptDecision()
      modifies this
      ensures interceptEnable == (if InterceptEnabled(target, fcs) then 1 else 0)
      ensures target == old(target) && fcs == old(fcs) && remainAmmo == old(remainAmmo)
      ensures param == old(param) && fireCmd == old(fireCmd)
    {
      if target.distance < 15000.0 && fcs.timeToGo > 0.0 {
        interceptEnable := 1;
      } else {
        interceptEnable := 0;
      }
    }

    /** calc_intercept_param. */
    method CalcInterceptParam()
      modifies this
      ensures param == ParamsFor(target)
      ensures target == old(target) && fcs == old(fcs) && remainAmmo == old(remainAmmo)
      ensures interceptEnable == old(interceptEnable) && fireCmd == old(fireCmd)
    {
      param := param.(leadAngle := target.azimuth * 0.1);
      param := param.(launchTime := 1.2);
      param := param.(interceptTime := target.distance / 300.0);
    }

    /** calc_fire_command: fire when the stored decision allows it and ammunition remains. */
    method CalcFireCommand()
      modifies this
      ensures fireCmd == (if interceptEnable != 0 && remainAmmo > 0 then 1 else 0)
      ensures target == old(target) && fcs == old(fcs) && remainAmmo == old(remainAmmo)
      ensures interceptEnable == old(interceptEnable) && param == old(param)
    {
      if interceptEnable != 0 && remainAmmo > 0 {
        fireCmd := 1;
      } else {
        fireCmd := 0;
      }
    }

    /**
     * WeaponPylon_Process: because the decision is computed first, the
     * fire command always reflects this cycle's inputs.
     */
    method Process()
      modifies this
      ensures interceptEnable == (if InterceptEnabled(target, fcs) then 1 else 0)
      ensures param == ParamsFor(target)
      ensures fireCmd == 1 <==> InterceptEnabled(target, fcs) && remainAmmo > 0
      ensures fireCmd <= 1
      ensures target == old(target) && fcs == old(fcs) && remainAmmo == old(remainAmmo)
    {
      CalcInterceptDecision();
      CalcInterceptParam();
      CalcFireCommand();
    }
  }

  /** The parameters: the lead is a tenth of the azimuth and the intercept time grows with distance. */
  lemma ParamsRule(a: TargetInfo, b: TargetInfo)
    ensures ParamsFor(a).leadAngle * 10.0 == a.azimuth
    ensures ParamsFor(a).launchTime == 1.2
    ensures ParamsFor(a).interceptTime * ClosingSpeed == a.distance
    ensures a.distance <= b.distance ==> ParamsFor(a).interceptTime <= ParamsFor(b).interceptTime
  {
  }

  /**
   * The demonstration in main: 12 km, 30 degrees, two rounds, but the
   * time to go is never set, so the decision is off and nothing fires.
   */
  method Demonstration() returns (decision: nat, lead: real, fire: nat)
    ensures decision == 0 && lead == 3.0 && fire == 0
  {
    var p := new Pylon();
    p.weaponType := 1;
    p.weaponCount := 2;
    p.target := p.target.(distance := 12000.0, azimuth := 30.0);
    p.remainAmmo := 2;
    p.Process();
    decision := p.interceptEnable;
    lead := p.param.leadAngle;
    fire := p.fireCmd;
  }
}
