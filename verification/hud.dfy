/**
 * The head-up display frame processing (hud/hud_sim.c): sensor targets
 * projected to screen symbols, the page choice, the numeric fields and
 * the warning texts, written into fixed-size output arrays with counts.
 */
module Hud {
  import opened Common

  const MaxSensorTargets: nat := 128
  const MaxDynamicSymbols: nat := 256
  const MaxNumericSymbols: nat := 64
  const MaxStringSymbols: nat := 64

  /** Half-widths of the field of view, in degrees. */
  const FovH: real := 60.0
  const FovV: real := 30.0

  datatype Timestamp = Timestamp(sec: nat, usec: nat)

  datatype SensorType = Radar | Das | Ir

  /** A sensor contact: azimuth right-positive, elevation up-positive; status 0 lost, 1 tentative, 2 track. */
  datatype SensorTarget = SensorTarget(targetId: nat, sensor: SensorType, rangeM: real, azimuthDeg: real, elevationDeg: real, trackStatus: int)

  datatype InsData = InsData(altitudeM: real, yawDeg: real, status: int)

  datatype AircraftState = AircraftState(airspeedMps: real, fuelPercent: real, onGround: int)

  /** The target list: `count` is the u16 count field, `targets` the 128 entries. */
  datatype SensorTargetList = SensorTargetList(count: nat, targets: seq<SensorTarget>)

  datatype WeaponStatus = WeaponStatus(masterArm: int, weaponCount: nat)

  /** The fields of Inputs_Packet that frame processing reads. */
  datatype HudInputs = HudInputs(ts: Timestamp, ins: InsData, acState: AircraftState, sensorTargets: SensorTargetList, weapon: WeaponStatus)

  datatype SymbolStyle = Normal | Flash | Dim

  datatype ScreenPos = ScreenPos(x: real, y: real)

  datatype DynamicSymbol = DynamicSymbol(symbolId: nat, pos: ScreenPos, visible: bool, flashEnable: bool, flashRateHz: real, style: SymbolStyle, scale: real)

  datatype NumericSymbol = NumericSymbol(fieldId: nat, valid: bool, value: real, units: string, pos: ScreenPos, decimalPlaces: nat)

  /** The two texts the frame can show; the fuel figure's printf formatting is not modelled. */
  datatype HudText = NoText | ArmedNoStores | FuelLow(fuelPercent: real)

  datatype StringSymbol = StringSymbol(fieldId: nat, valid: bool, text: HudText, pos: ScreenPos, fontSize: nat)

  /** The all-zero entries memset leaves. */
  const ZeroDynamic := DynamicSymbol(0, ScreenPos(0.0, 0.0), false, false, 0.0, Normal, 0.0)
  const ZeroNumeric := NumericSymbol(0, false, 0.0, "", ScreenPos(0.0, 0.0), 0)
  const ZeroString := StringSymbol(0, false, NoText, ScreenPos(0.0, 0.0), 0)

  function Clamp01(v: real): (r: real)
    ensures 0.0 <= r <= 1.0
    ensures 0.0 <= v <= 1.0 ==> r == v
  {
    if v < 0.0 then 0.0 else if v > 1.0 then 1.0 else v
  }

  /** map_target_to_symbol for a present target: the linear projection, clamped, and the styling rules. */
  function MapTarget(t: SensorTarget): (s: DynamicSymbol)
    ensures s.visible <==> -FovH <= t.azimuthDeg <= FovH && -FovV <= t.elevationDeg <= FovV
    ensures 0.0 <= s.pos.x <= 1.0 && 0.0 <= s.pos.y <= 1.0
    ensures s.symbolId in {100, 110, 120}
  {
    var az := t.azimuthDeg;
    var el := t.elevationDeg;
    var visible := !(az < -FovH || az > FovH || el < -FovV || el > FovV);
    var flash := t.trackStatus == 1;
    DynamicSymbol(
      if t.sensor == Radar then 100 else if t.sensor == Ir then 120 else 110,
      ScreenPos(Clamp01(0.5 + az / (2.0 * FovH)), Clamp01(0.5 - el / (2.0 * FovV))),
      visible, flash, if flash then 1.0 else 0.0,
      if t.trackStatus == 2 then Normal else Flash,
      1.0)
  }

  /** map_target_to_symbol: a null target gives -1 and no symbol, otherwise 0 and the symbol. */
  function MapTargetToSymbol(t: Option<SensorTarget>): (r: (int, Option<DynamicSymbol>))
    ensures r.0 == -1 <==> t.None?
    ensures r.0 == 0 <==> r.1.Some?
    ensures t.Some? ==> r.1 == Some(MapTarget(t.value))
  {
    match t
    case None => (-1, None)
    case Some(target) => (0, Some(MapTarget(target)))
  }

  function AbsReal(x: real): real { if x < 0.0 then -x else x }

  /**
   * A symbol is visible exactly inside the field of view; its position
   * lies on the screen, and inside the field of view it is the unclamped
   * projection, so the clamp only acts on invisible symbols.
   */
  lemma MapTargetRules(t: SensorTarget)
    ensures var s := MapTarget(t);
      && (s.visible <==> AbsReal(t.azimuthDeg) <= FovH && AbsReal(t.elevationDeg) <= FovV)
      && 0.0 <= s.pos.x <= 1.0 && 0.0 <= s.pos.y <= 1.0
      && (s.visible ==> s.pos == ScreenPos(0.5 + t.azimuthDeg / 120.0, 0.5 - t.elevationDeg / 60.0))
      && (s.symbolId == 100 <==> t.sensor == Radar)
      && (s.symbolId == 120 <==> t.sensor == Ir)
      && (s.symbolId == 110 <==> t.sensor == Das)
      && (s.flashEnable <==> t.trackStatus == 1)
      && (s.flashRateHz == 1.0 <==> t.trackStatus == 1)
      && (s.style == Normal <==> t.trackStatus == 2)
      && s.scale == 1.0
  {
  }

  /** A target dead ahead sits at the screen centre. */
  lemma BoresightIsCentre(t: SensorTarget)
    requires t.azimuthDeg == 0.0 && t.elevationDeg == 0.0
    ensures MapTarget(t).visible && MapTarget(t).pos == ScreenPos(0.5, 0.5)
  {
  }

  /** Page 3 when armed with stores, else 1 when airborne, else 0. */
  function PageFor(inp: HudInputs): (p: nat)
    ensures p in {0, 1, 3}
  {
    if inp.weapon.masterArm != 0 && inp.weapon.weaponCount > 0 then 3
    else if inp.acState.onGround == 0 then 1
    else 0
  }

  lemma PageRule(inp: HudInputs)
    ensures PageFor(inp) == 3 <==> inp.weapon.masterArm != 0 && inp.weapon.weaponCount > 0
    ensures PageFor(inp) == 1 <==> !(inp.weapon.masterArm != 0 && inp.weapon.weaponCount > 0) && inp.acState.onGround == 0
    ensures PageFor(inp) == 0 <==> !(inp.weapon.masterArm != 0 && inp.weapon.weaponCount > 0) && inp.acState.onGround != 0
  {
  }

  const KnotsPerMps: real := 1.943844

  /** The numeric fields: altitude, airspeed in knots and heading with a valid INS, else one invalid altitude. */
  function NumericsFor(inp: HudInputs): seq<NumericSymbol>
  {
    if inp.ins.status == 1 then
      [ NumericSymbol(1, true, inp.ins.altitudeM, "m", ScreenPos(0.92, 0.12), 0),
        NumericSymbol(2, true, inp.acState.airspeedMps * KnotsPerMps, "kts", ScreenPos(0.92, 0.20), 1),
        NumericSymbol(3, true, inp.ins.yawDeg, "deg", ScreenPos(0.92, 0.28), 0) ]
    else
      [ NumericSymbol(1, false, 0.0, "", ScreenPos(0.92, 0.12), 0) ]
  }

  /** Three numeric fields when the INS status is 1, else only the altitude field, marked invalid. */
  lemma NumericsRule(inp: HudInputs)
    ensures |NumericsFor(inp)| == if inp.ins.status == 1 then 3 else 1
    ensures forall i :: 0 <= i < |NumericsFor(inp)| ==> NumericsFor(inp)[i].fieldId == i + 1
    ensures forall i :: 0 <= i < |NumericsFor(inp)| ==> (NumericsFor(inp)[i].valid <==> inp.ins.status == 1)
  {
  }

  /** The visible symbols of a run of targets, in input order. */
  function VisibleSymbols(ts: seq<SensorTarget>): (r: seq<DynamicSymbol>)
    ensures |r| <= |ts|
  {
    if |ts| == 0 then []
    else
      var s := MapTarget(ts[|ts| - 1]);
      VisibleSymbols(ts[..|ts| - 1]) + (if s.visible then [s] else [])
  }

  /** Every listed symbol is visible, and the visible symbol of every target is listed. */
  lemma {:induction false} VisibleSymbolsSound(ts: seq<SensorTarget>)
    ensures forall i :: 0 <= i < |VisibleSymbols(ts)| ==> VisibleSymbols(ts)[i].visible
    ensures forall i :: 0 <= i < |ts| && MapTarget(ts[i]).visible ==> MapTarget(ts[i]) in VisibleSymbols(ts)
  {
    if |ts| > 0 {
      var p := ts[..|ts| - 1];
      VisibleSymbolsSound(p);
      forall i | 0 <= i < |ts| - 1 && MapTarget(ts[i]).visible
        ensures MapTarget(ts[i]) in VisibleSymbols(ts)
      {
        assert ts[i] == p[i];
      }
    }
  }

  /** Symbols of consecutive runs of targets are listed run after run. */
  lemma {:induction false} VisibleSymbolsAppend(a: seq<SensorTarget>, b: seq<SensorTarget>)
    ensures VisibleSymbols(a + b) == VisibleSymbols(a) + VisibleSymbols(b)
    decreases |b|
  {
    if |b| == 0 {
      assert a + b == a;
    } else {
      var b' := b[..|b| - 1];
      assert (a + b)[..|a + b| - 1] == a + b';
      VisibleSymbolsAppend(a, b');
    }
  }

  /** The dynamic symbols of a frame: the visible ones among the first `count` targets. */
  function DynamicsFor(inp: HudInputs): seq<DynamicSymbol>
    requires inp.sensorTargets.count <= |inp.sensorTargets.targets|
  {
    VisibleSymbols(inp.sensorTargets.targets[..inp.sensorTargets.count])
  }

  /** The warning texts: armed with no stores, then low fuel. */
  function StringsFor(inp: HudInputs): seq<StringSymbol>
  {
    (if inp.weapon.masterArm != 0 && inp.weapon.weaponCount == 0
     then [StringSymbol(10, true, ArmedNoStores, ScreenPos(0.5, 0.04), 14)] else [])
    + (if inp.acState.fuelPercent < 20.0
       then [StringSymbol(11, true, FuelLow(inp.acState.fuelPercent), ScreenPos(0.5, 0.07), 12)] else [])
  }

  /** The armed text appears iff armed with no stores, the fuel text iff fuel is under 20%. */
  lemma StringsRule(inp: HudInputs)
    ensures |StringsFor(inp)| <= 2
    ensures (exists i :: 0 <= i < |StringsFor(inp)| && StringsFor(inp)[i].text == ArmedNoStores)
            <==> inp.weapon.masterArm != 0 && inp.weapon.weaponCount == 0
    ensures (exists i :: 0 <= i < |StringsFor(inp)| && StringsFor(inp)[i].text.FuelLow?)
            <==> inp.acState.fuelPercent < 20.0
  {
    var s := StringsFor(inp);
    if inp.weapon.masterArm != 0 && inp.weapon.weaponCount == 0 {
      assert s[0].text == ArmedNoStores;
    }
    if inp.acState.fuelPercent < 20.0 {
      assert s[|s| - 1].text.FuelLow?;
    }
  }

  /** The output packet, filled in place. */
  class HudOutputs {
    var ts: Timestamp
    var pageNumber: nat
    const dyn: array<DynamicSymbol>
    var dynCount: nat
    const num: array<NumericSymbol>
    var numCount: nat
    const str: array<StringSymbol>
    var strCount: nat

    predicate Valid()
      reads this
    {
      dyn.Length == MaxDynamicSymbols && num.Length == MaxNumericSymbols && str.Length == MaxStringSymbols
    }

    constructor ()
      ensures Valid() && fresh(dyn) && fresh(num) && fresh(str)
    {
      ts := Timestamp(0, 0);
      pageNumber := 0;
      dyn := new DynamicSymbol[MaxDynamicSymbols](_ => ZeroDynamic);
      dynCount := 0;
      num := new NumericSymbol[MaxNumericSymbols](_ => ZeroNumeric);
      numCount := 0;
      str := new StringSymbol[MaxStringSymbols](_ => ZeroString);
      strCount := 0;
    }

    /** outputs_reset: everything zero, page 0. */
    method Reset()
      modifies this, dyn, num, str
      ensures ts == Timestamp(0, 0) && pageNumber == 0 && dynCount == 0 && numCount == 0 && strCount == 0
      ensures forall i :: 0 <= i < dyn.Length ==> dyn[i] == ZeroDynamic
      ensures forall i :: 0 <= i < num.Length ==> num[i] == ZeroNumeric
      ensures forall i :: 0 <= i < str.Length ==> str[i] == ZeroString
    {
      forall i | 0 <= i < dyn.Length {
        dyn[i] := ZeroDynamic;
      }
      forall i | 0 <= i < num.Length {
        num[i] := ZeroNumeric;
      }
      forall i | 0 <= i < str.Length {
        str[i] := ZeroString;
      }
      ts := Timestamp(0, 0);
      dynCount := 0;
      numCount := 0;
      strCount := 0;
      pageNumber := 0;
    }

    /**
     * process_frame for a present input packet: after the reset, each
     * array holds its frame's entries first and zeros after.
     */
    method Process(inp: HudInputs)
      requires Valid() && inp.sensorTargets.count <= |inp.sensorTargets.targets| == MaxSensorTargets
      modifies this, dyn, num, str
      ensures ts == inp.ts && pageNumber == PageFor(inp)
      ensures numCount == |NumericsFor(inp)| && num[..numCount] == NumericsFor(inp)
      ensures forall i :: numCount <= i < num.Length ==> num[i] == ZeroNumeric
      ensures dynCount == |DynamicsFor(inp)| && dyn[..dynCount] == DynamicsFor(inp)
      ensures forall i :: dynCount <= i < dyn.Length ==> dyn[i] == ZeroDynamic
      ensures strCount == |StringsFor(inp)| && str[..strCount] == StringsFor(inp)
      ensures forall i :: strCount <= i < str.Length ==> str[i] == ZeroString
    {
      Reset();
      ts := inp.ts;
      if inp.weapon.masterArm != 0 && inp.weapon.weaponCount > 0 {
        pageNumber := 3;
      } else if inp.acState.onGround == 0 {
        pageNumber := 1;
      } else {
        pageNumber := 0;
      }
      EmitNumerics(inp);
      EmitDynamics(inp);
      EmitStrings(inp);
    }

    method EmitNumerics(inp: HudInputs)
      requires Valid() && numCount == 0 && forall i :: 0 <= i < num.Length ==> num[i] == ZeroNumeric
      modifies this, num
      ensures numCount == |NumericsFor(inp)| && num[..numCount] == NumericsFor(inp)
      ensures forall i :: numCount <= i < num.Length ==> num[i] == ZeroNumeric
      ensures ts == old(ts) && pageNumber == old(pageNumber) && dynCount == old(dynCount) && strCount == old(strCount)
    {
      if inp.ins.status == 1 {
        num[0] := NumericSymbol(1, true, inp.ins.altitudeM, "m", ScreenPos(0.92, 0.12), 0);
        num[1] := NumericSymbol(2, true, inp.acState.airspeedMps * 1.943844, "kts", ScreenPos(0.92, 0.20), 1);
        num[2] := NumericSymbol(3, true, inp.ins.yawDeg, "deg", ScreenPos(0.92, 0.28), 0);
        numCount := 3;
      } else {
        num[0] := NumericSymbol(1, false, 0.0, "", ScreenPos(0.92, 0.12), 0);
        numCount := 1;
      }
    }

    method EmitDynamics(inp: HudInputs)
      requires Valid() && inp.sensorTargets.count <= |inp.sensorTargets.targets| == MaxSensorTargets
      requires dynCount == 0 && forall i :: 0 <= i < dyn.Length ==> dyn[i] == ZeroDynamic
      modifies this, dyn
      ensures dynCount == |DynamicsFor(inp)| && dyn[..dynCount] == DynamicsFor(inp)
      ensures forall i :: dynCount <= i < dyn.Length ==> dyn[i] == ZeroDynamic
      ensures ts == old(ts) && pageNumber == old(pageNumber) && numCount == old(numCount) && strCount == old(strCount)
    {
      var ts := inp.sensorTargets.targets;
      var i := 0;
      while i < inp.sensorTargets.count && dynCount < MaxDynamicSymbols
        invariant 0 <= i <= inp.sensorTargets.count
        invariant dynCount == |VisibleSymbols(ts[..i])| <= i
        invariant dyn[..dynCount] == VisibleSymbols(ts[..i])
        invariant forall k :: dynCount <= k < dyn.Length ==> dyn[k] == ZeroDynamic
        invariant this.ts == old(this.ts) && pageNumber == old(pageNumber) && numCount == old(numCount) && strCount == old(strCount)
      {
        assert ts[..i + 1][..i] == ts[..i];
        var sym := MapTarget(ts[i]);
        if sym.visible {
          AppendSymbol(sym);
        }
        i := i + 1;
      }
    }

    method AppendSymbol(sym: DynamicSymbol)
      requires dynCount < dyn.Length
      modifies this, dyn
      ensures dynCount == old(dynCount) + 1
      ensures dyn[..dynCount] == old(dyn[..dynCount]) + [sym]
      ensures forall k :: dynCount <= k < dyn.Length ==> dyn[k] == old(dyn[k])
      ensures ts == old(ts) && pageNumber == old(pageNumber) && numCount == old(numCount) && strCount == old(strCount)
    {
      dyn[dynCount] := sym;
      dynCount := dynCount + 1;
      assert dyn[..dynCount] == dyn[..dynCount - 1] + [sym];
    }

    method EmitStrings(inp: HudInputs)
      requires Valid() && strCount == 0 && forall i :: 0 <= i < str.Length ==> str[i] == ZeroString
      modifies this, str
      ensures strCount == |StringsFor(inp)| && str[..strCount] == StringsFor(inp)
      ensures forall i :: strCount <= i < str.Length ==> str[i] == ZeroString
      ensures ts == old(ts) && pageNumber == old(pageNumber) && dynCount == old(dynCount) && numCount == old(numCount)
    {
      if inp.weapon.masterArm != 0 && inp.weapon.weaponCount == 0 {
        str[strCount] := StringSymbol(10, true, ArmedNoStores, ScreenPos(0.5, 0.04), 14);
        strCount := strCount + 1;
      }
      if inp.acState.fuelPercent < 20.0 {
        str[strCount] := StringSymbol(11, true, FuelLow(inp.acState.fuelPercent), ScreenPos(0.5, 0.07), 12);
        strCount := strCount + 1;
      }
    }
  }

  /**
   * process_frame: -1 with nothing written when either pointer is null,
   * otherwise 0 and the frame.
   */
  method ProcessFrame(inp: Option<HudInputs>, out: HudOutputs?) returns (rc: int)
    requires out != null ==> out.Valid()
    requires inp.Some? ==> inp.value.sensorTargets.count <= |inp.value.sensorTargets.targets| == MaxSensorTargets
    modifies if out == null then {} else {out as object, out.dyn, out.num, out.str}
    ensures rc == 0 <==> inp.Some? && out != null
    ensures rc != 0 ==> rc == -1
    ensures rc == -1 && out != null ==> unchanged(out) && unchanged(out.dyn, out.num, out.str)
    ensures rc == 0 ==>
      && out.ts == inp.value.ts && out.pageNumber == PageFor(inp.value)
      && out.numCount == |NumericsFor(inp.value)| && out.num[..out.numCount] == NumericsFor(inp.value)
      && out.dynCount == |DynamicsFor(inp.value)| && out.dyn[..out.dynCount] == DynamicsFor(inp.value)
      && out.strCount == |StringsFor(inp.value)| && out.str[..out.strCount] == StringsFor(inp.value)
  {
    if inp.None? || out == null {
      return -1;
    }
    out.Process(inp.value);
    return 0;
  }

  /** At most 128 targets are read, so the 256-entry symbol array never fills up. */
  lemma DynamicsFit(inp: HudInputs)
    requires inp.sensorTargets.count <= |inp.sensorTargets.targets| == MaxSensorTargets
    ensures |DynamicsFor(inp)| <= MaxSensorTargets < MaxDynamicSymbols
    ensures forall i :: 0 <= i < |DynamicsFor(inp)| ==> DynamicsFor(inp)[i].visible
  {
    VisibleSymbolsSound(inp.sensorTargets.targets[..inp.sensorTargets.count]);
  }
}
