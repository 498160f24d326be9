/**
 * The radar simulator's mode and antenna state (RadarSimulatorCore in
 * radar_core.py): fifteen working modes, a per-mode scan rate and carrier
 * frequency table, and an antenna angle swept every 30 ms.
 */
module RadarCore {
  import opened Common

  datatype RadarMode =
    | VelocitySearch | RangeSearch | TargetTrack | ScanTrack | AirCombat
    | MapMapping | FreezeFrame | BeamSharpening | Beacon | WeatherDetect
    | CollisionAvoid | Identify | AntiJam | SeaSearch1 | SeaSearch2

  /** The enum member's value: the mode's display name. */
  function ModeName(m: RadarMode): string
  {
    match m
    case VelocitySearch => "速度搜索模式"
    case RangeSearch => "搜索测距模式"
    case TargetTrack => "目标跟踪模式"
    case ScanTrack => "扫描跟踪模式"
    case AirCombat => "空中格斗模式"
    case MapMapping => "地图测绘模式"
    case FreezeFrame => "画面冻结模式"
    case BeamSharpening => "波束锐化模式"
    case Beacon => "信标模式"
    case WeatherDetect => "气象探测模式"
    case CollisionAvoid => "防撞模式"
    case Identify => "识别模式"
    case AntiJam => "抗干扰模式"
    case SeaSearch1 => "空海搜索模式1"
    case SeaSearch2 => "空海搜索模式2"
  }

  datatype ModeSettings = ModeSettings(scanRate: real, frequency: real)

  /** The table set_mode consults; IDENTIFY has no entry. */
  function ModeTable(m: RadarMode): Option<ModeSettings>
  {
    match m
    case VelocitySearch => Some(ModeSettings(120.0, 9.6e9))
    case RangeSearch => Some(ModeSettings(60.0, 9.4e9))
    case TargetTrack => Some(ModeSettings(30.0, 9.5e9))
    case ScanTrack => Some(ModeSettings(45.0, 9.4e9))
    case AirCombat => Some(ModeSettings(180.0, 9.7e9))
    case MapMapping => Some(ModeSettings(15.0, 9.3e9))
    case FreezeFrame => Some(ModeSettings(0.0, 9.4e9))
    case BeamSharpening => Some(ModeSettings(20.0, 9.8e9))
    case Beacon => Some(ModeSettings(0.0, 1.0e9))
    case WeatherDetect => Some(ModeSettings(25.0, 5.6e9))
    case CollisionAvoid => Some(ModeSettings(90.0, 9.9e9))
    case Identify => None
    case AntiJam => Some(ModeSettings(100.0, 10.0e9))
    case SeaSearch1 => Some(ModeSettings(40.0, 9.2e9))
    case SeaSearch2 => Some(ModeSettings(35.0, 9.1e9))
  }

  datatype ModeConfig = ModeConfig(scanRate: real, frequency: real, description: string)

  /**
   * get_mode_config: its own copy of the table with a description per mode,
   * and a default entry for modes it does not list. It agrees with the
   * table set_mode uses, and every description is the mode's name.
   */
  function GetModeConfig(m: RadarMode): (c: ModeConfig)
    ensures ModeTable(m).Some? ==>
      c.scanRate == ModeTable(m).value.scanRate && c.frequency == ModeTable(m).value.frequency
      && c.description == ModeName(m)
    ensures ModeTable(m).None? ==> c == ModeConfig(60.0, 9.4e9, "默认模式")
    ensures c.scanRate >= 0.0 && c.frequency > 0.0
  {
    match m
    case VelocitySearch => ModeConfig(120.0, 9.6e9, "速度搜索模式")
    case RangeSearch => ModeConfig(60.0, 9.4e9, "搜索测距模式")
    case TargetTrack => ModeConfig(30.0, 9.5e9, "目标跟踪模式")
    case ScanTrack => ModeConfig(45.0, 9.4e9, "扫描跟踪模式")
    case AirCombat => ModeConfig(180.0, 9.7e9, "空中格斗模式")
    case MapMapping => ModeConfig(15.0, 9.3e9, "地图测绘模式")
    case FreezeFrame => ModeConfig(0.0, 9.4e9, "画面冻结模式")
    case BeamSharpening => ModeConfig(20.0, 9.8e9, "波束锐化模式")
    case Beacon => ModeConfig(0.0, 1.0e9, "信标模式")
    case WeatherDetect => ModeConfig(25.0, 5.6e9, "气象探测模式")
    case CollisionAvoid => ModeConfig(90.0, 9.9e9, "防撞模式")
    case AntiJam => ModeConfig(100.0, 10.0e9, "抗干扰模式")
    case SeaSearch1 => ModeConfig(40.0, 9.2e9, "空海搜索模式1")
    case SeaSearch2 => ModeConfig(35.0, 9.1e9, "空海搜索模式2")
    case _ => ModeConfig(60.0, 9.4e9, "默认模式")
  }

  /** The radar_status dictionary. */
  datatype RadarStatus = RadarStatus(
    powerOn: bool, antennaAngle: real, scanRate: real, frequency: real, prf: int, bandwidth: real)

  const InitialStatus := RadarStatus(true, 0.0, 60.0, 9.4e9, 1000, 1e6)

  /** The antenna sweep per 30 ms tick: no movement unless the scan rate is positive. */
  function SweptAngle(angle: real, scanRate: real): (a: real)
    ensures scanRate > 0.0 ==> 0.0 <= a < 360.0
    ensures scanRate <= 0.0 ==> a == angle
    ensures scanRate > 0.0 && 0.0 <= angle + scanRate * 0.03 < 360.0 ==> a == angle + scanRate * 0.03
  {
    if scanRate > 0.0 then FloorMod(angle + scanRate * 0.03, 360.0) else angle
  }

  class RadarSimulator {
    var currentMode: RadarMode
    var status: RadarStatus

    constructor ()
      ensures currentMode == RangeSearch && status == InitialStatus
    {
      currentMode := RangeSearch;
      status := InitialStatus;
    }

    /** set_mode: records the mode and, when the table lists it, copies its settings. */
    method SetMode(mode: RadarMode)
      modifies this
      ensures currentMode == mode
      ensures ModeTable(mode).Some? ==> status == old(status).(
        scanRate := ModeTable(mode).value.scanRate, frequency := ModeTable(mode).value.frequency)
      ensures ModeTable(mode).None? ==> status == old(status)
    {
      currentMode := mode;
      var config := ModeTable(mode);
      if config.Some? {
        status := status.(scanRate := config.value.scanRate, frequency := config.value.frequency);
      }
    }

    /** update_antenna_angle: advances by scan_rate * 0.03 and wraps with Python's float modulo. */
    method UpdateAntennaAngle()
      modifies this
      ensures currentMode == old(currentMode)
      ensures status == old(status).(antennaAngle := SweptAngle(old(status.antennaAngle), old(status.scanRate)))
      ensures old(status.scanRate) > 0.0 ==> 0.0 <= status.antennaAngle < 360.0
      ensures old(status.scanRate) <= 0.0 ==> status == old(status)
    {
      if status.scanRate > 0.0 {
        var angle := status.antennaAngle + status.scanRate * 0.03;
        angle := FloorMod(angle, 360.0);
        status := status.(antennaAngle := angle);
      }
    }

    /** get_radar_status_data: one antenna tick, then a copy of the status. */
    method GetRadarStatusData() returns (s: RadarStatus)
      modifies this
      ensures currentMode == old(currentMode)
      ensures status == old(status).(antennaAngle := SweptAngle(old(status.antennaAngle), old(status.scanRate)))
      ensures s == status
    {
      UpdateAntennaAngle();
      s := status;
    }
  }
}
