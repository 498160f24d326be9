/**
 * The electronic-warfare signal processor (ew/ew_sim.c): a heuristic
 * detection score, threat classification, alert level, classification
 * tags and recommended action, gathered into a threat report numbered by
 * a counter that starts at 1000. The clock is a parameter; single
 * precision is modelled by exact reals.
 */
module EwSim {
  datatype SignalType = SigRadar | SigComm | SigJam

  datatype ThreatType = ThrUnknown | ThrRadar | ThrMissileTracking | ThrComms | ThrJammer

  datatype AlertLevel = AlertInfo | AlertWarn | AlertCritical

  datatype Modulation = ModNone | ModAm | ModFm | ModPsk | ModFdm

  datatype SignalInput = SignalInput(
    sourceId: nat, sigType: SignalType, timestampMs: nat, centerFreqHz: real, bandwidthHz: real,
    signalPowerDbm: real, snrDb: real, azimuthDeg: real, elevationDeg: real, rangeM: real,
    priMs: real, pulseWidthUs: real, modulation: Modulation)

  datatype DetectionResult = DetectionResult(
    detected: bool, detectionScore: real, azimuthDeg: real, elevationDeg: real, rangeM: real, centerFreqHz: real)

  /** The score threshold for a detection. */
  const DetectThreshold: real := 0.2

  /** The SNR part of the score: 0.6 above 20 dB, 0.35 above 10 dB, 0.15 above 0 dB. */
  function SnrScore(snrDb: real): (r: real)
    ensures 0.0 <= r <= 0.6
  {
    if snrDb > 20.0 then 0.6 else if snrDb > 10.0 then 0.35 else if snrDb > 0.0 then 0.15 else 0.0
  }

  /** The type-specific part: radar PRI and pulse width, jammer bandwidth, or a communications modulation. */
  function FeatureScore(s: SignalInput): (r: real)
    ensures 0.0 <= r <= 0.4
  {
    match s.sigType
    case SigRadar =>
      (if 0.1 < s.priMs < 1000.0 then 0.25 else 0.0) + (if 0.05 < s.pulseWidthUs < 10000.0 then 0.15 else 0.0)
    case SigJam => if s.bandwidthHz > 100000.0 then 0.3 else 0.0
    case SigComm => if s.modulation != ModNone then 0.25 else 0.0
  }

  /** The detection score: the two parts, capped at 1. */
  function Score(s: SignalInput): real
  {
    var raw := SnrScore(s.snrDb) + FeatureScore(s);
    if raw > 1.0 then 1.0 else raw
  }

  /** The detection result: detected at a score of at least 0.2, geometry and frequency copied. */
  function DetectionOf(s: SignalInput): (r: DetectionResult)
    ensures 0.0 <= r.detectionScore <= 1.0
    ensures r.detected <==> r.detectionScore >= DetectThreshold
    ensures r.azimuthDeg == s.azimuthDeg && r.elevationDeg == s.elevationDeg && r.rangeM == s.rangeM
  {
    DetectionResult(Score(s) >= DetectThreshold, Score(s), s.azimuthDeg, s.elevationDeg, s.rangeM, s.centerFreqHz)
  }

  /**
   * detect_signal: the score is accumulated step by step and capped at 1;
   * the geometry and frequency are copied through.
   */
  method DetectSignal(s: SignalInput) returns (out: DetectionResult)
    ensures out == DetectionOf(s)
    ensures 0.0 <= out.detectionScore <= 1.0
    ensures out.detected <==> out.detectionScore >= DetectThreshold
    ensures out.azimuthDeg == s.azimuthDeg && out.elevationDeg == s.elevationDeg
    ensures out.rangeM == s.rangeM && out.centerFreqHz == s.centerFreqHz
  {
    out := DetectionResult(false, 0.0, s.azimuthDeg, s.elevationDeg, s.rangeM, s.centerFreqHz);
    var score := 0.0;
    if s.snrDb > 20.0 {
      score := score + 0.6;
    } else if s.snrDb > 10.0 {
      score := score + 0.35;
    } else if s.snrDb > 0.0 {
      score := score + 0.15;
    }
    if s.sigType == SigRadar {
      if s.priMs > 0.1 && s.priMs < 1000.0 {
        score := score + 0.25;
      }
      if s.pulseWidthUs > 0.05 && s.pulseWidthUs < 10000.0 {
        score := score + 0.15;
      }
    }
    if s.sigType == SigJam {
      if s.bandwidthHz > 100000.0 {
        score := score + 0.3;
      }
    }
    if s.sigType == SigComm && s.modulation != ModNone {
      score := score + 0.25;
    }
    if score > 1.0 {
      score := 1.0;
    }
    out := out.(detectionScore := score, detected := score >= 0.2);
  }

  /** A stronger signal never scores lower, other things equal. */
  lemma ScoreMonotoneInSnr(s: SignalInput, stronger: real)
    requires stronger >= s.snrDb
    ensures Score(s.(snrDb := stronger)) >= Score(s)
  {
  }

  /** Below 0 dB SNR only the type features count, and only a radar, jammer or modulated link can be detected. */
  lemma WeakSignalNeedsFeatures(s: SignalInput)
    requires s.snrDb <= 0.0
    ensures Score(s) == FeatureScore(s)
    ensures Score(s) >= DetectThreshold <==> FeatureScore(s) >= DetectThreshold
    ensures s.sigType == SigComm ==> (Score(s) >= DetectThreshold <==> s.modulation != ModNone)
  {
  }

  /** classify_threat: by signal type; a radar is a tracking radar when its pulse is narrow, SNR high and PRI short. */
  function ClassifyThreat(s: SignalInput): (t: ThreatType)
    ensures t != ThrUnknown
  {
    match s.sigType
    case SigJam => ThrJammer
    case SigComm => ThrComms
    case SigRadar =>
      if s.pulseWidthUs < 10.0 && s.snrDb > 15.0 then
        if s.priMs < 10.0 then ThrMissileTracking else ThrRadar
      else ThrRadar
  }

  lemma ClassifyRule(s: SignalInput)
    ensures ClassifyThreat(s) == ThrJammer <==> s.sigType == SigJam
    ensures ClassifyThreat(s) == ThrComms <==> s.sigType == SigComm
    ensures ClassifyThreat(s) == ThrMissileTracking <==>
      s.sigType == SigRadar && s.pulseWidthUs < 10.0 && s.snrDb > 15.0 && s.priMs < 10.0
    ensures ClassifyThreat(s) == ThrRadar <==>
      s.sigType == SigRadar && !(s.pulseWidthUs < 10.0 && s.snrDb > 15.0 && s.priMs < 10.0)
  {
  }

  /** assess_alert_level. */
  function AssessAlertLevel(det: DetectionResult, t: ThreatType, s: SignalInput): (r: AlertLevel)
    ensures !det.detected ==> r == AlertInfo
    ensures det.detected && t == ThrMissileTracking ==> r == AlertCritical
    ensures r == AlertWarn ==> det.detectionScore > 0.7 && t != ThrMissileTracking
  {
    if !det.detected then AlertInfo
    else if t == ThrMissileTracking then AlertCritical
    else if s.rangeM > 0.0 && s.rangeM < 500.0 && s.snrDb > 20.0 then AlertCritical
    else if det.detectionScore > 0.7 then AlertWarn
    else AlertInfo
  }

  /**
   * No detection, no alert above INFO; CRITICAL exactly for a detected
   * tracking radar or a close strong signal; WARN exactly for another
   * detection scoring above 0.7.
   */
  lemma AlertRule(det: DetectionResult, t: ThreatType, s: SignalInput)
    ensures !det.detected ==> AssessAlertLevel(det, t, s) == AlertInfo
    ensures AssessAlertLevel(det, t, s) == AlertCritical <==>
      det.detected && (t == ThrMissileTracking || (0.0 < s.rangeM < 500.0 && s.snrDb > 20.0))
    ensures AssessAlertLevel(det, t, s) == AlertWarn <==>
      det.detected && !(t == ThrMissileTracking || (0.0 < s.rangeM < 500.0 && s.snrDb > 20.0))
      && det.detectionScore > 0.7
  {
  }

  /** Bit 0: short pulse; bit 1: wideband. */
  function Tags(s: SignalInput): (tags: bv32)
    ensures tags & 0xFFFF_FFFC == 0
  {
    var t0: bv32 := if 0.0 < s.pulseWidthUs < 50.0 then 1 else 0;
    t0 | (if s.bandwidthHz > 100000.0 then 2 else 0)
  }

  lemma TagBits(s: SignalInput)
    ensures Tags(s) & 1 != 0 <==> 0.0 < s.pulseWidthUs < 50.0
    ensures Tags(s) & 2 != 0 <==> s.bandwidthHz > 100000.0
  {
  }

  function RecommendedAction(level: AlertLevel): (r: string)
    ensures 0 < |r| < 64
    ensures level == AlertInfo <==> r == "LOG_ONLY"
  {
    match level
    case AlertCritical => "WARN_OPERATOR; CONSIDER_CM"
    case AlertWarn => "DISPLAY_PROMINENT"
    case AlertInfo => "LOG_ONLY"
  }

  /** The action text determines the alert level and the alert level the text: one text per level. */
  lemma ActionOnlyFromLevel(a: AlertLevel, b: AlertLevel)
    ensures RecommendedAction(a) == RecommendedAction(b) <==> a == b
    ensures |RecommendedAction(a)| < 64
  {
    if a != b {
      assert RecommendedAction(a)[0] != RecommendedAction(b)[0] || |RecommendedAction(a)| != |RecommendedAction(b)|;
    }
  }

  datatype ThreatReport = ThreatReport(
    reportId: nat, detectedTimeMs: nat, sourceId: nat, threatType: ThreatType, confidence: real,
    alertLevel: AlertLevel, azimuthDeg: real, elevationDeg: real, rangeM: real, centerFreqHz: real,
    classificationTags: bv32, recommendedAction: string, snrDb: real, priMs: real, pulseWidthUs: real)

  /** The report build_report fills in, for report number `id` at clock reading `nowMs`. */
  function ReportOf(s: SignalInput, det: DetectionResult, id: nat, nowMs: nat): (r: ThreatReport)
    ensures r.reportId == id && r.detectedTimeMs == nowMs && r.sourceId == s.sourceId
    ensures r.threatType != ThrUnknown && r.confidence == det.detectionScore
    ensures r.recommendedAction == RecommendedAction(r.alertLevel)
    ensures !det.detected ==> r.alertLevel == AlertInfo
    ensures r.classificationTags & 0xFFFF_FFFC == 0
  {
    var threat := ClassifyThreat(s);
    var level := AssessAlertLevel(det, threat, s);
    ThreatReport(id, nowMs, s.sourceId, threat, det.detectionScore, level,
                 det.azimuthDeg, det.elevationDeg, det.rangeM, det.centerFreqHz,
                 Tags(s), RecommendedAction(level), s.snrDb, s.priMs, s.pulseWidthUs)
  }

  /** A report's confidence is its detection score, its action follows its alert level, and its geometry is the detection's. */
  lemma ReportConsistent(s: SignalInput, id: nat, nowMs: nat)
    ensures var r := ReportOf(s, DetectionOf(s), id, nowMs);
      && r.confidence == Score(s) && 0.0 <= r.confidence <= 1.0
      && r.recommendedAction == RecommendedAction(r.alertLevel)
      && (r.alertLevel != AlertInfo ==> r.confidence >= DetectThreshold)
      && r.azimuthDeg == s.azimuthDeg && r.rangeM == s.rangeM
  {
  }

  /** The static counter of next_report_id. */
  class ReportIds {
    var next: nat

    constructor ()
      ensures next == 1000
    {
      next := 1000;
    }

    method NextReportId() returns (id: nat)
      modifies this
      ensures id == old(next) && next == id + 1
    {
      id := next;
      next := next + 1;
    }

    /** build_report: the next report number, the clock reading and the classification. */
    method BuildReport(s: SignalInput, det: DetectionResult, nowMs: nat) returns (rep: ThreatReport)
      modifies this
      ensures rep == ReportOf(s, det, old(next), nowMs) && next == old(next) + 1
    {
      var id := NextReportId();
      var threat := ClassifyThreat(s);
      var level := AssessAlertLevel(det, threat, s);
      var tags: bv32 := 0;
      if s.pulseWidthUs > 0.0 && s.pulseWidthUs < 50.0 {
        tags := tags | 1;
      }
      if s.bandwidthHz > 100000.0 {
        tags := tags | 2;
      }
      rep := ThreatReport(id, nowMs, s.sourceId, threat, det.detectionScore, level,
                          det.azimuthDeg, det.elevationDeg, det.rangeM, det.centerFreqHz,
                          tags, RecommendedAction(level), s.snrDb, s.priMs, s.pulseWidthUs);
    }
  }

  /** Report numbers start at 1000 and each report gets a larger one than the one before. */
  method ReportNumbering(a: SignalInput, b: SignalInput, t1: nat, t2: nat) returns (r1: ThreatReport, r2: ThreatReport)
    ensures r1.reportId == 1000 && r2.reportId == 1001
  {
    var ids := new ReportIds();
    var d1 := DetectSignal(a);
    r1 := ids.BuildReport(a, d1, t1);
    var d2 := DetectSignal(b);
    r2 := ids.BuildReport(b, d2, t2);
  }

  /** Successive calls give strictly increasing numbers. */
  method IdsIncrease(ids: ReportIds) returns (first: nat, second: nat)
    modifies ids
    ensures first < second && first == old(ids.next)
  {
    first := ids.NextReportId();
    second := ids.NextReportId();
  }
}
