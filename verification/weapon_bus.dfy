/**
 * The bus rate limiter (weapon/sim_core/bus.py): a frame is sent only if
 * the bytes sent so far plus the payload fit the budget the elapsed time
 * allows; the sent-byte history keeps the last 200 entries. The clock is
 * a parameter.
 */
module WeaponBus {
  import opened Common

  const HistoryCap: nat := 200

  datatype BusConfig = BusConfig(name: string, bandwidthBps: int, frameSizeBytes: int, refreshHz: real)

  datatype BusStats = BusStats(
    bytesSent: int, packetsSent: int, bitErrorRate: real, errors: int, drops: int,
    lastUpdateTs: real, historyBytes: seq<int>, historyTs: seq<real>)

  /** The dataclass defaults, with the clock reading taken when they were evaluated. */
  function InitialStats(start: real): BusStats
  {
    BusStats(0, 0, 0.0, 0, 0, start, [], [])
  }

  /** The byte budget: bandwidth times elapsed seconds over 8, truncated; one frame if no time passed. */
  function MaxBytes(cfg: BusConfig, elapsed: real): int
  {
    if elapsed > 0.0 then TruncToInt(cfg.bandwidthBps as real * elapsed / 8.0) else cfg.frameSizeBytes
  }

  /** The last HistoryCap entries of a history list. */
  function Recent<T>(s: seq<T>): (r: seq<T>)
    ensures |r| == if |s| > HistoryCap then HistoryCap else |s|
  {
    if |s| > HistoryCap then s[|s| - HistoryCap..] else s
  }

  datatype Sent = Sent(ok: bool, stats: BusStats)

  /** send_frame(payload_size) at clock reading `now`. */
  function SendOutcome(cfg: BusConfig, st: BusStats, payload: int, now: real): Sent
  {
    if st.bytesSent + payload > MaxBytes(cfg, now - st.lastUpdateTs) then
      Sent(false, st.(drops := st.drops + 1))
    else
      var total := st.bytesSent + payload;
      var hb := st.historyBytes + [total];
      var hts := st.historyTs + [now];
      var trim := |hb| > HistoryCap;
      Sent(true, st.(bytesSent := total, packetsSent := st.packetsSent + 1, lastUpdateTs := now,
                     historyBytes := if trim then Recent(hb) else hb,
                     historyTs := if trim then Recent(hts) else hts))
  }

  /** Appending x and keeping the last entries leaves x last, after a suffix of h. */
  lemma RecentSnoc<T>(h: seq<T>, x: T)
    ensures var r := Recent(h + [x]);
      |r| > 0 && r[|r| - 1] == x && r[..|r| - 1] == h[|h| + 1 - |r|..]
  {
    var hx := h + [x];
    if |hx| > HistoryCap {
      assert Recent(hx) == hx[|hx| - HistoryCap..];
      assert hx[|hx| - HistoryCap..][..HistoryCap - 1] == h[|h| + 1 - HistoryCap..];
    } else {
      assert hx[..|hx| - 1] == h;
    }
  }

  /** The two history lists run in step and never exceed the cap. */
  predicate HistoryOk(st: BusStats)
  {
    |st.historyBytes| == |st.historyTs| <= HistoryCap
  }

  class BusSimulator {
    const cfg: BusConfig
    var stats: BusStats

    constructor (cfg: BusConfig, start: real)
      ensures this.cfg == cfg && stats == InitialStats(start) && HistoryOk(stats)
    {
      this.cfg := cfg;
      stats := InitialStats(start);
    }

    method SendFrame(payload: int, now: real) returns (ok: bool)
      modifies this
      ensures Sent(ok, stats) == SendOutcome(cfg, old(stats), payload, now)
    {
      var st := stats;
      var elapsed := now - st.lastUpdateTs;
      var maxBytes := if elapsed > 0.0 then TruncToInt(cfg.bandwidthBps as real * elapsed / 8.0) else cfg.frameSizeBytes;
      if st.bytesSent + payload > maxBytes {
        stats := st.(drops := st.drops + 1);
        return false;
      }
      st := st.(bytesSent := st.bytesSent + payload);
      st := st.(packetsSent := st.packetsSent + 1);
      st := st.(lastUpdateTs := now);
      st := st.(historyBytes := st.historyBytes + [st.bytesSent]);
      st := st.(historyTs := st.historyTs + [now]);
      if |st.historyBytes| > HistoryCap {
        st := st.(historyBytes := Recent(st.historyBytes), historyTs := Recent(st.historyTs));
      }
      stats := st;
      return true;
    }
  }

  // ---------------------------------------------------------------------
  // Properties of send_frame

  /** Over budget: the frame is dropped, drops grows by one and nothing else changes. */
  lemma SendDropped(cfg: BusConfig, st: BusStats, payload: int, now: real)
    requires st.bytesSent + payload > MaxBytes(cfg, now - st.lastUpdateTs)
    ensures SendOutcome(cfg, st, payload, now) == Sent(false, st.(drops := st.drops + 1))
  {
  }

  /**
   * Within budget: the byte and packet counters grow by the payload and
   * one, the clock reading is kept, and the history ends with the new
   * running total and clock reading after the kept earlier entries.
   */
  lemma SendAccepted(cfg: BusConfig, st: BusStats, payload: int, now: real)
    requires HistoryOk(st)
    requires st.bytesSent + payload <= MaxBytes(cfg, now - st.lastUpdateTs)
    ensures var r := SendOutcome(cfg, st, payload, now);
      && r.ok
      && r.stats.bytesSent == st.bytesSent + payload && r.stats.packetsSent == st.packetsSent + 1
      && r.stats.lastUpdateTs == now && r.stats.drops == st.drops
      && |r.stats.historyBytes| > 0
      && r.stats.historyBytes[|r.stats.historyBytes| - 1] == r.stats.bytesSent
      && r.stats.historyTs[|r.stats.historyTs| - 1] == now
      && r.stats.historyBytes[..|r.stats.historyBytes| - 1]
         == st.historyBytes[|st.historyBytes| + 1 - |r.stats.historyBytes|..]
  {
    var total := st.bytesSent + payload;
    AcceptedState(cfg, st, payload, now);
    var r := SendOutcome(cfg, st, payload, now).stats;
    assert r.historyBytes == Recent(st.historyBytes + [total]);
    assert r.historyTs == Recent(st.historyTs + [now]);
    RecentSnoc(st.historyBytes, total);
    RecentSnoc(st.historyTs, now);
  }

  lemma AcceptedState(cfg: BusConfig, st: BusStats, payload: int, now: real)
    requires HistoryOk(st)
    requires st.bytesSent + payload <= MaxBytes(cfg, now - st.lastUpdateTs)
    ensures SendOutcome(cfg, st, payload, now) == Sent(true, st.(
      bytesSent := st.bytesSent + payload, packetsSent := st.packetsSent + 1, lastUpdateTs := now,
      historyBytes := Recent(st.historyBytes + [st.bytesSent + payload]),
      historyTs := Recent(st.historyTs + [now])))
  {
    var hb, hts := st.historyBytes + [st.bytesSent + payload], st.historyTs + [now];
    if |hb| <= HistoryCap {
      assert Recent(hb) == hb && Recent(hts) == hts;
    }
  }

  /** Both history lists stay equal in length and at most 200 long. */
  lemma SendKeepsHistory(cfg: BusConfig, st: BusStats, payload: int, now: real)
    requires HistoryOk(st)
    ensures HistoryOk(SendOutcome(cfg, st, payload, now).stats)
  {
  }

  /** With a non-negative payload the byte, packet and drop counters never decrease. */
  lemma SendMonotone(cfg: BusConfig, st: BusStats, payload: int, now: real)
    requires payload >= 0
    ensures var r := SendOutcome(cfg, st, payload, now).stats;
      r.bytesSent >= st.bytesSent && r.packetsSent >= st.packetsSent && r.drops >= st.drops
  {
  }

  /** A negative payload size is always accepted by the budget test and lowers the byte count. */
  lemma NegativePayloadLowersCount(cfg: BusConfig, st: BusStats, payload: int, now: real)
    requires payload < 0 && st.bytesSent <= MaxBytes(cfg, now - st.lastUpdateTs)
    ensures SendOutcome(cfg, st, payload, now).ok
    ensures SendOutcome(cfg, st, payload, now).stats.bytesSent < st.bytesSent
  {
  }
}
