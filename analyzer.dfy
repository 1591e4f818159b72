/**
  The decision layer of the main window (PowerAnalyzer in rssi_868.py)
  between the acquisition thread and the detailed log: the logging gate and
  the temporal filter it consults, the detailed-log counter, the bounded
  metric histories, clearing the log and loading a preset into the shared GUI
  configuration. Widgets, plots and log-line formatting are not modelled;
  clock readings, the auto-log check box and the spin-box values are
  parameters.
 */
module Analyzer {
  import opened Wrappers
  import opened OrderedDict
  import opened DedupFilter
  import opened Detector
  import opened MetricHistory
  import opened Config

  /** The values one line of the detailed log is formatted from (the timestamp is left out). */
  datatype LogRecord = LogRecord(rssi: real, peakPower: real, freqMhz: real, offsetKhz: real,
                                 signalPower: real, threshold: real)

  /**
    The condition under which `update_data` consults the filter: a detection,
    auto-log switched on, and a power strictly above the log threshold.
   */
  predicate LogGate(info: DominantFrequency, autoLog: bool, logThreshold: real) {
    info.Detected? && autoLog && info.power > logThreshold
  }

  /**
    The filter's part of one `update_data` call. Python's `and` short-circuits,
    so when the gate is closed the filter is not called and its table stays as
    it was.
   */
  function CycleVerdict(h: History, info: DominantFrequency, autoLog: bool, logThreshold: real,
                        now: real, tolerance: real, timeout: real): (v: Verdict)
    requires DistinctKeys(h)
    ensures !LogGate(info, autoLog, logThreshold) ==> v == Verdict(false, h)
    ensures DistinctKeys(v.history)
  {
    if LogGate(info, autoLog, logThreshold) then ShouldLog(h, info.frequency, now, tolerance, timeout)
    else Verdict(false, h)
  }

  /** The log line written for a detection that passed the gate and the filter. */
  function RecordOf(info: DominantFrequency, rssi: real, peakPower: real, logThreshold: real): LogRecord
    requires info.Detected?
  {
    LogRecord(rssi, peakPower, info.frequency / 1000000.0, info.freqOffset / 1000.0, info.power, logThreshold)
  }

  /**
    A spectrum is logged only if its peak is strictly above both the detection
    and the log threshold and auto-log is on.
   */
  lemma LoggedOnlyAboveBothThresholds(h: History, fftData: seq<real>, freqAxis: seq<real>, centerFreq: real,
                                      detectionThreshold: real, autoLog: bool, logThreshold: real,
                                      now: real, tolerance: real, timeout: real)
    requires DistinctKeys(h) && |fftData| > 0 && |freqAxis| == |fftData|
    ensures var info := FindDominantFrequency(fftData, freqAxis, centerFreq, None, detectionThreshold);
      CycleVerdict(h, info, autoLog, logThreshold, now, tolerance, timeout).log ==>
        autoLog && PeakPower(fftData) > detectionThreshold && PeakPower(fftData) > logThreshold
  {
    DetectionAgreesWithPeakPower(fftData, freqAxis, centerFreq, None, detectionThreshold);
  }

  /** A spectrum whose peak is at or below the log threshold leaves the filter's table untouched. */
  lemma QuietSpectrumLeavesFilterAlone(h: History, fftData: seq<real>, freqAxis: seq<real>, centerFreq: real,
                                       detectionThreshold: real, autoLog: bool, logThreshold: real,
                                       now: real, tolerance: real, timeout: real)
    requires DistinctKeys(h) && |fftData| > 0 && |freqAxis| == |fftData|
    requires PeakPower(fftData) <= logThreshold
    ensures CycleVerdict(h, FindDominantFrequency(fftData, freqAxis, centerFreq, None, detectionThreshold),
                         autoLog, logThreshold, now, tolerance, timeout) == Verdict(false, h)
  {
    DetectionAgreesWithPeakPower(fftData, freqAxis, centerFreq, None, detectionThreshold);
  }

  class PowerAnalyzer {
    /** `self.config`: the same object as SDRConfig's `GUI_CONFIG`. */
    const config: GuiConfig
    const startTime: real
    var frequencyLogHistory: History
    var logCount: int
    var detailedLog: seq<LogRecord>
    var timeHistory: seq<real>
    var rssiHistory: seq<real>
    var peakPowerHistory: seq<real>

    /**
      The filter's table is a dict; the counter counts the detailed log's lines
      (the window's language switch, which empties the log widget but keeps the
      counter, is outside this model); the three histories are parallel and bounded.
     */
    ghost predicate Valid()
      reads this
    {
      && DistinctKeys(frequencyLogHistory)
      && logCount == |detailedLog|
      && |timeHistory| == |rssiHistory| == |peakPowerHistory| <= HistoryCapacity
    }

    /** The state `__init__` sets up; `startTime` is the clock reading taken there. */
    constructor (sdrConfig: SdrConfig, startTime: real)
      ensures Valid()
      ensures config == sdrConfig.guiConfig && this.startTime == startTime
      ensures frequencyLogHistory == [] && logCount == 0 && detailedLog == []
      ensures timeHistory == [] && rssiHistory == [] && peakPowerHistory == []
    {
      config := sdrConfig.guiConfig;
      this.startTime := startTime;
      frequencyLogHistory := [];
      logCount := 0;
      detailedLog := [];
      timeHistory, rssiHistory, peakPowerHistory := [], [], [];
    }

    /**
      `should_log_frequency`, with the clock reading `now` and the configured
      tolerance (Hz) and timeout (s) as parameters. It scans a snapshot of the
      table in insertion order and acts on the first entry within tolerance.
     */
    method ShouldLogFrequency(frequency: real, now: real, tolerance: real, timeout: real) returns (ok: bool)
      requires Valid()
      modifies this`frequencyLogHistory
      ensures Valid()
      ensures ok == ShouldLog(old(frequencyLogHistory), frequency, now, tolerance, timeout).log
      ensures frequencyLogHistory == ShouldLog(old(frequencyLogHistory), frequency, now, tolerance, timeout).history
    {
      var items := frequencyLogHistory;
      var k := 0;
      while k < |items|
        invariant 0 <= k <= |items|
        invariant frequencyLogHistory == items
        invariant forall j :: 0 <= j < k ==> !SameChannel(frequency, items[j].0, tolerance)
      {
        var (loggedFreq, lastTime) := items[k];
        if Abs(frequency - loggedFreq) <= tolerance {
          assert IsFirstMatch(items, frequency, tolerance, k);
          FirstMatchUnique(items, frequency, tolerance, FirstMatch(items, frequency, tolerance).value, k);
          if now - lastTime < timeout {
            return false;
          } else {
            assert HasKey(items, loggedFreq);
            frequencyLogHistory := Delete(frequencyLogHistory, loggedFreq);
            frequencyLogHistory := Assign(frequencyLogHistory, frequency, now);
            return true;
          }
        }
        k := k + 1;
      }
      frequencyLogHistory := Assign(frequencyLogHistory, frequency, now);
      var cutoffTime := now - RetentionSeconds;
      PruneKeepsKeysDistinct(frequencyLogHistory, cutoffTime);
      frequencyLogHistory := Prune(frequencyLogHistory, cutoffTime);
      return true;
    }

    /** `log_detailed_measurement`: one more line in the detailed log, and the counter follows. */
    method LogDetailedMeasurement(rssi: real, peakPower: real, freqMhz: real, offsetKhz: real,
                                  signalPower: real, threshold: real)
      requires Valid()
      modifies this`detailedLog, this`logCount
      ensures Valid()
      ensures detailedLog == old(detailedLog) + [LogRecord(rssi, peakPower, freqMhz, offsetKhz, signalPower, threshold)]
      ensures logCount == old(logCount) + 1
    {
      detailedLog := detailedLog + [LogRecord(rssi, peakPower, freqMhz, offsetKhz, signalPower, threshold)];
      logCount := logCount + 1;
    }

    /**
      The model-relevant part of `update_data`: the logging gate, the filter and
      the detailed log, then one sample appended to each history with the oldest
      dropped past the capacity. `now` is the filter's clock reading, `clock` the
      one the history is stamped with.
     */
    method UpdateData(info: DominantFrequency, rssi: real, peakPower: real, autoLog: bool, logThreshold: real,
                      now: real, tolerance: real, timeout: real, clock: real)
      requires Valid()
      modifies this`frequencyLogHistory, this`detailedLog, this`logCount
      modifies this`timeHistory, this`rssiHistory, this`peakPowerHistory
      ensures Valid()
      ensures var v := CycleVerdict(old(frequencyLogHistory), info, autoLog, logThreshold, now, tolerance, timeout);
        && frequencyLogHistory == v.history
        && detailedLog == old(detailedLog) + if v.log then [RecordOf(info, rssi, peakPower, logThreshold)] else []
      ensures timeHistory == Push(old(timeHistory), clock - startTime)
      ensures rssiHistory == Push(old(rssiHistory), rssi)
      ensures peakPowerHistory == Push(old(peakPowerHistory), peakPower)
    {
      if info.Detected? {
        var freqMhz := info.frequency / 1000000.0;
        var offsetKhz := info.freqOffset / 1000.0;
        var powerDb := info.power;
        if autoLog && powerDb > logThreshold {
          var ok := ShouldLogFrequency(info.frequency, now, tolerance, timeout);
          if ok {
            LogDetailedMeasurement(rssi, peakPower, freqMhz, offsetKhz, powerDb, logThreshold);
          }
        }
      }

      var currentTime := clock - startTime;
      timeHistory := timeHistory + [currentTime];
      rssiHistory := rssiHistory + [rssi];
      peakPowerHistory := peakPowerHistory + [peakPower];
      if |timeHistory| > HistoryCapacity {
        timeHistory := timeHistory[1..];
        rssiHistory := rssiHistory[1..];
        peakPowerHistory := peakPowerHistory[1..];
      }
    }

    /** `clear_detailed_log`: empties the detailed log, resets the counter and forgets every channel. */
    method ClearDetailedLog()
      requires Valid()
      modifies this`detailedLog, this`logCount, this`frequencyLogHistory
      ensures Valid()
      ensures detailedLog == [] && logCount == 0 && frequencyLogHistory == []
    {
      detailedLog := [];
      logCount := 0;
      frequencyLogHistory := [];
    }

    /**
      `load_preset_config`: a known preset overwrites only the `default` of
      frequency, sample rate, bandwidth and gain in the shared GUI configuration,
      keeping ranges and decimals; an unknown name changes nothing.
     */
    method LoadPresetConfig(presetName: string)
      modifies config
      ensures presetName in Presets() ==>
        var p := Presets()[presetName];
        && config.frequency == old(config.frequency).(default := p.frequency)
        && config.sampleRate == old(config.sampleRate).(default := p.sampleRate)
        && config.bandwidth == old(config.bandwidth).(default := p.bandwidth)
        && config.gain == old(config.gain).(default := p.gain)
      ensures presetName !in Presets() ==>
        && config.frequency == old(config.frequency) && config.sampleRate == old(config.sampleRate)
        && config.bandwidth == old(config.bandwidth) && config.gain == old(config.gain)
      ensures config.bufferSizes == old(config.bufferSizes) && config.defaultBuffer == old(config.defaultBuffer)
    {
      var presets := Presets();
      if presetName in presets {
        var values := presets[presetName];
        config.frequency := config.frequency.(default := values.frequency);
        config.sampleRate := config.sampleRate.(default := values.sampleRate);
        config.bandwidth := config.bandwidth.(default := values.bandwidth);
        config.gain := config.gain.(default := values.gain);
      }
    }
  }
}
