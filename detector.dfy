/**
  The dominant-frequency detector of the acquisition thread
  (PlutoThread.calculate_peak_power and PlutoThread.find_dominant_frequency in
  rssi_868.py): the strongest bin of a magnitude spectrum, tested strictly
  against the detection threshold. The spectrum and its frequency axis are
  inputs; the FFT that produces them is not part of this model.
 */
module Detector {
  import opened Wrappers

  /** Index `i` holds the maximum of `s`, and no earlier index does. */
  ghost predicate IsFirstPeak(s: seq<real>, i: nat) {
    && i < |s|
    && (forall j :: 0 <= j < |s| ==> s[j] <= s[i])
    && (forall j :: 0 <= j < i ==> s[j] < s[i])
  }

  /** `np.max`: the largest magnitude. */
  function PeakPower(s: seq<real>): (r: real)
    requires |s| > 0
    ensures r in s
    ensures forall j :: 0 <= j < |s| ==> s[j] <= r
  {
    if |s| == 1 then s[0]
    else
      var m := PeakPower(s[..|s| - 1]);
      if s[|s| - 1] > m then s[|s| - 1] else m
  }

  /** `np.argmax`: the first index of the largest magnitude. */
  function ArgMax(s: seq<real>): (i: nat)
    requires |s| > 0
    ensures IsFirstPeak(s, i)
  {
    if |s| == 1 then 0
    else
      var k := ArgMax(s[..|s| - 1]);
      if s[|s| - 1] > s[k] then |s| - 1 else k
  }

  /** Only one index is the first peak. */
  lemma FirstPeakUnique(s: seq<real>, i: nat, j: nat)
    requires IsFirstPeak(s, i) && IsFirstPeak(s, j)
    ensures i == j
  {
    assert s[i] <= s[j] && s[j] <= s[i];
  }

  /** The peak power is the magnitude found at the argmax. */
  lemma PeakPowerAtArgMax(s: seq<real>)
    requires |s| > 0
    ensures PeakPower(s) == s[ArgMax(s)]
  {
  }

  /** The detection record: `{'detected': False}` or the peak's frequency, offset and power. */
  datatype DominantFrequency =
    | NotDetected
    | Detected(frequency: real, freqOffset: real, power: real)

  /**
    `find_dominant_frequency`: `thresholdDb` is the optional argument, which
    falls back to the configured detection threshold `configuredThreshold`.
   */
  function FindDominantFrequency(fftData: seq<real>, freqAxis: seq<real>, centerFreq: real,
                                 thresholdDb: Option<real>, configuredThreshold: real): (r: DominantFrequency)
    requires |fftData| > 0 && |freqAxis| == |fftData|
    ensures r.Detected? <==> PeakPower(fftData) > thresholdDb.GetOr(configuredThreshold)
    ensures r.Detected? ==>
              exists i: nat :: IsFirstPeak(fftData, i) && r.freqOffset == freqAxis[i] &&
                               r.frequency == centerFreq + freqAxis[i] && r.power == fftData[i]
  {
    var threshold := thresholdDb.GetOr(configuredThreshold);
    var peakIdx := ArgMax(fftData);
    var peakPower := fftData[peakIdx];
    PeakPowerAtArgMax(fftData);
    if peakPower > threshold then
      var freqOffset := freqAxis[peakIdx];
      Detected(centerFreq + freqOffset, freqOffset, peakPower)
    else
      NotDetected
  }

  /**
    A detection reports the peak power of the same spectrum, lies `freqOffset`
    above the centre frequency, and its offset is one of the axis values.
   */
  lemma DetectionAgreesWithPeakPower(fftData: seq<real>, freqAxis: seq<real>, centerFreq: real,
                                     thresholdDb: Option<real>, configuredThreshold: real)
    requires |fftData| > 0 && |freqAxis| == |fftData|
    ensures var r := FindDominantFrequency(fftData, freqAxis, centerFreq, thresholdDb, configuredThreshold);
      r.Detected? ==> r.power == PeakPower(fftData) && r.frequency - centerFreq == r.freqOffset && r.freqOffset in freqAxis
  {
    var r := FindDominantFrequency(fftData, freqAxis, centerFreq, thresholdDb, configuredThreshold);
    if r.Detected? {
      var i: nat :| IsFirstPeak(fftData, i) && r.freqOffset == freqAxis[i] && r.power == fftData[i];
      FirstPeakUnique(fftData, i, ArgMax(fftData));
      PeakPowerAtArgMax(fftData);
    }
  }

  /** A threshold equal to the maximum does not detect: the comparison is strict. */
  lemma ThresholdAtMaximumNotDetected(fftData: seq<real>, freqAxis: seq<real>, centerFreq: real)
    requires |fftData| > 0 && |freqAxis| == |fftData|
    ensures FindDominantFrequency(fftData, freqAxis, centerFreq, Some(PeakPower(fftData)), 0.0) == NotDetected
  {
  }
}
