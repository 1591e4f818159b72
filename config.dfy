/**
  The process-wide configuration of rssi_868.py (class SDRConfig): the SDR
  defaults, the detector and logging thresholds, the parameters of the
  temporal filter, the GUI ranges (`GUI_CONFIG`) and the named presets.
  Python keeps these as mutable class attributes; here they are the fields of
  one `SdrConfig` object, and `GUI_CONFIG`, a nested dict that the main window
  shares by reference, is a `GuiConfig` object.
 */
module Config {
  import opened Wrappers

  /** One entry of `GUI_CONFIG`: the spin-box range, its default and, except for gain, its decimals. */
  datatype ParamRange = ParamRange(min: real, max: real, default: real, decimals: Option<nat>)

  const FrequencyRange: ParamRange := ParamRange(70.0, 6000.0, 868.0, Some(3))     // MHz
  const SampleRateRange: ParamRange := ParamRange(0.5, 56.0, 10.0, Some(1))        // MHz
  const BandwidthRange: ParamRange := ParamRange(0.2, 56.0, 5.0, Some(1))          // MHz
  const GainRange: ParamRange := ParamRange(0.0, 76.0, 30.0, None)                 // dB
  const BufferSizes: seq<string> := ["1024", "2048", "4096", "8192"]

  /** `GUI_CONFIG`, updated in place by `update_defaults` and by loading a preset. */
  class GuiConfig {
    var frequency: ParamRange
    var sampleRate: ParamRange
    var bandwidth: ParamRange
    var gain: ParamRange
    var bufferSizes: seq<string>
    var defaultBuffer: string

    constructor ()
      ensures frequency == FrequencyRange && sampleRate == SampleRateRange
      ensures bandwidth == BandwidthRange && gain == GainRange
      ensures bufferSizes == BufferSizes && defaultBuffer == "2048"
    {
      frequency, sampleRate, bandwidth, gain := FrequencyRange, SampleRateRange, BandwidthRange, GainRange;
      bufferSizes, defaultBuffer := BufferSizes, "2048";
    }
  }

  /** The class attributes of SDRConfig. Frequencies and rates in Hz, gain and thresholds in dB. */
  class SdrConfig {
    var defaultFrequency: real
    var defaultSampleRate: real
    var defaultBandwidth: real
    var defaultGain: real
    var defaultBufferSize: int
    var signalDetectionThreshold: real
    var logThreshold: real
    var frequencyLogTimeout: real     // s
    var frequencyTolerance: real      // Hz
    const guiConfig: GuiConfig

    constructor ()
      ensures defaultFrequency == 868000000.0 && defaultSampleRate == 10000000.0
      ensures defaultBandwidth == 5000000.0 && defaultGain == 30.0 && defaultBufferSize == 2048
      ensures signalDetectionThreshold == 100.0 && logThreshold == 100.0
      ensures frequencyLogTimeout == 10.0 && frequencyTolerance == 50000.0
      ensures fresh(guiConfig)
      ensures guiConfig.frequency == FrequencyRange && guiConfig.sampleRate == SampleRateRange
      ensures guiConfig.bandwidth == BandwidthRange && guiConfig.gain == GainRange
      ensures guiConfig.bufferSizes == BufferSizes && guiConfig.defaultBuffer == "2048"
    {
      defaultFrequency, defaultSampleRate, defaultBandwidth := 868000000.0, 10000000.0, 5000000.0;
      defaultGain, defaultBufferSize := 30.0, 2048;
      signalDetectionThreshold, logThreshold := 100.0, 100.0;
      frequencyLogTimeout, frequencyTolerance := 10.0, 50000.0;
      guiConfig := new GuiConfig();
    }

    /**
      `update_defaults`: each argument that is given replaces its default and the
      matching GUI default (in MHz for frequency, sample rate and bandwidth, as
      text for the buffer size); an absent argument changes nothing.
     */
    method UpdateDefaults(frequency: Option<real>, sampleRate: Option<real>, bandwidth: Option<real>,
                          gain: Option<real>, bufferSize: Option<int>)
      modifies this, guiConfig
      ensures defaultFrequency == frequency.GetOr(old(defaultFrequency))
      ensures defaultSampleRate == sampleRate.GetOr(old(defaultSampleRate))
      ensures defaultBandwidth == bandwidth.GetOr(old(defaultBandwidth))
      ensures defaultGain == gain.GetOr(old(defaultGain))
      ensures defaultBufferSize == bufferSize.GetOr(old(defaultBufferSize))
      ensures guiConfig.frequency ==
              if frequency.Some? then old(guiConfig.frequency).(default := frequency.value / 1000000.0)
              else old(guiConfig.frequency)
      ensures guiConfig.sampleRate ==
              if sampleRate.Some? then old(guiConfig.sampleRate).(default := sampleRate.value / 1000000.0)
              else old(guiConfig.sampleRate)
      ensures guiConfig.bandwidth ==
              if bandwidth.Some? then old(guiConfig.bandwidth).(default := bandwidth.value / 1000000.0)
              else old(guiConfig.bandwidth)
      ensures guiConfig.gain == if gain.Some? then old(guiConfig.gain).(default := gain.value) else old(guiConfig.gain)
      ensures guiConfig.defaultBuffer ==
              if bufferSize.Some? then IntToString(bufferSize.value) else old(guiConfig.defaultBuffer)
      ensures guiConfig.bufferSizes == old(guiConfig.bufferSizes)
      ensures signalDetectionThreshold == old(signalDetectionThreshold) && logThreshold == old(logThreshold)
      ensures frequencyLogTimeout == old(frequencyLogTimeout) && frequencyTolerance == old(frequencyTolerance)
    {
      if frequency.Some? {
        defaultFrequency := frequency.value;
        guiConfig.frequency := guiConfig.frequency.(default := frequency.value / 1000000.0);
      }
      if sampleRate.Some? {
        defaultSampleRate := sampleRate.value;
        guiConfig.sampleRate := guiConfig.sampleRate.(default := sampleRate.value / 1000000.0);
      }
      if bandwidth.Some? {
        defaultBandwidth := bandwidth.value;
        guiConfig.bandwidth := guiConfig.bandwidth.(default := bandwidth.value / 1000000.0);
      }
      if gain.Some? {
        defaultGain := gain.value;
        guiConfig.gain := guiConfig.gain.(default := gain.value);
      }
      if bufferSize.Some? {
        defaultBufferSize := bufferSize.value;
        guiConfig.defaultBuffer := IntToString(bufferSize.value);
      }
    }

    /** `update_log_threshold`. */
    method UpdateLogThreshold(threshold: real)
      modifies this`logThreshold
      ensures logThreshold == threshold
    {
      logThreshold := threshold;
    }

    /** `update_detection_threshold`. */
    method UpdateDetectionThreshold(threshold: real)
      modifies this`signalDetectionThreshold
      ensures signalDetectionThreshold == threshold
    {
      signalDetectionThreshold := threshold;
    }
  }

  /** The defaults a preset loads: frequency, sample rate and bandwidth in MHz, gain in dB. */
  datatype Preset = Preset(frequency: real, sampleRate: real, bandwidth: real, gain: real)

  /** `get_presets`. */
  function Presets(): map<string, Preset> {
    map[
      "lora_868" := Preset(868.0, 1.0, 0.5, 40.0),
      "wifi_2.4g" := Preset(2400.0, 20.0, 10.0, 30.0),
      "bluetooth" := Preset(2440.0, 10.0, 5.0, 35.0),
      "868" := Preset(868.0, 10.0, 5.0, 35.0),
      "915" := Preset(915.0, 10.0, 26.0, 35.0),
      "fm_radio" := Preset(100.0, 5.0, 2.0, 25.0),
      "gps_l1" := Preset(1575.42, 10.0, 5.0, 45.0),
      "lte_2100" := Preset(2100.0, 30.0, 20.0, 30.0)
    ]
  }

  predicate InRange(x: real, r: ParamRange) {
    r.min <= x <= r.max
  }

  /** Every preset loads values that the spin boxes of the GUI accept. */
  lemma PresetsWithinGuiRanges()
    ensures forall name :: name in Presets() ==>
      && InRange(Presets()[name].frequency, FrequencyRange)
      && InRange(Presets()[name].sampleRate, SampleRateRange)
      && InRange(Presets()[name].bandwidth, BandwidthRange)
      && InRange(Presets()[name].gain, GainRange)
  {
  }

  /** The digit characters of a natural number, most significant first. */
  function NatToString(n: nat): (s: string)
    ensures |s| > 0 && forall i :: 0 <= i < |s| ==> '0' <= s[i] <= '9'
  {
    if n < 10 then [DigitChar(n)] else NatToString(n / 10) + [DigitChar(n % 10)]
  }

  function DigitChar(d: nat): (c: char)
    requires d < 10
    ensures '0' <= c <= '9'
  {
    "0123456789"[d]
  }

  /** Python's `str` of an integer. */
  function IntToString(n: int): (s: string)
    ensures |s| > 0
  {
    if n < 0 then "-" + NatToString(-n) else NatToString(n)
  }

  /** The value of a string of decimal digits. */
  function ParseDigits(s: string): nat
    requires forall i :: 0 <= i < |s| ==> '0' <= s[i] <= '9'
  {
    if s == [] then 0 else ParseDigits(s[..|s| - 1]) * 10 + (s[|s| - 1] as int - '0' as int)
  }

  /** Python's `int` of an optionally signed decimal string (what the buffer-size box is read with). */
  function ParseInt(s: string): Option<int> {
    if |s| > 1 && s[0] == '-' && forall i :: 1 <= i < |s| ==> '0' <= s[i] <= '9' then Some(-(ParseDigits(s[1..]) as int))
    else if |s| > 0 && forall i :: 0 <= i < |s| ==> '0' <= s[i] <= '9' then Some(ParseDigits(s))
    else None
  }

  lemma {:induction false} ParseNatToString(n: nat)
    ensures ParseDigits(NatToString(n)) == n
  {
    if n >= 10 {
      ParseNatToString(n / 10);
      var s := NatToString(n);
      assert s[..|s| - 1] == NatToString(n / 10);
    }
  }

  /** The default buffer text written by `update_defaults` reads back as the buffer size. */
  lemma IntToStringRoundTrip(n: int)
    ensures ParseInt(IntToString(n)) == Some(n)
  {
    var s := IntToString(n);
    if n < 0 {
      var digits := NatToString(-n);
      ParseNatToString(-n);
      assert s == "-" + digits && s[1..] == digits;
      assert forall i :: 1 <= i < |s| ==> s[i] == digits[i - 1];
    } else {
      ParseNatToString(n);
      assert s[0] != '-';
    }
  }

  /**
    The buffer-size text `update_defaults` stores is found among the buffer-size
    box's entries (the `findText` that selects the default) exactly when the
    size is one of the offered sizes.
   */
  lemma {:induction false} DefaultBufferTextOffered(n: int)
    ensures IntToString(n) in BufferSizes <==> n in {1024, 2048, 4096, 8192}
  {
    assert IntToString(1024) == "1024" && IntToString(2048) == "2048";
    assert IntToString(4096) == "4096" && IntToString(8192) == "8192";
    if IntToString(n) in BufferSizes {
      IntToStringRoundTrip(n);
      IntToStringRoundTrip(1024);
      IntToStringRoundTrip(2048);
      IntToStringRoundTrip(4096);
      IntToStringRoundTrip(8192);
    }
  }
}
