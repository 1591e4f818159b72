# rssi_868 — a verified model of the detection-and-logging core

rssi_868 is a PyQt power analyser for the ADALM-PLUTO SDR. An acquisition
thread turns each block of samples into a magnitude spectrum, finds the
strongest bin and tests it against a detection threshold. The main window then
decides whether that detection goes into the detailed log. It logs only when
auto-log is on and the power is strictly above the log threshold, and only when
a temporal filter lets it through. The filter keeps a table from frequency to
last report time. It suppresses repeats on the same channel (within a
tolerance) for a minimum interval, re-centres a channel on its latest
frequency, and drops entries older than an hour whenever a new channel is
inserted. The window also keeps three bounded metric histories, clears the
log on request and loads named presets into its GUI configuration. A small
language manager switches the interface language and looks texts up.

This project models that core in Dafny:

- `OrderedDict` (ordered_dict.dfy): a Python `dict` as a sequence of pairs in
  insertion order. Assigning to an existing key updates it in place, assigning
  to a new key appends, and deleting closes the gap.
- `DedupFilter` (dedup_filter.dfy): the filter's specification `ShouldLog`
  and its properties.
- `Detector` (detector.dfy): `np.max`, the first-occurrence `np.argmax` and
  the detection record.
- `MetricHistory` (metric_history.dfy): append one value, then drop the oldest
  past 1000.
- `Config` (config.dfy): `SDRConfig`'s class attributes, the shared
  `GUI_CONFIG`, `update_defaults` and the presets.
- `Analyzer` (analyzer.dfy): the main window's state as a class. Its methods
  are the filter's loop (`ShouldLogFrequency`), the logging gate and history
  update (`UpdateData`), `ClearDetailedLog` and `LoadPresetConfig`. Each is
  proved against the specification functions above.
- `Languages` and `Translations` (language_manager.dfy, translations.dfy):
  the language manager and its translation tables.

The clock (`time.time()`), the auto-log check box, the spin-box values and
the filter's tolerance and timeout are parameters. Floating-point values are
`real`.

One might expect the filter's table never to hold two entries within
tolerance of each other. The code does not maintain this: re-centring can move
a key next to another entry. The model follows the code, and
`DedupFilter.ReCentringCanCrowdChannels` exhibits such a case.
`DedupFilter.NewChannelKeepsChannelsApart` proves the part that does hold:
inserting a new channel keeps the entries apart.

## Model

| member | source | states |
|---|---|---|
| `OrderedDict.AssignGet` | rssi_868.py:1106-1111 | after `d[k] = v`, `k` reads `v` and every other key reads as before |
| `OrderedDict.DeleteGet` | rssi_868.py:1106 | after `del d[k]`, `k` is absent and every other key reads as before |
| `DedupFilter.FirstMatch` | rssi_868.py:1097-1100 | the scan returns the first entry, in insertion order, within tolerance of the frequency, or none when no entry is |
| `DedupFilter.ShouldLog` | rssi_868.py:1093-1120 | one call of the filter; the resulting table is still a dict (distinct keys) |
| `DedupFilter.RecentMatchRejected` | rssi_868.py:1098-1103 | a first match reported less than `timeout` ago gives false and leaves the table unchanged |
| `DedupFilter.RejectedIffRecentMatch` | rssi_868.py:1098-1108 | the filter rejects exactly when the first match is more recent than `timeout`, and a rejection changes nothing |
| `DedupFilter.StaleMatchReCentred` | rssi_868.py:1104-1108 | a first match at least `timeout` old (equal included) gives true; its key is removed, `frequency -> now` is added, every other key keeps its time, nothing is pruned, and, when `frequency` is not the key of another entry, the entry moves to the end (otherwise that other entry is updated in place) |
| `DedupFilter.NewChannelInserted` | rssi_868.py:1110-1120 | with no match the filter gives true and the new entry `frequency -> now` survives the pruning |
| `DedupFilter.NewChannelAppendedAfterSurvivors` | rssi_868.py:1110-1120 | with no match (tolerance not negative) the table becomes the entries newer than `now - 3600`, in their old order, followed by `frequency -> now` |
| `DedupFilter.PruneMembers` | rssi_868.py:1113-1118 | pruning keeps exactly the entries whose time is after the cutoff |
| `DedupFilter.PruneAppend` | rssi_868.py:1115-1118 | pruning works entry by entry, so survivors keep their relative order |
| `DedupFilter.PruneKeepsKeysDistinct` | rssi_868.py:1115-1118 | the pruned table is still a dict |
| `DedupFilter.PruneKeepsChannelsApart` | rssi_868.py:1115-1118 | pruning never brings two channels within tolerance |
| `DedupFilter.NewChannelKeepsChannelsApart` | rssi_868.py:1110-1120 | inserting a channel that matched nothing keeps all entries on distinct channels |
| `DedupFilter.ReCentringCanCrowdChannels` | rssi_868.py:1104-1108 | re-centring can leave two entries within tolerance (100 and 200 apart by 100; a report at 150 gives 150 and 200, 50 apart under tolerance 60) |
| `DedupFilter.SameChannelScenario` | rssi_868.py:1093-1120 | 868 MHz at t=0 passes; 868.03 MHz at t=1 is suppressed; at t=11 it passes and re-centres; 920 MHz at t=1 passes (50 kHz, 10 s) |
| `DedupFilter.HourOldEntryPrunedScenario` | rssi_868.py:1110-1120 | an entry from t=0 is pruned by an insertion at t=3601, so its channel passes again at t=3602 |
| `Detector.PeakPower` | rssi_868.py:240-243 | the peak power is an element of the spectrum and no element exceeds it |
| `Detector.ArgMax` | rssi_868.py:250-252 | the peak index holds the maximum and no earlier index does (first occurrence) |
| `Detector.PeakPowerAtArgMax` | rssi_868.py:240-252 | the peak power is the magnitude at the peak index |
| `Detector.FindDominantFrequency` | rssi_868.py:245-267 | detected iff the maximum is strictly above the threshold (the configured one when none is given); a detection carries the first peak's axis offset, `center + offset` and its magnitude; otherwise only not-detected |
| `Detector.DetectionAgreesWithPeakPower` | rssi_868.py:240-267 | a detection's power is the spectrum's peak power and its frequency lies `freqOffset` above the centre, an axis value |
| `Detector.ThresholdAtMaximumNotDetected` | rssi_868.py:254-255 | a threshold equal to the maximum does not detect |
| `MetricHistory.PushEvictsOldest` | rssi_868.py:983-992 | one cycle keeps the length at most 1000, puts the new value last, and when full drops exactly the oldest |
| `MetricHistory.PushAllKeepsNewest` | rssi_868.py:983-992 | after any run of cycles the history is the last (at most) 1000 values seen, oldest first |
| `MetricHistory.PushKeepsParallel` | rssi_868.py:984-992 | the three histories pushed together keep equal lengths |
| `Config.GuiConfig.constructor` | rssi_868.py:52-78 | the initial GUI ranges, defaults, decimals and buffer sizes |
| `Config.SdrConfig.constructor` | rssi_868.py:37-78 | the initial SDR defaults, thresholds, filter interval and tolerance |
| `Config.SdrConfig.UpdateDefaults` | rssi_868.py:146-167 | each given argument sets its default and the matching GUI default (Hz to MHz, buffer size as text); absent arguments and all ranges are unchanged |
| `Config.SdrConfig.UpdateLogThreshold` | rssi_868.py:169-172 | sets the log threshold and nothing else (the setter is not called anywhere in the program) |
| `Config.SdrConfig.UpdateDetectionThreshold` | rssi_868.py:174-177 | sets the detection threshold and nothing else (the setter is not called anywhere in the program) |
| `Config.PresetsWithinGuiRanges` | rssi_868.py:92-144 | every preset's frequency, sample rate, bandwidth and gain lie in the GUI ranges |
| `Config.IntToStringRoundTrip` | rssi_868.py:165-167 | the buffer-size text written by `update_defaults` parses back to the buffer size |
| `Config.DefaultBufferTextOffered` | rssi_868.py:446-451 | the default buffer text written by `update_defaults` is one of the box's entries, so `findText` selects it, exactly when the size is 1024, 2048, 4096 or 8192 |
| `Analyzer.CycleVerdict` | rssi_868.py:942-954 | with the gate closed (no detection, auto-log off, or power not strictly above the log threshold) the filter is not consulted: no log and the table unchanged |
| `Analyzer.LoggedOnlyAboveBothThresholds` | rssi_868.py:942-954 | a spectrum is logged only with auto-log on and a peak strictly above both the detection and the log threshold |
| `Analyzer.QuietSpectrumLeavesFilterAlone` | rssi_868.py:950-953 | a spectrum whose peak is at or below the log threshold leaves the filter's table as it was |
| `Analyzer.PowerAnalyzer.constructor` | rssi_868.py:322-340 | the window shares `GUI_CONFIG`; empty histories, zero log count, empty filter table |
| `Analyzer.PowerAnalyzer.ShouldLogFrequency` | rssi_868.py:1093-1120 | the loop over the table returns and leaves exactly what `ShouldLog` specifies, and keeps the table a dict |
| `Analyzer.PowerAnalyzer.LogDetailedMeasurement` | rssi_868.py:1011-1028 | appends one log record and increments the count, which stays equal to the number of records as long as the language is not switched (see "Left out") |
| `Analyzer.PowerAnalyzer.UpdateData` | rssi_868.py:941-992 | the filter and the detailed log change as `CycleVerdict` says (one record iff it logs); each history gets one value, the oldest dropped past 1000 |
| `Analyzer.PowerAnalyzer.ClearDetailedLog` | rssi_868.py:1034-1041 | the log and its count go to zero and the filter table is emptied; histories untouched |
| `Analyzer.PowerAnalyzer.LoadPresetConfig` | rssi_868.py:833-847 | a known preset overwrites only the four `default`s, keeping min, max and decimals; an unknown name changes nothing |
| `Languages.Lookup` | language_manager.py:333 | the language's text for the key when both exist, the key itself otherwise |
| `Languages.AvailableLanguagesAreTranslated` | language_manager.py:341-347 | the loaded translation tables cover exactly ru, en and de, the codes `GetAvailableLanguages` offers |
| `Languages.LanguageManager.constructor` | language_manager.py:10-12 | starts in English, a language with a table |
| `Languages.LanguageManager.SetLanguage` | language_manager.py:324-329 | returns true and switches iff the code has a table; otherwise false and unchanged; the current language always has a table |
| `Languages.LanguageManager.GetText` | language_manager.py:331-339 | without arguments the current language's text or the key; with arguments the formatted text, or the unformatted text when formatting fails |
| `Languages.LanguageManager.GetAvailableLanguages` | language_manager.py:341-347 | the offered codes are exactly ru, en and de |

## Left out

- The FFT, `fftshift`, the `20·log10(|X| + 1e-12)` magnitude and `calculate_rssi` (rssi_868.py:234-238, 285-286): floating-point numerics over numpy. The spectrum is an input.
- `np.linspace` frequency axes (rssi_868.py:83-85, 292, 920): float arithmetic. The axis is an input.
- `Detector.FindDominantFrequency`, `Detector.PeakPower`, `Detector.ArgMax`: require a non-empty spectrum and an axis of the same length. numpy raises on an empty array, but the spectrum always has the buffer size (1024 to 8192) and its axis is built with the spectrum's length.
- Floats are `real`: rounding, NaN and infinities are not modelled.
- `PlutoThread.run`, `stop`, `connect_pluto`, `disconnect_pluto`, `update_settings`, and the window's `connect_pluto`, `disconnect_pluto`, `thread_finished`, `apply_settings`, `handle_error`: the hardware driver, the thread and Qt signals.
- All widget construction and layout, plotting, the peak marker, the status labels and the splitter handlers: UI only.
- The threshold, interval and tolerance handlers and the marker/spin-box synchronisation (rssi_868.py:1043-1091): Qt signal-echo suppression. The handlers assign the class attributes `SDRConfig.LOG_THRESHOLD`, `SDRConfig.SIGNAL_DETECTION_THRESHOLD`, `FREQUENCY_LOG_TIMEOUT` and `FREQUENCY_TOLERANCE` directly (rssi_868.py:1045, 1054, 1059, 1064, 1079, 1090); the class setters `update_log_threshold` and `update_detection_threshold` modelled as `Config.SdrConfig.UpdateLogThreshold` and `UpdateDetectionThreshold` are not called anywhere in the program. The logging gate reads the log-threshold spin box (rssi_868.py:952), not `SDRConfig.LOG_THRESHOLD`, so it takes that value as the parameter `logThreshold`; the filter takes tolerance and timeout as parameters.
- `log_message` and the text and timestamp of log lines (rssi_868.py:1006-1024): a log line is modelled by the values it is formatted from.
- The two `time.time()` readings of one `update_data` call are the parameters `now` (filter) and `clock` (history).
- `update_config` and `get_config` (rssi_868.py:823-831): not used by the core.
- Python's `str.format` in `get_text` is the parameter `format`, whose `None` result stands for the exception that the bare `except` catches.
- `Config.ParseInt` accepts only optionally signed digit strings, not every form Python's `int` accepts (spaces, `+`, underscores).
- The language switch in the window (`on_language_changed`, `recreate_interface`, rssi_868.py:658-716) is not modelled, and it is not UI only: it rebuilds the control panel, which creates a new, empty detailed-log widget (rssi_868.py:528) and a new auto-log check box that starts checked (rssi_868.py:536-538), and the auto-log state is not restored (rssi_868.py:686-700). `log_count` keeps its value while its label shows "0" (rssi_868.py:580). So after a switch the program's `log_count` exceeds the number of lines in the detailed log, and auto-log is back on: `Analyzer.PowerAnalyzer.Valid`'s `logCount == |detailedLog|` holds only between language switches (until `ClearDetailedLog` resets both).
- The translation texts are transcribed but never used in proofs. Proving that all three tables have the same keys is too costly for the solver.
