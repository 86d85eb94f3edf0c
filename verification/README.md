# pyaDBS closed-loop pipeline: Dafny model

This project models the logic at the core of the pyaDBS adaptive deep-brain
stimulation pipeline (timeflux nodes written in Python) and proves
properties of it. It covers:

- **The single-threshold aDBS controller** (`AdbsSingleThreshold`). Each
  biomarker value drives a detection-blank refractory counter, two dwell
  counters, a trigger state (`none`/`onset`/`termination`), a stimulation
  state (`low`/`high`) and a linear amplitude ramp. A start/stop switch gates
  all of it. The class `SingleThreshold` holds the node's fields, and each
  method is proved to perform one pure step on a `ControlState`. Multi-cycle
  properties (blank length, ramp liveness, the full-ramp amplitude change)
  are lemmas over `RunOn`, the fold of the biomarker step.
- **The sliding-window epoch buffer** (`DataFlowEpoch`). A class with a
  `buffer` field. Ghost fields record the stream of placeholders plus pushed
  rows, the rows dropped and the epochs emitted.
- **The Newronika alphaDBS serial frame decoder** (`NewronikaStation`). This
  is a byte-level state machine over `cnt`, `FillBuffer` and the 21-entry
  `ReceivedBuffer` array. It handles sync, fill, checksum and sample scaling.
  The pure `ByteStep`/`Feed` functions specify it. The sampler node
  (`NewronikaSampler`) runs the same decoder and packages the result as a
  two-column table.
- **Small helpers**:
  - inclusive band selection on one- and two-dimensional spectra (`SpectralHelpers`);
  - accelerometer channel renaming and channel enabling for the TMSi amplifier (`TmsiUtils`);
  - the two threshold comparator nodes (`AdbsCompareInput`, `CompareInput`).

Modelling choices:

- Numbers are `real`, so the ramp step and the sample scaling are exact.
- A biomarker or spectral value that may be NaN is a `Common.Sample`. NaN
  satisfies neither `value > threshold` nor `value <= threshold`.
- Periods and window sizes are given as loop counts.
- The serial port is a finite byte sequence.
- Clocks, timeflux ports and output framing are left out (see below).

## Model

| member | source | states |
|---|---|---|
| AdbsSingleThreshold.Init | nodes/aDBS/single_threshold.py:43-56 | Construction fails exactly when the ramp period is 0, because the step size divides by it. Otherwise all four loop counters are 0, the state is low, the trigger none, the blank active, the amplitude 0 and the switch off, and the controller invariant holds. |
| AdbsSingleThreshold.SingleThreshold.constructor | nodes/aDBS/single_threshold.py:42-56 | The fields start in the state `Init` describes, the invariant holds, and the ramp step size is `(high - low) / rampPeriod`. |
| AdbsSingleThreshold.BiomarkerStep | nodes/aDBS/single_threshold.py:79-96 | The invariant is preserved: blank counter bounded by the blank period, at most one dwell counter non-zero, `loopsRamp < rampPeriod`, onset only with low, termination only with high, no trigger inside the blank, and switch off implies amplitude 0, low, no trigger and blank. While the switch is off the state is unchanged. The switch is never changed. |
| AdbsSingleThreshold.Cycle | nodes/aDBS/single_threshold.py:63-108 | One `update` preserves the invariant. An output row exists iff a biomarker package arrived. The row carries the amplitude after the step and the package id of the input. While the switch is off the row's amplitude is 0. |
| AdbsSingleThreshold.SingleThreshold.Update | nodes/aDBS/single_threshold.py:63-108 | The node's fields and its output are exactly `Cycle` of the old state, and the invariant is kept. |
| AdbsSingleThreshold.SingleThreshold.SetTriggerState | nodes/aDBS/single_threshold.py:112-137 | Inside the blank the blank step runs. Otherwise `value > threshold` feeds the above counter and `value <= threshold` the below counter, and NaN does neither. The invariant is kept. |
| AdbsSingleThreshold.SingleThreshold.UpdateDetectionBlank | nodes/aDBS/single_threshold.py:139-149 | At the blank period the blank ends and its counter resets. Below the period the counter advances. The invariant is kept. |
| AdbsSingleThreshold.SingleThreshold.UpdateThresholdLoopCounter | nodes/aDBS/single_threshold.py:151-162 | One counter is incremented and the other zeroed. The trigger goal is set once the period is reached and the state is the one to leave. The trigger is otherwise untouched, because line 154 is a comparison. |
| AdbsSingleThreshold.SingleThreshold.RampStim | nodes/aDBS/single_threshold.py:164-185 | The amplitude moves by the signed step and the ramp counter advances. When it reaches the ramp period, the state flips to the target, the trigger clears, the counter resets and the blank is re-entered. The invariant is kept. |
| AdbsSingleThreshold.SingleThreshold.CheckStimSwitch | nodes/aDBS/single_threshold.py:187-198 | The fields become `SwitchStep` of the old state: "start" sets on, "stop" forces the reset, anything else changes nothing. The invariant is kept. |
| AdbsSingleThreshold.SwitchedOffCycle | nodes/aDBS/single_threshold.py:71-108 | With the switch off, a biomarker input leaves the state unchanged and still yields a row with amplitude 0 and the incoming package id. |
| AdbsSingleThreshold.StopIsFailSafe | nodes/aDBS/single_threshold.py:66-68 | "stop" is handled before the biomarker of the same cycle. It sets off/low/none/blank/amplitude 0 and leaves all four loop counters as they were. The row then carries amplitude 0. |
| AdbsSingleThreshold.SwitchCommands | nodes/aDBS/single_threshold.py:187-198 | "start" changes only the switch; any command other than "start" and "stop" changes nothing. |
| AdbsSingleThreshold.CounterRules | nodes/aDBS/single_threshold.py:121-137 | Outside the blank, a value above the threshold increments the above counter and zeroes the below counter. A value at or below it does the reverse, so equality counts as below. NaN changes neither counter. |
| AdbsSingleThreshold.TriggerRaisedOnlyByDwell | nodes/aDBS/single_threshold.py:151-162 | The comparison never lowers the trigger to none. Onset is raised only from low, after at least `onsetPeriod` cycles above. Termination is raised only from high, after at least `terminationPeriod` cycles at or below. |
| AdbsSingleThreshold.TriggerClearedOnlyByRampOrStop | nodes/aDBS/single_threshold.py:183 | Within a cycle a set trigger returns to none only through "stop", or by completing a ramp, which flips the state, resets the ramp counter and re-enters the blank. |
| AdbsSingleThreshold.RunOnAppend | nodes/aDBS/single_threshold.py:63-108 | Running the controller on `a + b` is running it on `a` and then on `b`. |
| AdbsSingleThreshold.BlankCountsUp | nodes/aDBS/single_threshold.py:139-149 | Inside the blank, each switched-on cycle only advances the blank counter, whatever the values, up to the blank period. |
| AdbsSingleThreshold.BlankLength | nodes/aDBS/single_threshold.py:114-118 | A blank entered with counter `c` lasts exactly `detectionBlankPeriod - c + 1` switched-on cycles (`detectionBlankPeriod + 1` from 0). No threshold comparison happens in any of them, and the blank then ends with its counter at 0. |
| AdbsSingleThreshold.RampCycle | nodes/aDBS/single_threshold.py:86-92 | A ramp in progress runs whatever the value. The amplitude moves by one signed step and the counter advances, or the ramp completes. |
| AdbsSingleThreshold.RampRunsToCompletion | nodes/aDBS/single_threshold.py:164-185 | Ramp liveness: from ramp counter `k`, the ramp runs on each of the next `rampPeriod - k` cycles, whatever the biomarker values, provided no switch command arrives in between (a "stop" ends the ramp, and a cycle without a biomarker does not advance it), and then completes. The amplitude moves by `RampTotal` of the cycles run. |
| AdbsSingleThreshold.TriggeringCycle | nodes/aDBS/single_threshold.py:82-92 | A value that completes the dwell period outside the blank raises the trigger and takes the first ramp step in the same cycle. |
| AdbsSingleThreshold.FullRampFromTrigger | nodes/aDBS/single_threshold.py:86-92 | Counted from the triggering cycle, the state flips to the target after exactly `rampPeriod - loopsRamp` cycles and not before. Each proper prefix still has the old state. |
| AdbsSingleThreshold.RampRest | nodes/aDBS/single_threshold.py:164-185 | After the triggering cycle, the remaining cycles complete the ramp and add one signed step each. |
| AdbsSingleThreshold.RampPrefix | nodes/aDBS/single_threshold.py:164-185 | Before the ramp completes, the stimulation state is still the one being left. |
| AdbsSingleThreshold.RampTotalIsMultiple | nodes/aDBS/single_threshold.py:175 | `n` ramp cycles move the amplitude by `n` signed steps. |
| AdbsSingleThreshold.RampTotalFull | nodes/aDBS/single_threshold.py:56 | `rampPeriod` signed steps add up to exactly `high - low` (up) or `low - high` (down). |
| AdbsSingleThreshold.FullRampMovesByAmplitudeRange | nodes/aDBS/single_threshold.py:52-56 | A full ramp started with the ramp counter at 0 takes `rampPeriod` cycles, the triggering one included. It moves the amplitude by exactly `±(high - low)`, so a first ramp-up from amplitude 0 ends at `high - low`, not at `high`. |
| DataFlowEpoch.Epoch.constructor | nodes/data_flow/epoch.py:31 | The buffer starts as `win_size - step_size` NaN placeholder rows (none when the step exceeds the window). Nothing is pushed or emitted yet. |
| DataFlowEpoch.Epoch.Update | nodes/data_flow/epoch.py:34-55 | An empty input changes nothing and emits nothing. Otherwise the rows are appended, and an epoch is emitted iff the buffer then holds at least `win_size` rows, at most one per call. The epoch is the first `win_size` rows of the buffer, channel columns only, and then the first `step_size` rows (the whole buffer, if shorter) are dropped. When `step_size <= win_size` the invariant gives more: after `k` emissions exactly `k * step_size` rows have been dropped, so the `k`-th epoch is the stream slice `[k * step, k * step + win)` however the input was batched, and the first epoch appears once `step_size` real rows have been pushed. |
| DataFlowEpoch.Epoch.Append | nodes/data_flow/epoch.py:42 | The input rows go to the end of the buffer in order; the stream invariant is kept. |
| DataFlowEpoch.Epoch.Emit | nodes/data_flow/epoch.py:47-55 | The epoch is the first `win_size` rows of the buffer. Exactly `step_size` rows (or the whole buffer, if shorter) leave its front. |
| NewronikaStation.InitialDecoder | nodes/newronika/nwkstation.py:18-25 | The freshly constructed decoder satisfies the decoder invariant. |
| NewronikaStation.Scale | nodes/newronika/nwkstation.py:81 | A sample built from two bytes as `((hi << 8) + lo) * 2 / 4096` lies in `[0, 32)`. |
| NewronikaStation.ByteStep | nodes/newronika/nwkstation.py:50-95 | One byte keeps the decoder invariant: `0 <= cnt <= 20`, `FillBuffer == 1` iff `cnt >= 3`, the sync bytes at the front of the buffer, all entries bytes, both channels of equal length and `cnt_Time` equal to the number of order entries. A byte adds either no samples or exactly two per channel. Lines 76-121 of nodes/newronika/nwk_sampler.py are the same step. |
| NewronikaStation.Feed | nodes/newronika/nwkstation.py:40-95 | Any byte sequence keeps the decoder invariant. |
| NewronikaStation.SyncStep | nodes/newronika/nwkstation.py:54-65 | During sync, `cnt` advances only on the expected byte (5, 200, 1 at `cnt` 0, 1, 2), and the third sets `FillBuffer`. Any other byte leaves the decoder exactly as it was, without resetting `cnt`. |
| NewronikaStation.FillStep | nodes/newronika/nwkstation.py:50-52 | While filling, the byte is stored at `ReceivedBuffer[cnt]` and `cnt` advances. |
| NewronikaStation.CompletionStep | nodes/newronika/nwkstation.py:67-95 | The 21st byte resets `cnt` and `FillBuffer` whatever the checksum result. An accepted frame appends `Scale(b4, b5)`, `Scale(b10, b11)` to channel 1, `Scale(b6, b7)`, `Scale(b12, b13)` to channel 2 and `b8`, `b14` to the order list, and adds 2 to `cnt_Time`. A rejected frame appends nothing. |
| NewronikaStation.SumAppend | nodes/newronika/nwkstation.py:72-74 | The running sum of a concatenation is the sum of the parts. |
| NewronikaStation.ChecksumDecides | nodes/newronika/nwkstation.py:78-80 | A completed frame's byte sum is at least 206 (the sync bytes are summed). So `Sum != 0` never rejects a frame, and acceptance is `Sum == (b16 << 8) + b17` alone. |
| NewronikaStation.FeedAppend | nodes/newronika/nwkstation.py:40-48 | Reading `a + b` is reading `a` and then `b`. |
| NewronikaStation.FillVerbatim | nodes/newronika/nwkstation.py:50-52 | Fill bytes land verbatim, in order, at consecutive buffer positions. |
| NewronikaStation.HeaderFeed | nodes/newronika/nwkstation.py:54-65 | The sync bytes 5, 200, 1 take an idle decoder to `cnt == 3` with `FillBuffer` set. |
| NewronikaStation.FeedThroughFill | nodes/newronika/nwkstation.py:50-65 | The sync bytes and 17 more bring an idle decoder to `cnt == 20`, with the bytes stored in order. |
| NewronikaStation.LastByte | nodes/newronika/nwkstation.py:67-69 | The 21st byte hands the completed buffer to the checksum branch. |
| NewronikaStation.SyncedFrame | nodes/newronika/nwkstation.py:50-95 | From an idle decoder, the sync bytes plus 18 more form exactly one frame, judged by the checksum branch on those 21 bytes. |
| NewronikaStation.EncodeFrame | nodes/newronika/nwkstation.py:78 | The frame a device sends is 21 bytes long: the sync bytes, then the 13 data bytes, then the big-endian 16-bit checksum, then the 3 trailing bytes. The checksum in bytes 16-17 equals the sum of bytes 0..15, which is what line 78 compares. |
| NewronikaStation.DecodeEncodedFrame | nodes/newronika/nwkstation.py:67-95 | Round trip: an encoded frame read by an idle decoder is accepted. It yields exactly the two samples per channel and the two order bytes it carries, and leaves the decoder idle. |
| NewronikaStation.Interface.constructor | nodes/newronika/nwkstation.py:15-25 | The fields start as `InitialDecoder`, with a fresh 21-entry buffer. |
| NewronikaStation.Interface.SumFirstSixteen | nodes/newronika/nwkstation.py:70-75 | The inner loop returns the sum of buffer entries 0..15. |
| NewronikaStation.Interface.StoreIfFilling | nodes/newronika/nwkstation.py:50-52 | The fill test on the fields is `FillByte`. |
| NewronikaStation.Interface.MatchSync | nodes/newronika/nwkstation.py:54-65 | One sync test on the fields is `SyncByte`. |
| NewronikaStation.Interface.CheckFrame | nodes/newronika/nwkstation.py:67-95 | The checksum branch on the fields is `CompleteFrame`, and the buffer is not written. |
| NewronikaStation.Interface.ReadByte | nodes/newronika/nwkstation.py:47-95 | Reading one byte changes the fields exactly as `ByteStep` does, and keeps the invariant. |
| NewronikaStation.Interface.SampleFromDevice | nodes/newronika/nwkstation.py:33-97 | Both channel lists are cleared first. Bytes are read until the first accepted frame, and the state is `Feed` of the bytes consumed. No earlier prefix produced a sample, and exactly two samples per channel are returned. When the port runs out first, nothing is returned and every byte is consumed. The module-level `sampleFromDevice` of nodes/newronika/nwk_sampler.py (lines 59-124) is the same loop. |
| NewronikaSampler.Package | nodes/newronika/nwk_sampler.py:47-55 | The output table has columns `nwk_ch1`, `nwk_ch2`, and each row has two cells. |
| NewronikaSampler.PackageColumns | nodes/newronika/nwk_sampler.py:47-55 | Reading the packaged table's columns back gives both channels: row `i` pairs the `i`-th samples. |
| NewronikaSampler.Update | nodes/newronika/nwk_sampler.py:42-55 | One decoded frame becomes a two-row table whose columns are exactly the two channels' samples. No table is produced if the port runs out first. |
| SpectralHelpers.Mask | utils/spectral_helpers.py:25 | The mask has one flag per frequency, set iff `f_min <= f <= f_max` (inclusive on both ends). |
| SpectralHelpers.TransposeInvolution | utils/spectral_helpers.py:33-35 | Transposing a well-shaped matrix twice gives it back, so reorienting the values loses no entry. |
| SpectralHelpers.SelectBandwidths | utils/spectral_helpers.py:25-41 | The returned frequencies are exactly the in-band input frequencies, in order. With no frequencies, `sel` is an empty integer index: the call succeeds whatever the values' shape, and the kept axis becomes empty. For 1-D values it otherwise succeeds iff the lengths match, and the values are `Select(values, mask)`. For 2-D values the matrix is first transposed when its column count differs from `len(freqs)`. It otherwise succeeds iff the resulting width matches; it then keeps its row count, and every row is `Select(row, mask)`. A mask of the wrong length is numpy's `IndexError`. |
| SpectralHelpers.SelectLength | utils/spectral_helpers.py:29 | The selection has as many entries as the mask has set flags. |
| SpectralHelpers.SelectedFrequencies | utils/spectral_helpers.py:25-39 | Masked selection equals the direct in-band filter of the frequencies. |
| SpectralHelpers.InBandMembership | utils/spectral_helpers.py:25 | A frequency is returned iff it is an input frequency within `[f_min, f_max]`. |
| SpectralHelpers.SelectAppend | utils/spectral_helpers.py:29 | Selection distributes over concatenation, so kept entries keep their relative order. |
| SpectralHelpers.InvertedBandIsEmpty | utils/spectral_helpers.py:25 | `f_min > f_max` selects nothing. |
| TmsiUtils.RenameAxis | nodes/TMSi/tmsi_utils.py:13-31 | A rename pass keeps the list length. |
| TmsiUtils.CorrectNames | nodes/TMSi/tmsi_utils.py:13-33 | The three passes keep the list length. |
| TmsiUtils.AccNameIsNotAnAxis | nodes/TMSi/tmsi_utils.py:24 | A produced `ACC_<side>_<axis>` name is never a bare axis name. |
| TmsiUtils.CountUnchangedByOtherAxis | nodes/TMSi/tmsi_utils.py:17-18 | The pass for one axis does not change how many channels carry another axis' name. |
| TmsiUtils.RenameKeepsOtherAxis | nodes/TMSi/tmsi_utils.py:13-31 | The pass for one axis leaves the channels of the other axes, and their counts, unchanged, so the passes do not interfere. |
| TmsiUtils.CorrectNamesPointwise | nodes/TMSi/tmsi_utils.py:13-31 | Position by position: for an axis that more than one channel carries, its first occurrence becomes `ACC_<sides[0]>_<axis>` and its second `ACC_<sides[1]>_<axis>`. A third or later occurrence, an axis carried only once, and any other name keep their names. |
| TmsiUtils.CorrectAccChannelNames | nodes/TMSi/tmsi_utils.py:8-33 | The names become `CorrectNames` of the old names, in place. The same list is returned, and no `enabled` flag changes. |
| TmsiUtils.RenameOneAxis | nodes/TMSi/tmsi_utils.py:14-31 | One outer iteration performs the pass for its axis. |
| TmsiUtils.CountNamed | nodes/TMSi/tmsi_utils.py:17-18 | Counts the channels named exactly the axis. |
| TmsiUtils.RenameFirstTwo | nodes/TMSi/tmsi_utils.py:21-31 | Under the flags, the first and second occurrences are renamed for the two sides and nothing else changes; the `continue` stops a renamed channel from being tested again. |
| TmsiUtils.ActivateChannelSelection | nodes/TMSi/tmsi_utils.py:36-44 | Afterwards each channel is enabled iff its name is a configured recording channel. Names are unchanged. |
| TmsiUtils.Channel.constructor | nodes/TMSi/tmsi_utils.py:24 | A channel holds a name and an enabled flag. |
| AdbsCompareInput.ThresholdFor | nodes/aDBS/compare_input.py:21-30 | The threshold is 0.5 for `stn_beta` and 0.6 for `beta_coherence`. Any other input signal, including none, is a `ValueError`. |
| AdbsCompareInput.Update | nodes/aDBS/compare_input.py:36-56 | A missing input is a `TypeError`, because the frame is then built with the scalar index `0`. An input without rows is an `IndexError`, because its first cell `values[0, 0]` does not exist. An input with two or more rows is a `ValueError`, because the output data is one row and its index would have several labels. Otherwise the row is `[value, trigger]` under the input's index, where the trigger is 1 iff the value is strictly above the threshold (equality and NaN give 0). |
| AdbsCompareInput.TriggerMonotone | nodes/aDBS/compare_input.py:47 | For a one-row input, the trigger is monotone in the value and antitone in the threshold. |
| AdbsCompareInput.CoherenceStricterThanBeta | nodes/aDBS/compare_input.py:25-30 | The two comparators fail on the same inputs. The coherence comparator triggers only where the beta comparator does, and NaN triggers neither. |
| CompareInput.Threshold | nodes/compare_input.py:20-22 | With `rel_power` true the threshold is 0.4. With it false, construction fails, because line 22 reads the unset threshold. |
| CompareInput.Update | nodes/compare_input.py:25-36 | A missing input is an `AttributeError`. An input without rows is an `IndexError`, because its first cell `values[0, 0]` does not exist. An input with two or more rows is a `ValueError`, because the output data is one row and its index would have several labels. Otherwise the row is `[IN, OUT]` under the input's index, where `OUT` is 1 iff the input is strictly above the threshold. |
| CompareInput.BoundaryAtThreshold | nodes/compare_input.py:28 | A value exactly at 0.4 gives `OUT == 0`; any value above gives 1. |

## Left out

- Timeflux ports, `self.i.ready()`, the pylsl/`datetime` clocks and console output are not modelled. Port readiness is an `Option` input.
- `utils.output`, `utils.extract_data` and `utils.convert_time_samples` are not part of this model. Output framing (timestamps, package numbers) is opaque, the biomarker package is reduced to its first cell and its `package_id`, and periods and window sizes are given as loop counts.
- AdbsSingleThreshold.Cycle: only the amplitude column of `stim_params` is modelled. The other configured stimulation columns pass through unchanged in the source.
- AdbsSingleThreshold: "stop" in the middle of a ramp leaves `_loops_ramp` untouched (nodes/aDBS/single_threshold.py:192-198). The next ramp therefore starts at that count and is shortened. `RampRunsToCompletion` and `FullRampFromTrigger` cover any starting count; `FullRampMovesByAmplitudeRange` needs a counter at 0.
- Floating-point rounding is not modelled. The ramp step and the sample scaling are exact reals, so the model does not claim that Python floats reach `high - low` bit-exactly.
- DataFlowEpoch: pandas column alignment and the row index are not modelled. A row is a value with the channel cells and the three framing columns.
- NewronikaStation.Interface.SampleFromDevice: the serial port is a finite byte sequence. The busy-wait on `inWaiting()` and the port open/close are left out. Where the source would wait forever for a frame, the model stops at the end of the sequence and returns empty channels.
- NewronikaStation: the attributes `self.Sum` and `self.CheckSum` are set to 0 and never read; they are not modelled. The loop variable of the inner sum loop is a local in the model, because the source reuses `cnt` and resets it right afterwards.
- NewronikaStation: `ReceivedBuffer` is a 32-bit numpy array in the source. It only ever holds bytes, so the model uses `int`.
- NewronikaSampler.Update: the conversion of a non-list channel to a list cannot trigger, because the decoder always returns lists.
- SpectralHelpers.SelectBandwidths: arrays of dimension other than 1 and 2 are not modelled (the source returns them unchanged).
- TmsiUtils.CorrectAccChannelNames: requires `|sides| >= 2` and distinct channel objects. The source only indexes `sides[1]` when a second duplicate is found, and a channel listed twice would be renamed through both positions.
- TmsiUtils: `sig_vector_magn` is floating-point only and is not modelled.
- AdbsCompareInput.Update: under pandas, `self.i.data == None` on a real data frame is not a plain boolean. The model reads it as "input missing" and does not model that error.
- Not modelled at all: the superseded prototype nodes/stimulation/single_threshold.py, the AO stimulator drivers, the TMSi SDK glue, session setup, LSL transport, the spectral analysis nodes, file I/O nodes and the dummy data generators. These are device, network or floating-point code outside the core logic.
