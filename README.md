# Virtual brain EEG feedback: a verified model of the bookkeeping core

This project models the non-DSP logic of a motor-imagery brain-computer interface with
virtual-reality feedback. It has two halves: a Python feedback model (`FeedbackModel/`)
and a Unity front end (`VRFeedback/`). One Dafny module covers each component.

- `Voting` (voting.dfy) is the temporal voting buffer of `BCICore`. It is a circular
  buffer of the last `sample_rate` per-sample class labels with two running vote
  counts. It yields the smoothed class label and the "distance" that drives the feedback
  glow. The module also holds `calculate_accuracy`.
- `ChannelMap` (channel_map.dfy) is `__select_enabled_channels`. It covers the enabled
  channel indices and the per-ROI (region of interest) positions in the reduced
  channel vector, in `average` and `single` mode.
- `Erds` (erds.dfy) is the ERDS (event-related desynchronisation/synchronisation)
  arithmetic: the baseline taken over the reference rows, the relative power change
  against it, and its mean per ROI. A float that is NaN or infinite is `None`.
- `BciSession` (bci_session.dfy) is the online session `BCI` as a class. It holds the
  phase set by markers, the reference rows and the baseline. It runs one sequential
  step of the ERDS worker and one of the classification worker.
- `OfflineIndices` (offline_indices.dfy) is the index arithmetic of the offline CSP
  (common spatial patterns) calibration. It covers the epoch windows of
  `__extract_epochs` with Python slice semantics, and the CSP eigenvector column mask.
- `XdfLabels` (xdf_labels.dfy) is `find_nearest_index` and `add_class_labels_to_eeg`.
  They write class codes 121/122 into a label column at the EEG sample after each cue.
- `SequenceGenerator` (sequence_generator.dfy) is `create_sequence`: the tasks are
  repeated once per trial and then shuffled. The random numbers are a parameter.
- `Scenario` (scenario.dfy) is the Unity `ScenarioController`. It is the round/condition
  machine that reads a block of lines such as `MI_l` and announces the events of
  every trial in order.
- `TextureColor` (texture_color.dfy) is the Unity `TextureColorController`. It redraws
  only on every 150th ERDS sample, applies a 0.05 hysteresis per ROI, and sets the glow
  colour on correct or wrong feedback.

Components that update state in place are classes whose methods are proved against pure
step functions: `Voting.VotingBuffer`, `BciSession.Bci`, `Scenario.ScenarioController`
and `TextureColor.TextureColorController`. The properties are proved as lemmas about
those step functions. Loops of the source are methods with loop invariants.

Where the code and its written description differ, the model follows the code:

- Distance lag. The distance is read from the vote counts before they are updated
  (`FeedbackModel/bci_modules.py`, line 249 against line 252). So after a reset,
  `sample_rate` equal labels report `(sample_rate - 1) / sample_rate`, not 1. The
  distance reaches 1 only on the next sample (`Voting.ConstantLabelSaturates`).
- No enabled channels. A configuration without enabled channels is not rejected by
  the code. It gives an empty channel selection.

## Model

| member | source | states |
|---|---|---|
| Voting.CountZeros | FeedbackModel/bci_modules.py:225 | a zero buffer holds no vote for a class label |
| Voting.CountUpdate | FeedbackModel/bci_modules.py:245-251 | overwriting the slot under the cursor changes a label's count only by the label that left and the one that arrived, which is the incremental update of `is_class_1`/`is_class_2` |
| Voting.CountTwoBound | FeedbackModel/bci_modules.py:245-252 | the two class counts together never exceed the buffer length |
| Voting.CountConstant | FeedbackModel/bci_modules.py:245-252 | a buffer holding one label everywhere counts the full length for it |
| Voting.Initial | FeedbackModel/bci_modules.py:224-227 | the reset state is a zero buffer of length `sample_rate` with counts [0, 0] and cursor 0, and its counts agree with a rescan |
| Voting.VoteStep | FeedbackModel/bci_modules.py:242-259 | the state after a step is well formed with the cursor inside the buffer, and the label reported is class 1 or class 2 |
| Voting.StepKeepsInv | FeedbackModel/bci_modules.py:245-257 | after each step the two counts equal the number of slots holding 1 and 2; exactly the cursor's slot is overwritten; the cursor advances cyclically, `(cursor + 1) mod sample_rate` |
| Voting.StepOutput | FeedbackModel/bci_modules.py:247-249 | the label is the class with more votes in the updated buffer, ties going to class 1; the distance is that class's count BEFORE the update over `sample_rate`, in [0, 1]; the counts sum to at most `sample_rate` |
| Voting.FilledStep | FeedbackModel/bci_modules.py:245-257 | from a reset buffer holding `j` copies of a label, one more copy fills slot `j` and reports distance `j / sample_rate` |
| Voting.ConstantRunState | FeedbackModel/bci_modules.py:245-257 | `m` more equal labels leave `j + m` filled slots |
| Voting.ConstantRun | FeedbackModel/bci_modules.py:245-259 | the k-th of those labels reports distance `(j + k) / sample_rate` |
| Voting.SaturatedStep | FeedbackModel/bci_modules.py:247-249 | once the whole buffer holds a label, a further sample of it reports distance 1 |
| Voting.ConstantLabelSaturates | FeedbackModel/bci_modules.py:224-259 | after a reset, `sample_rate` equal labels take every vote, yet the last of them reports `(sample_rate - 1) / sample_rate`; the next one reports 1 |
| Voting.RunConstantWrites | FeedbackModel/bci_modules.py:242-259 | from any consistent state, m (at most `sample_rate`) equal labels overwrite exactly the m slots from the cursor on, cyclically, and keep the counts equal to a rescan |
| Voting.SaturatedVotes | FeedbackModel/bci_modules.py:245-252 | a consistent buffer holding one class label everywhere gives it `sample_rate` votes and the other class none |
| Voting.SaturatedAnyStep | FeedbackModel/bci_modules.py:245-257 | with every slot and every vote for a class, one more sample of it reports that class with distance 1 and leaves the buffer as it is |
| Voting.ConstantLabelTakesOver | FeedbackModel/bci_modules.py:242-259 | from ANY consistent state, `sample_rate` equal labels fill the whole buffer with that label and give it all `sample_rate` votes; the next one reports it with distance 1 |
| Voting.VotingBuffer.constructor | FeedbackModel/bci_modules.py:214-219 | a new core starts in the reset voting state |
| Voting.VotingBuffer.SetLdaDistanceParameters | FeedbackModel/bci_modules.py:224-227 | a fresh zero buffer, both counts 0, cursor 0 |
| Voting.VotingBuffer.LdaDistanceCalculation | FeedbackModel/bci_modules.py:242-259 | the in-place update of buffer, counts and cursor and its output are exactly one voting step, and the count invariant is kept |
| Voting.MatchesAll | FeedbackModel/bci_modules.py:262-268 | the match count equals the length exactly when the two sequences agree everywhere |
| Voting.CalculateAccuracy | FeedbackModel/bci_modules.py:262-268 | the share of reference positions matched, in [0, 1]; an empty reference is a division by zero; a shorter `values` is an index error |
| ChannelMap.Gather | FeedbackModel/bci_modules.py:91-92 | fancy indexing: entry p of the result is the entry at the p-th index |
| ChannelMap.EnabledCount | FeedbackModel/bci_modules.py:76-89 | padding the configuration table to the stream's channel count with disabled entries keeps the number of enabled channels |
| ChannelMap.Where | FeedbackModel/bci_modules.py:88 | the positions holding true, strictly increasing, all of them and only them, as many as there are true entries |
| ChannelMap.WhereEqual | FeedbackModel/bci_modules.py:96 | the strictly increasing list of exactly the positions holding the value |
| ChannelMap.ReadChannelTable | FeedbackModel/bci_modules.py:76-86 | the table is copied entry by entry into three stream-length lists; entries past the table stay disabled, ROI 0, id 0 |
| ChannelMap.AverageRoiMap | FeedbackModel/bci_modules.py:94-96 | ROI r (1..n_roi) receives exactly the reduced positions whose ROI is r |
| ChannelMap.SingleRoiMap | FeedbackModel/bci_modules.py:97-99 | one entry per listed channel id, holding exactly the reduced positions carrying it |
| ChannelMap.SelectEnabledChannels | FeedbackModel/bci_modules.py:75-99 | enabled indices strictly increasing, all enabled channels and only them, as many as are enabled, below the stream's channel count; every ROI position indexes the reduced vector; the per-mode maps above; no map for an unrecognised mode; a table longer than the stream is an index error |
| Erds.ReferenceRows | FeedbackModel/bci_modules.py:187 | the rows after the leading zero row and `idx_start_ref` warm-up rows; empty when the slice starts past the end |
| Erds.RoiMeans | FeedbackModel/bci_modules.py:134-136 | entry `roi` is the mean ERDS over that ROI's positions, for every ROI; no result (the index error) exactly when the map has fewer than `n_roi` entries |
| Erds.Mean | FeedbackModel/bci_modules.py:136 | a mean is finite exactly when it averages at least one value and all are finite |
| Erds.Baseline | FeedbackModel/bci_modules.py:186-188 | one value per channel, finite exactly when some reference row follows the zero row and the warm-up and every such row is finite on that channel |
| Erds.ErdsValue | FeedbackModel/bci_modules.py:132 | finite exactly when power and baseline are finite and the baseline is not zero, and then power is baseline times (1 + ERDS) |
| Erds.SumConstant | FeedbackModel/bci_modules.py:136 | the sum of n equal values v is n times v |
| Erds.SumBounds | FeedbackModel/bci_modules.py:136 | a sum lies between n times the least and n times the greatest bound |
| Erds.MeanOfConstant | FeedbackModel/bci_modules.py:187 | the mean of equal finite values is that value |
| Erds.MeanBounds | FeedbackModel/bci_modules.py:136 | a mean of bounded finite values is defined exactly when there are values, and then lies within the bounds |
| Erds.ErdsSign | FeedbackModel/bci_modules.py:132 | against a positive baseline the ERDS is negative exactly when power dropped, zero exactly when unchanged, and power equals baseline times (1 + ERDS) |
| Erds.BaselineOfConstant | FeedbackModel/bci_modules.py:186-188 | a channel holding v on every reference row after the warm-up has baseline v; with no such rows the baseline is NaN |
| Erds.ErdsExample | FeedbackModel/bci_modules.py:132 | baseline [2, 2] and power [3, 1] give ERDS [0.5, -0.5] |
| BciSession.Bci.constructor | FeedbackModel/bci_modules.py:101-104 | phase START with the ERDS worker running, one zero reference row, all-NaN baseline, a reset voting core, `idx_start_ref = sample_rate / 2`, and the enabled channels and ROI map of the channel selection |
| BciSession.Bci.ResetErds | FeedbackModel/bci_modules.py:101-104 | one zero reference row and an all-NaN baseline, phase unchanged |
| BciSession.Bci.StartupTick | FeedbackModel/bci_modules.py:170-172 | START becomes SLEEP once more than 3 whole seconds have elapsed; nothing else changes |
| BciSession.Bci.OnMarker | FeedbackModel/bci_modules.py:181-196 | `Reference`, `Cue`, `Feedback` and `End_of_Trial` set REFERENCE, CUE, FEEDBACK and BREAK from any phase. `Cue` takes the baseline when there is more than one row, and otherwise reports the error and keeps the old baseline. `End_of_Trial` resets the voting core and the reference rows. `Reference` keeps the rows. Any other marker changes nothing. A `Cue` that finds only the zero row leaves the baseline all NaN |
| BciSession.Bci.ErdsSample | FeedbackModel/bci_modules.py:117-138 | in REFERENCE exactly one row is appended; in FEEDBACK nothing is emitted iff power or baseline holds a NaN, else per ROI the mean of `(power - baseline) / baseline` over its positions. When the ROI map has fewer than `n_roi` entries the index error ends the worker, and a stopped worker changes nothing; the baseline is never touched. While only the zero reference row is held, or the baseline is all NaN, a session with enabled channels emits nothing |
| BciSession.Bci.ClassificationSample | FeedbackModel/bci_modules.py:147-157 | in FEEDBACK one voting step is taken and `[label - 1, distance]` emitted; in any other phase the voting state is unchanged |
| BciSession.EmittedClassification | FeedbackModel/bci_modules.py:157 | the emitted pair is a class index in {0, 1} and a distance in [0, 1] |
| BciSession.EndToEndExample | FeedbackModel/bci_modules.py:121-138 | at 128 Hz with 128 reference rows of power 4 after the zero row, the baseline is 4 and a feedback power of 8 gives ROI ERDS 1 |
| OfflineIndices.SliceBound | FeedbackModel/bci_modules.py:370 | a Python slice bound, normalised, lies in [0, len] and equals the bound when already inside |
| OfflineIndices.SliceIndices | FeedbackModel/bci_modules.py:370 | every index a slice selects is a valid column |
| OfflineIndices.EpochBounds | FeedbackModel/bci_modules.py:364-365 | `n_cue` and `n_samples - n_cue` are the whole samples of the cue and the task period; for non-negative durations the window bounds are ordered and the window is empty exactly when the task period holds less than one sample |
| OfflineIndices.EpochsOfDurations | FeedbackModel/bci_modules.py:363-381 | when every trial's window lies inside the recording, a class has `trials * floor(srate * d_task)` columns |
| OfflineIndices.ExtractEpochs | FeedbackModel/bci_modules.py:363-381 | the loop concatenates every trial's window in trial order |
| OfflineIndices.WindowInside | FeedbackModel/bci_modules.py:370 | a window inside the recording is the `n_samples - n_cue` consecutive columns starting `n_cue` after the cue |
| OfflineIndices.FlattenLength | FeedbackModel/bci_modules.py:372-373 | concatenating windows of equal width gives count times width columns |
| OfflineIndices.EpochsInside | FeedbackModel/bci_modules.py:363-381 | when every window lies inside the recording, no window is clipped, and a class has `trials * (n_samples - n_cue)` columns |
| OfflineIndices.CspMaskKeeps | FeedbackModel/bci_modules.py:397-398 | the mask keeps a column exactly when it is among the first two or the last two |
| OfflineIndices.SelectedPrefix | FeedbackModel/bci_modules.py:399 | a mask true on a prefix selects that prefix's columns in order |
| OfflineIndices.SelectedGap | FeedbackModel/bci_modules.py:399 | a run of false mask entries selects nothing |
| OfflineIndices.CspColumns | FeedbackModel/bci_modules.py:397-399 | the filter is made of eigenvector columns 0, 1, n-2 and n-1 for at least four channels, and of all columns otherwise |
| XdfLabels.SearchSortedRight | FeedbackModel/xdfToMat.py:41 | on sorted input, the insertion point after every element not greater than the value |
| XdfLabels.FindNearestIndex | FeedbackModel/xdfToMat.py:40-45 | -1 exactly for an empty array, else in [0, len-1]; every earlier element is not greater than the value; the element found is later than the value unless the value is past the last element, when the index is the last |
| XdfLabels.FirstLaterNotNearest | FeedbackModel/xdfToMat.py:40-45 | for samples at 0 and 10 and a cue at 1 the index is 1, not the nearer 0 |
| XdfLabels.IndicesWhere | FeedbackModel/xdfToMat.py:26-28 | the matching marker indices in stream order, all of them and only them |
| XdfLabels.ConditionCode | FeedbackModel/xdfToMat.py:29-30 | `Start_of_Trial_l` is 121, `Start_of_Trial_r` is 122, and any other trial start has no integer code |
| XdfLabels.LabelColumn | FeedbackModel/xdfToMat.py:32-35 | a successful label column has one entry per EEG timestamp |
| XdfLabels.LabelColumnSucceeds | FeedbackModel/xdfToMat.py:29-35 | labelling succeeds exactly when the recording has samples (or nothing is paired) and every paired condition is left or right |
| XdfLabels.FailurePersists | FeedbackModel/xdfToMat.py:33-35 | the first failing pair decides the error |
| XdfLabels.UntouchedIsZero | FeedbackModel/xdfToMat.py:32-35 | a sample no cue lands on keeps label 0 |
| XdfLabels.LastCueWins | FeedbackModel/xdfToMat.py:33-35 | a sample holds the code of the last paired cue landing on it |
| XdfLabels.LabelValues | FeedbackModel/xdfToMat.py:29-35 | every label is 0, 121 or 122 |
| XdfLabels.WithLabels | FeedbackModel/xdfToMat.py:37 | as many rows as the EEG series, each one longer, the label first and then the sample |
| XdfLabels.FillLabels | FeedbackModel/xdfToMat.py:32-35 | the zip loop over a zero column computes the label column, error included |
| XdfLabels.AddClassLabelsToEeg | FeedbackModel/xdfToMat.py:23-37 | the i-th cue pairs with the i-th trial start and the surplus is ignored. The result is the label column prepended to the EEG rows, or the labelling error |
| SequenceGenerator.RepeatLength | FeedbackModel/sequence_generator.py:11-13 | the unshuffled sequence has `trials * len(tasks)` entries |
| SequenceGenerator.RepeatCounts | FeedbackModel/sequence_generator.py:11-13 | each task occurs `trials` times per occurrence in `tasks` |
| SequenceGenerator.RepeatEmpty | FeedbackModel/sequence_generator.py:11-12 | empty exactly when `trials <= 0` or there are no tasks |
| SequenceGenerator.Build | FeedbackModel/sequence_generator.py:9-13 | the nested append loops build the tasks repeated `trials` times |
| SequenceGenerator.Shuffle | FeedbackModel/sequence_generator.py:15 | the in-place shuffle is a permutation |
| SequenceGenerator.CreateSequence | FeedbackModel/sequence_generator.py:8-16 | the result is a permutation of the tasks repeated `trials` times |
| SequenceGenerator.SequenceProperties | FeedbackModel/sequence_generator.py:8-16 | any such permutation has length `trials * len(tasks)` and `trials` copies of each task, and is empty exactly when `trials <= 0` or there are no tasks |
| Scenario.ConditionStrToInt | VRFeedback/Assets/Scripts/ScenarioController.cs:38-42 | defined exactly on "l" and "r", mapping to a hand |
| Scenario.ConditionIntToStr | VRFeedback/Assets/Scripts/ScenarioController.cs:44-48 | defined exactly on LEFT_HAND and RIGHT_HAND |
| Scenario.ConditionDictionariesInverse | VRFeedback/Assets/Scripts/ScenarioController.cs:38-48 | the two dictionaries are inverse to each other, in both directions |
| Scenario.LastUnderscore | VRFeedback/Assets/Scripts/ScenarioController.cs:158 | the position of the last `_`, or -1 |
| Scenario.LastPart | VRFeedback/Assets/Scripts/ScenarioController.cs:158 | the last element of `Split('_')` is a suffix without `_`, preceded by `_` unless it is the whole line |
| Scenario.LineSuffix | VRFeedback/Assets/Scripts/ScenarioController.cs:156-159 | any line `<prefix>_l` is the left hand and `<prefix>_r` the right hand |
| Scenario.SuffixConditionIsLookup | VRFeedback/Assets/Scripts/ScenarioController.cs:158-159 | deciding on the last two characters agrees with splitting and looking up, for every line |
| Scenario.LineCondition | VRFeedback/Assets/Scripts/ScenarioController.cs:158-159 | a loaded condition is a hand |
| Scenario.UpdateConditionStep | VRFeedback/Assets/Scripts/ScenarioController.cs:156-162 | the condition of line `round` is loaded and, with feedback on, copied to the feedback stream. A missing line or unknown suffix is an error that changes nothing. Round, events and scheduling are kept |
| Scenario.EndTrialStep | VRFeedback/Assets/Scripts/ScenarioController.cs:144-154 | the condition stays a hand |
| Scenario.TrialStep | VRFeedback/Assets/Scripts/ScenarioController.cs:124-142 | the condition stays a hand |
| Scenario.TrialAdvances | VRFeedback/Assets/Scripts/ScenarioController.cs:124-154 | a trial of a valid block raises trial start, reference, cue, feedback and trial end in order and increments round. Then the next line is loaded and a trial scheduled, or the session finishes with `startSession` false |
| Scenario.BlockStarts | VRFeedback/Assets/Scripts/ScenarioController.cs:108-122 | round 0, line 0's condition, the session-started event, the first trial scheduled |
| Scenario.TrialsFrom | VRFeedback/Assets/Scripts/ScenarioController.cs:144-154 | after k trials round is k; line k's trial is scheduled until every line has run, then nothing is and the session is over |
| Scenario.TrialsFromEvents | VRFeedback/Assets/Scripts/ScenarioController.cs:124-154 | after k trials the first k lines' trials have been announced in order, followed by session-finished after the last |
| Scenario.BlockProgress | VRFeedback/Assets/Scripts/ScenarioController.cs:108-154 | a started valid block runs its lines in order with round in [0, Count], announcing session start, each line's trial, then session end |
| Scenario.BlockRunsEveryLineOnce | VRFeedback/Assets/Scripts/ScenarioController.cs:144-154 | a block runs exactly as many trials as it has lines; nothing happens after that |
| Scenario.EmptyBlockFails | VRFeedback/Assets/Scripts/ScenarioController.cs:118-119 | an empty block cannot be started: line 0 does not exist |
| Scenario.ScenarioController.constructor | VRFeedback/Assets/Scripts/ScenarioController.cs:13-26 | round -1, condition LEFT_HAND, no session, nothing scheduled |
| Scenario.StartBlockStep | VRFeedback/Assets/Scripts/ScenarioController.cs:108-122 | round 0; when line 0 loads, its condition, the session-started event and the first trial scheduled; otherwise line 0's error and no other change |
| Scenario.BlockFinishedStep | VRFeedback/Assets/Scripts/ScenarioController.cs:170-174 | `startSession` false and session-finished appended, every other field kept |
| Scenario.ScenarioController.UpdateCondition | VRFeedback/Assets/Scripts/ScenarioController.cs:156-162 | the field updates are one `UpdateConditionStep` |
| Scenario.ScenarioController.StartBlock | VRFeedback/Assets/Scripts/ScenarioController.cs:108-122 | the field updates are one `StartBlockStep` |
| Scenario.ScenarioController.BlockFinished | VRFeedback/Assets/Scripts/ScenarioController.cs:170-174 | `startSession` false and session-finished raised |
| Scenario.ScenarioController.EndTrial | VRFeedback/Assets/Scripts/ScenarioController.cs:144-154 | the field updates are one `EndTrialStep` |
| Scenario.ScenarioController.RunTrial | VRFeedback/Assets/Scripts/ScenarioController.cs:124-142 | the trial's five events, then `EndTrial` |
| TextureColor.Inc32 | VRFeedback/Assets/Scripts/TextureColorController.cs:69 | the increment stays a 32-bit int and is exact below the maximum |
| TextureColor.CsRemainder | VRFeedback/Assets/Scripts/TextureColorController.cs:70 | C#'s truncating remainder lies strictly between -150 and 150 |
| TextureColor.ActsOnMultiples | VRFeedback/Assets/Scripts/TextureColorController.cs:69-71 | a call acts exactly when its counter is a multiple of 150, negative counters included |
| TextureColor.GlowFor | VRFeedback/Assets/Scripts/TextureColorController.cs:37-51 | the "true" colour exactly for correct feedback, never the neutral one; for a non-negative intensity never dimmer than the intensity given, and for a positive one brighter exactly when correct |
| TextureColor.NewSlots | VRFeedback/Assets/Scripts/TextureColorController.cs:73-104 | each of the six last values either stays or takes the value received for it, and changes only when that value moved past 0.05 |
| TextureColor.NewShader | VRFeedback/Assets/Scripts/TextureColorController.cs:75-104 | each ROI shader value either stays or takes the value received for its slot |
| TextureColor.ShaderSlot | VRFeedback/Assets/Scripts/TextureColorController.cs:75-104 | ROI i is drawn on the left hemisphere for even i and the right for odd i, in slot i / 2 |
| TextureColor.TextureColorController.constructor | VRFeedback/Assets/Scripts/TextureColorController.cs:20-22 | six zero last values and a zero counter; the materials show what the scene gives |
| TextureColor.TextureColorController.GlowIntensity | VRFeedback/Assets/Scripts/TextureColorController.cs:37-51 | both glow materials get the same colour and intensity |
| TextureColor.TextureColorController.ResetTexture | VRFeedback/Assets/Scripts/TextureColorController.cs:53-65 | neutral glow at intensity 1, the six last values 0, counter 0, shader values untouched |
| TextureColor.TextureColorController.UpdateErdsValues | VRFeedback/Assets/Scripts/TextureColorController.cs:67-104 | the counter is incremented with 32-bit wrap. Unless it is now a multiple of 150 nothing else changes. Otherwise slot i and ROI i's shader value take `values[i]` exactly when it moved more than 0.05. A short `values` is an error after the slots before it |
| TextureColor.SlotsTrackValues | VRFeedback/Assets/Scripts/TextureColorController.cs:73-104 | after an acting call every slot is within 0.05 of the value received |
| TextureColor.SlotChangesOnlyPastThreshold | VRFeedback/Assets/Scripts/TextureColorController.cs:73-104 | a slot changes only when the value moved past 0.05, and then to that value |
| TextureColor.HysteresisIdempotent | VRFeedback/Assets/Scripts/TextureColorController.cs:73-104 | the same values received again change nothing |
| TextureColor.ShaderFollowsSlots | VRFeedback/Assets/Scripts/TextureColorController.cs:75-104 | a shader value is written exactly when its slot is, with the same value; a shader showing the last values keeps showing them |
| TextureColor.StaleShaderAfterReset | VRFeedback/Assets/Scripts/TextureColorController.cs:53-79 | a reset does not redraw: a ROI value within 0.05 of 0 right after a reset leaves the previous trial's value on display |
| TextureColor.OneCallIn150 | VRFeedback/Assets/Scripts/TextureColorController.cs:69-71 | from a reset and before the counter wraps, call n acts iff n is a multiple of 150, and n / 150 of the first n calls act |
| TextureColor.CounterAfter | VRFeedback/Assets/Scripts/TextureColorController.cs:69 | the counter stays a 32-bit int over any number of calls |
| TextureColor.CounterCountsCalls | VRFeedback/Assets/Scripts/TextureColorController.cs:64-69 | after a reset the counter is the number of calls, up to the int maximum |
| TextureColor.CounterWraps | VRFeedback/Assets/Scripts/TextureColorController.cs:22-70 | call 2^31 wraps the counter to the int minimum, which does not act |

## Left out

- Filtering and features. `Bandpass`, `LogBandPower`, CSP/LDA training and `apply_csp` are floating-point signal processing and linear algebra behind library calls. The ERDS worker's input is the squared reference-band filter output. The classification worker's input is the per-sample class label.
- Score scaling. The score scaling and `nanargmax` in `classification` are floating-point normalisation. Their only role in the model is to produce a label.
- Concurrency. The three threads, and their unsynchronised reads and writes of the phase, are not modelled. Each worker's loop body is one sequential method.
- I/O. LSL stream resolution, `pull_sample`/`push_sample`, XDF/MAT files, configuration files and `print` are I/O. An emitted sample is an out-parameter, and the missing-baseline message is a flag.
- Wall-clock time. `local_clock()` in the startup wait is a parameter: the elapsed whole seconds passed to `Bci.StartupTick`.
- Unity coroutine waits, `NextFloat` and `QuitGame`. These are timing, randomness and application control; feedback-stream initialisation in `StartBlock` is left out with them. A scheduled `StartTrial` coroutine is a flag, and running it is one `RunTrial` call.
- Event manager and materials. The event manager's subscribers are replaced by a log of announced events. Unity materials are arrays of the values written. A glow is a colour name and the intensity it is multiplied by; colour arithmetic is not modelled.
- Floats. Floats are exact reals: float32 and float64 rounding are not modelled. An infinity and a NaN are both `None`, so `Erds.ErdsValue` treats a zero baseline as not finite, while the source's NaN check lets an infinity through.
- Random source. `random.shuffle` is a Fisher-Yates shuffle driven by the `draws` parameter. Only the permutation property is stated, not the distribution.
- BciSession.Bci.constructor: merges `__init__` (FeedbackModel/bci_modules.py:28-55), the ERDS worker's first `__reset_erds` (line 114) and the voting core the caller attaches afterwards (FeedbackModel/feedbackModel.py:48). The channel selection is a parameter that meets the ROI-map bound `ChannelMap.SelectEnabledChannels` ensures: every ROI position indexes the reduced vector. The ordering and membership facts of the enabled indices are not required. The state before that, with `data_ref` and `bci_core` still None, is not modelled.
- XdfLabels.FindNearestIndex: `np.searchsorted` on timestamps that are not sorted is not modelled; EEG time stamps are required to be sorted.
- Voting.VotingBuffer.LdaDistanceCalculation: requires a positive sample rate. With sample rate 0 the source fails on indexing an empty buffer, and that failure is not modelled.
- BciSession.Bci.ClassificationSample: requires a positive sample rate in FEEDBACK, for the same reason.
- BciSession.Bci.OnMarker: requires the startup phase to be over. The source does not read markers before its startup wait ends.
- XdfLabels.AddClassLabelsToEeg: requires the marker series and its time stamps to have equal length, as an XDF stream does. A trial start that is neither left nor right stays a string and fails when written into the integer column; it is an error result.
- OfflineIndices.ExtractEpochs: models the column indices of each class's epochs, not the EEG values or the second class's identical loop.
- OfflineIndices.CspColumns: models the eigenvector columns kept, not the eigenvectors.
- `__select_enabled_channels` and the configuration. The reduced channel count `n_enabled_channels` is the length of the enabled index list. The configuration dictionary is an ordered table of settings. A mode string matching neither mode builds no ROI map; with `n_roi > 0` the ERDS worker then fails with an index error on the first FEEDBACK sample whose power and baseline are all finite, as `Bci.ErdsSample` states.
