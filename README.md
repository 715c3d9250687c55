# Biosignal session processing: a Dafny model

The service accepts a recording session from a Muse headband and a PPG pulse sensor: a
rest block and a list of tasks. Each block holds EEG channel packets and a PPG sample
stream. For each block the service
- estimates a theta/beta band-power ratio from the left-frontal EEG channel;
- estimates a heart rate and an LF/HF heart-rate-variability ratio from the PPG stream.

The rest block yields a baseline. Each task's deviations from that baseline become:
- an arousal score, a squashed mean of four z-scores;
- a valence score, a squashed frontal asymmetry.

Each task then gets a normalized stress value and an emotion label taken from a
valence/arousal category table. The session gets the mean arousal, valence and stress and
a session-level label. Two read endpoints return stored sessions, grouped by relation
or belonging to one user. The user endpoint can filter by a project id that is embedded
in the session id. A separate legacy classifier maps raw per-electrode EEG entries to an
emotion.

Modules, one per source file (all `.dfy` files are verified together):

| file | module | models |
|---|---|---|
| `wrappers.dfy` | `Wrappers` | `Option` and `Result` |
| `floats.dfy` | `Floats` | IEEE doubles as `Finite(v) \| NaN \| PosInf \| NegInf`; sums and means; what the model assumes about `tanh` (`IsTanh`) |
| `emotion.dfy` | `Emotion` | `app/services/emotion.py` |
| `eeg_analysis.dfy` | `EegAnalysis` | `app/services/eeg_analysis.py` |
| `signal_processing.dfy` | `SignalProcessing` | `app/services/signal_processing.py` |
| `valence_arousal.dfy` | `ValenceArousal` | `app/services/valence_arousal.py` |
| `biometrics.dfy` | `Biometrics` | `app/models/biometrics.py` (request payload and its validators) |
| `process_session.dfy` | `ProcessSession` | `app/services/process_session.py` |
| `sessions.dfy` | `Sessions` | `app/routers/sessions.py` |

**The numerical library calls are oracles.** These are Welch band powers, NeuroKit peak
detection and HRV tables, `find_peaks`, band powers of an interpolated RR series, and
`np.std`. Each is a field of the `SignalProcessing.Oracles` value every estimator takes.
A call that raises is an oracle result of `None`. The code around the calls is modelled
as written: guards, thresholds, cleaning, interval filters, clamps and the fallback tiers.
The LF/HF ratio is a double all the way from `lf_hf_ratio` through `nz` to the arousal: an
infinite NeuroKit value reaches the baseline and the task deltas, as in the source.
For `tanh` the model assumes only `Floats.IsTanh`: range (-1, 1), odd, strictly
increasing.

**The pipeline is imperative in the source.** It appends to `task_records` and
`stresses` and adds rows to the database session. In the model:
- `ProcessSession.RunTasks` is a loop with invariants;
- `ProcessSession.RunSession` returns the rows it would store;
- both are proved against the specification functions `BaselineOf`, `Outcomes` and `Summarize`.

The legacy classifier's accumulation loop is `EegAnalysis.AccumulateElectrodes`. It
reports the `KeyError` for an electrode outside 0..3 as a `Failure`.

**Edge behaviour of the code as written, which the model keeps:**
- every interval filter is strict on both ends (`> 0.3 & < 2.0`, `> 0.4 & < 2.0`, `> 300 & < 2000`);
- one valid RR interval is enough for a heart rate;
- an AF7 packet that is present but empty falls back to TP9, because `[]` is falsy;
- an infinite asymmetry gives a valence of exactly ±1, not 0;
- a rest block with fewer than 192 clean PPG samples (150, say) gives an LF/HF ratio of 0;
  the proxy tier is reached only past that gate, with five peaks and three valid RR intervals;
- the arousal mean is `statistics.mean` of the four z-scores, that is their sum over 4;
- arousal is not strictly inside (-1, 1): an infinite LF/HF delta makes the mean infinite,
  and `tanh` then gives exactly 1 or -1, so a stored stress can be 1.0 or 0.0.

## Model

| member | source | states |
|---|---|---|
| Emotion.CatValence | app/services/emotion.py:21-28 | each of the four valence categories holds exactly on its band: below -0.5, [-0.5, 0), [0, 0.5), at least 0.5 |
| Emotion.CatArousal | app/services/emotion.py:31-36 | each of the three arousal categories holds exactly on its band: below -0.25, [-0.25, 0.25), at least 0.25 |
| Emotion.EmotionFromAxes | app/services/emotion.py:40-42 | the result is the table entry of the category pair when the pair is in the seven-entry table, otherwise Neutral 😐; it is always a table value or the default |
| Emotion.CatValenceMonotone | app/services/emotion.py:21-28 | a larger valence never gets a lower valence category |
| Emotion.CatArousalMonotone | app/services/emotion.py:31-36 | a larger arousal never gets a lower arousal category |
| Emotion.StrongNegativeIsNeutral | app/services/emotion.py:5-17 | the table has no strongly negative entry, so every valence below -0.5 is labelled Neutral |
| Emotion.ModerateArousal | app/services/emotion.py:5-17 | for a moderate arousal the label is Happy when valence is at least 0.5, otherwise Neutral |
| Emotion.StressedExactly | app/services/emotion.py:14 | the label is Stressed if and only if -0.5 <= valence < 0 and arousal >= 0.25 |
| Emotion.NeutralExactlyOffTable | app/services/emotion.py:40-42 | the label is Neutral if and only if the category pair is not in the table |
| EegAnalysis.AccumulateElectrodes | app/services/eeg_analysis.py:15-20 | succeeds if and only if every entry names electrode 0..3; on success the map has exactly those keys and each holds the concatenated samples of its entries in order; on failure the reported electrode is the first unknown one |
| EegAnalysis.EegValenceCat | app/services/eeg_analysis.py:37-44 | each of the four categories holds exactly on its asymmetry band, with cuts at -1, 0 and 1 |
| EegAnalysis.EegArousalCat | app/services/eeg_analysis.py:46-54 | a NaN ratio gives the `none` category and only it does; otherwise the bands below 0.8, [0.8, 1.2) and at least 1.2 |
| EegAnalysis.ClassifyEeg | app/services/eeg_analysis.py:22-75 | the result is one of the twelve table values or Neutral 😐 |
| EegAnalysis.DetectEmotionFromEeg | app/services/eeg_analysis.py:4-77 | with only known electrodes the result is the classification of electrodes 1 and 2; otherwise it fails with an electrode outside 0..3 |
| EegAnalysis.RatioIsConstant | app/services/eeg_analysis.py:26-31 | since theta is 0.8 times alpha, the theta/alpha ratio is 0.8 whenever the alpha average is nonzero and NaN otherwise |
| EegAnalysis.EegMapComplete | app/services/eeg_analysis.py:57-73 | every valence category paired with a real arousal category is in the table, and no `none` pair is |
| EegAnalysis.ClassifyEegOutcome | app/services/eeg_analysis.py:23-75 | over exact reals, the classifier returns Neutral exactly when the alpha average is 0, and otherwise the moderate-arousal entry of the asymmetry's valence category |
| EegAnalysis.OnlyFrontalElectrodesMatter | app/services/eeg_analysis.py:20-24 | adding an entry for electrode 0 or 3 changes neither frontal bucket nor whether the input is accepted |
| SignalProcessing.SafeDiv | app/services/signal_processing.py:12-16 | 0 for a zero or NaN divisor or a NaN numerator; the real quotient for finite operands; NaN only for infinity over infinity |
| SignalProcessing.Nz | app/services/signal_processing.py:18-20 | never NaN; None and NaN become 0; every other value is kept |
| SignalProcessing.NzIdempotent | app/services/signal_processing.py:18-20 | applying `nz` twice is the same as once |
| SignalProcessing.DropNaN | app/services/signal_processing.py:43 | keeps only non-NaN samples of the input, never more of them |
| SignalProcessing.DropNaNMembership | app/services/signal_processing.py:43 | a sample survives if and only if it is in the input and not NaN |
| SignalProcessing.DropNaNAppend | app/services/signal_processing.py:43 | the mask distributes over concatenation, so the kept samples stay in order |
| SignalProcessing.DropInf | app/services/signal_processing.py:44 | keeps only non-infinite samples of the input, never more of them |
| SignalProcessing.DropInfMembership | app/services/signal_processing.py:44 | a sample survives if and only if it is in the input and not infinite |
| SignalProcessing.DropInfAppend | app/services/signal_processing.py:44 | the mask distributes over concatenation, so the kept samples stay in order |
| SignalProcessing.CleanEeg | app/services/signal_processing.py:43-44 | the cleaned EEG is all finite and no longer than the input |
| SignalProcessing.CleanEegMembership | app/services/signal_processing.py:43-44 | a sample survives both masks if and only if it is in the input and finite |
| SignalProcessing.CleanEegAppend | app/services/signal_processing.py:43-44 | EEG cleaning distributes over concatenation, so the finite samples stay in order |
| SignalProcessing.CleanEegOfFinite | app/services/signal_processing.py:43-44 | cleaning an all-finite signal changes nothing |
| SignalProcessing.CleanPpg | app/services/signal_processing.py:117 | the cleaned PPG is never longer than the input |
| SignalProcessing.CleanPpgMembership | app/services/signal_processing.py:117 | a value survives if and only if it is a present finite sample of the input |
| SignalProcessing.CleanPpgAppend | app/services/signal_processing.py:117 | PPG cleaning distributes over concatenation, so the kept values stay in order |
| SignalProcessing.CleanPpgKeepsAll | app/services/signal_processing.py:117 | PPG cleaning keeps every sample if and only if every sample is present and finite |
| SignalProcessing.Intervals | app/services/signal_processing.py:138 | a peak list of n >= 2 gives n - 1 intervals, a shorter one none |
| SignalProcessing.Between | app/services/signal_processing.py:141 | every kept interval lies strictly inside the window |
| SignalProcessing.BetweenMembership | app/services/signal_processing.py:141 | an interval is kept if and only if it is in the input and strictly inside the window |
| SignalProcessing.RateBounds | app/services/signal_processing.py:148-149 | the mean of intervals inside (lo, hi) is positive and 60 divided by it lies strictly between 60/hi and 60/lo |
| SignalProcessing.NfftGuardUnreachable | app/services/signal_processing.py:54-64 | a signal that passed the length check is always at least one Welch window long, so the second guard never fires; the window is 256 exactly for a task shorter than 512 samples |
| SignalProcessing.ThetaBetaRatio | app/services/signal_processing.py:24-104 | 0 for fewer than 256 (task) or 512 (rest) samples before or after cleaning; a nonzero result is theta over beta of the band powers of the cleaned signal, with beta positive |
| SignalProcessing.ThetaBetaNonNegative | app/services/signal_processing.py:91-96 | with nonnegative theta power the ratio is never negative |
| SignalProcessing.SimpleHrEstimation | app/services/signal_processing.py:160-201 | 0 for fewer than 64 samples; otherwise 0 or strictly between 30 and 150 bpm; a nonzero rate needs at least two peaks and one interval inside (0.4, 2.0) s; with 64 samples, peaks and such an interval, the rate is 60 over the mean of the intervals inside (0.4, 2.0) s |
| SignalProcessing.HrFromPpg | app/services/signal_processing.py:107-157 | 0 below the 64/128 clean-sample minimum; the simple estimator below 200 clean samples; always 0 or strictly between 30 and 200 bpm |
| SignalProcessing.HrFullPath | app/services/signal_processing.py:129-152 | with 200 or more clean samples and peaks yielding an interval in (0.3, 2.0) s, the rate is 60 over the mean valid interval |
| SignalProcessing.HrFallback | app/services/signal_processing.py:129-157 | with 200 or more clean samples, a failed peak search, fewer than two peaks or no interval in (0.3, 2.0) s gives the simple estimate of the cleaned samples |
| SignalProcessing.SimpleGuardUnreachable | app/services/signal_processing.py:163-164 | the simple estimator's own 64-sample guard never fires after the minimum of 64/128 |
| SignalProcessing.SimpleLfHf | app/services/signal_processing.py:310-331 | 0 for fewer than three intervals, otherwise clamped to [0.1, 10] |
| SignalProcessing.ArangeLength | app/services/signal_processing.py:276-277 | the `np.arange(0, stop, step)` grid has the least n with n*step >= stop points |
| SignalProcessing.ManualLfHf | app/services/signal_processing.py:265-307 | 0 for fewer than 10 intervals; the simple proxy when the 4 Hz grid has fewer than 20 points; LF over HF when the grid is large enough and the band powers exist with HF positive; any value other than the proxy is that quotient |
| SignalProcessing.LfHfChain | app/services/signal_processing.py:204-262 | every tier yields a finite value or +inf, and only finite values when NeuroKit's result must be finite |
| SignalProcessing.LfHfRatioAsWritten | app/services/signal_processing.py:243-250 | as written, the result is finite or +inf, and +inf only when NeuroKit returned +inf |
| SignalProcessing.LfHfRatio | app/services/signal_processing.py:204-262 | corrected: 0 below 128 (task) or 192 (rest) clean samples; a nonzero value needs at least five detected peaks |
| SignalProcessing.LfHfTiers | app/services/signal_processing.py:224-258 | with five or more peaks the value is 0 below three valid RR intervals, the proxy below ten, otherwise NeuroKit's value when finite and positive, otherwise the manual estimate |
| SignalProcessing.LfHfNonNegative | app/services/signal_processing.py:204-262 | with nonnegative LF power the ratio is never negative |
| SignalProcessing.ManualNonNegative | app/services/signal_processing.py:265-307 | with nonnegative LF power the manual estimate is never negative |
| SignalProcessing.LfHfReadingsAgree | app/services/signal_processing.py:249-250 | when NeuroKit never returns +inf, the as-written and corrected ratios agree |
| SignalProcessing.NeuroKitInfinityPassesAsWritten | app/services/signal_processing.py:206-250 | past the clean-sample gate, with five peaks and ten valid RR intervals, a NeuroKit value of +inf is what the as-written ratio returns |
| SignalProcessing.LfHfAsWrittenReturnsInfinity | app/services/signal_processing.py:243-250 | a concrete 704-sample block (rest or task) whose peak finders report only increasing indices inside the block, here eleven peaks one second apart, makes the as-written ratio +inf, where the corrected one falls through to the manual floor 0.1 |
| ValenceArousal.Z | app/services/valence_arousal.py:9-11 | 0 for a zero divisor or a NaN value, otherwise the quotient; never NaN |
| ValenceArousal.MeanOfScores | app/services/valence_arousal.py:14-21 | with finite theta, GSR and heart-rate deltas, `statistics.mean` of the four signed z-scores is their exact average for a finite HRV delta, the average with a zero HRV term for NaN, and -inf or +inf for an HRV delta of +inf or -inf |
| ValenceArousal.ArousalFeature | app/services/valence_arousal.py:14-21 | for finite deltas arousal is tanh of the mean of the four signed z-scores; a NaN HRV delta counts as 0; an HRV delta of +inf gives exactly -1 and -inf exactly 1; a finite result lies in [-1, 1] |
| ValenceArousal.HrvTermDoubleNegation | app/services/valence_arousal.py:17 | called with -dLf, the HRV term enters with a plus sign: a higher LF/HF raises arousal |
| ValenceArousal.ArousalAtBaseline | app/services/valence_arousal.py:14-21 | zero deviations give arousal 0, also when the HRV delta is NaN |
| ValenceArousal.ArousalMonotone | app/services/valence_arousal.py:14-21 | arousal does not decrease as the heart-rate or GSR deviation grows, nor as the theta/beta or HRV argument shrinks |
| ValenceArousal.ValenceFeature | app/services/valence_arousal.py:24-26 | NaN exactly for a NaN asymmetry; tanh(asym/20) for a finite one, so strictly inside (-1, 1); ±1 for ±inf |
| ValenceArousal.ValenceMonotone | app/services/valence_arousal.py:24-26 | valence never decreases as the asymmetry grows |
| Biometrics.ParseChannel | app/models/biometrics.py:4-8 | a channel label is accepted if and only if it is one of TP9, AF7, AF8, TP10 |
| Biometrics.ChannelRoundTrip | app/models/biometrics.py:4 | parsing a channel's label gives the channel back, and a parsed label is that channel's label |
| Biometrics.ParseContext | app/models/biometrics.py:45 | a context type is accepted if and only if it is task_evaluation, meeting or calibration |
| Biometrics.ContextRoundTrip | app/models/biometrics.py:45 | parsing a context's name gives it back, and a parsed name is that context's name |
| Biometrics.DropNone | app/models/biometrics.py:21 | the kept entries are all present and no more than the input |
| Biometrics.CleanNumericList | app/models/biometrics.py:16-22 | null gives an empty list; a list loses its None entries, so the validated `Samples` hold no None; anything else is the TypeError with its message |
| Biometrics.DropNoneIdempotent | app/models/biometrics.py:21 | filtering twice equals filtering once |
| Biometrics.DropNoneLength | app/models/biometrics.py:21 | nothing is dropped if and only if no entry is None |
| Biometrics.DropNoneAppend | app/models/biometrics.py:21 | filtering distributes over concatenation, so order is kept |
| Biometrics.DropNoneMembership | app/models/biometrics.py:21 | an entry survives if and only if it is in the input and not None |
| ProcessSession.FirstChannelIsFirstMatch | app/services/process_session.py:18-22 | `pick` returns the values of the first packet with the requested channel |
| ProcessSession.FirstChannelNoMatch | app/services/process_session.py:18-22 | `pick` returns an empty list when no packet has the channel |
| ProcessSession.Pick | app/services/process_session.py:18-22 | the scanning loop returns the first match's values, or an empty list |
| ProcessSession.LeftFrontal | app/services/process_session.py:88 | AF7 is used if and only if it is non-empty; otherwise the TP9 values |
| ProcessSession.Asymmetry | app/services/process_session.py:92 | 0 when either channel is empty; never NaN |
| ProcessSession.AsymmetryOfFinite | app/services/process_session.py:92 | for non-empty finite channels it is mean(AF7) - mean(AF8) |
| ProcessSession.BaselineOf | app/services/process_session.py:65-74 | the baseline heart rate is never 0: a measured nonzero rate is kept, otherwise 70; it is 70 or strictly between 30 and 200, and 70 when the rest PPG is too short; the LF/HF ratio is the as-written reading, finite or +inf |
| ProcessSession.TaskSignals | app/services/process_session.py:88-97 | a task's asymmetry is never NaN; a task without PPG takes the baseline heart rate; otherwise the rate is the measured one, 0 or strictly between 30 and 200; the LF/HF ratio is the as-written reading, finite or +inf |
| ProcessSession.CorrectedReadingsInPipeline | app/services/process_session.py:68-94 | when NeuroKit never returns +inf, the baseline and task LF/HF values are the finite corrected ratios |
| ProcessSession.Affect | app/services/process_session.py:99-108 | the deltas are measured minus baseline, the measured signals are copied, and stress is (arousal + 1)/2 |
| ProcessSession.TaskOutcome | app/services/process_session.py:87-110 | keeps each task's id and name; a task without PPG shows the baseline rate and zero heart-rate delta |
| ProcessSession.AffectBounds | app/services/process_session.py:104-108 | arousal is in [-1, 1], stress in [0, 1], valence in [-1, 1], and in (-1, 1) for a finite asymmetry; arousal and stress lie strictly inside unless the LF/HF delta is infinite; a delta of +inf gives arousal 1 and stress 1, -inf gives -1 and 0 |
| ProcessSession.TaskOutcomeBounds | app/services/process_session.py:87-119 | the same bounds for every task, plus the stored heart rate is the baseline's, 0, or in (30, 200) |
| ProcessSession.InfiniteLfHfSaturatesStress | app/services/process_session.py:94-108 | a task of 704 flat PPG samples with eleven in-block peaks whose NeuroKit HRV table reads +inf, against a finite baseline, has LF/HF +inf, arousal 1 and stress 1.0 |
| ProcessSession.AffectSaturates | app/services/process_session.py:94-108 | an infinite LF/HF reading against a finite baseline gives an infinite delta, arousal exactly 1 and stress exactly 1.0 |
| ProcessSession.AtBaselineArousalIsZero | app/services/process_session.py:100-108 | a task that matches the baseline exactly has arousal 0 and stress 0.5 |
| ProcessSession.TaskArousalFormula | app/services/process_session.py:104 | with a finite LF/HF delta, a task's arousal is tanh((-(dTheta/0.2) + dLf/0.5 + 0/0.3 + dHr/5)/4) |
| ProcessSession.TaskLabel | app/services/process_session.py:110 | a task's label is the table label of its own axes, and it is Stressed exactly in the stressed region |
| ProcessSession.SignalFreeTask | app/services/process_session.py:88-97 | a task with no EEG and no PPG measures zero ratios, zero asymmetry and the baseline heart rate |
| ProcessSession.SignalFreeBaseline | app/services/process_session.py:65-74 | a rest block with no signals gives the baseline (0, 0, 70) |
| ProcessSession.Outcomes | app/services/process_session.py:87-119 | one result per task |
| ProcessSession.OutcomesAt | app/services/process_session.py:87-119 | the i-th result depends only on the i-th task and the baseline |
| ProcessSession.Summarize | app/services/process_session.py:122-128 | a summary exists if and only if there was a task, and its emotion is the table label of its mean axes |
| ProcessSession.MeanOfStresses | app/services/process_session.py:108-128 | the mean stress is (mean arousal + 1)/2 |
| ProcessSession.SummaryBounds | app/services/process_session.py:122-128 | the session arousal is in [-1, 1], valence in [-1, 1], stress in [0, 1] and equal to (arousal + 1)/2; arousal and stress lie strictly inside when every task's arousal does |
| ProcessSession.OutcomeBoundsAt | app/services/process_session.py:87-119 | the i-th result satisfies the per-task bounds, strict when the baseline LF/HF is finite and NeuroKit never returns +inf |
| ProcessSession.SummaryOfSession | app/services/process_session.py:87-128 | the closed bounds hold for the summary of every non-empty session; with a finite baseline LF/HF and a NeuroKit that never returns +inf, average arousal and stress lie strictly inside |
| ProcessSession.TaskRows | app/services/process_session.py:112-119 | one stored task row per task |
| ProcessSession.MeasureBaseline | app/services/process_session.py:65-74 | the baseline step computes `BaselineOf`, with its default of 70 bpm |
| ProcessSession.MeasureTask | app/services/process_session.py:88-97 | the per-task measurement computes `TaskSignals` |
| ProcessSession.RunTask | app/services/process_session.py:87-119 | one loop iteration computes `TaskOutcome` |
| ProcessSession.SummaryOfRecords | app/services/process_session.py:122-128 | the summary computed from the accumulated records and stresses is `Summarize` of the results |
| ProcessSession.ProjectionsAppend | app/services/process_session.py:107-119 | appending a result appends one record, one stress and one row |
| ProcessSession.RunTasks | app/services/process_session.py:84-119 | the per-task loop's records, stresses and rows are exactly those of `Outcomes` of the tasks, in order |
| ProcessSession.RunSession | app/services/process_session.py:51-128 | the stored baseline, task rows and session row are those of the specification functions |
| ProcessSession.SignalFreeTaskIsCalm | app/services/process_session.py:97-108 | against the empty baseline, a signal-free task has arousal 0, valence 0 and stress 0.5 |
| ProcessSession.CalmResultsSummary | app/services/process_session.py:122-128 | calm results summarize to (0, 0, Neutral, 0.5) |
| ProcessSession.SignalFreeSessionIsNeutral | app/services/process_session.py:51-128 | a session with no signals at all is stored as Neutral with stress 0.5 |
| Sessions.Split | app/routers/sessions.py:145 | `str.split` yields one more part than there are separators |
| Sessions.SplitPartsHaveNoSeparator | app/routers/sessions.py:145 | no part contains the separator |
| Sessions.JoinSplit | app/routers/sessions.py:145 | joining the parts gives the id back |
| Sessions.SplitJoin | app/routers/sessions.py:145 | splitting a join of separator-free parts gives the parts back |
| Sessions.FloatIfTruthy | app/routers/sessions.py:54-56 | a value is reported if and only if it is present and nonzero, unchanged |
| Sessions.FloatIfTruthyIdempotent | app/routers/sessions.py:54-56 | applying the truthiness mapping twice equals applying it once |
| Sessions.FirstBaseline | app/routers/sessions.py:49-57 | a baseline is reported if and only if one is stored, and it is the first one |
| Sessions.SessionResponseOf | app/routers/sessions.py:48-90 | the response carries the session's and user's ids and the first baseline; it has one task entry per stored task, in order; zero floats are dropped |
| Sessions.BuildResponses | app/routers/sessions.py:167-208 | one response per session, in order |
| Sessions.KeepsExactly | app/routers/sessions.py:145-157 | with a project id, a session is kept if and only if its id has at least three underscores and its third part is that id |
| Sessions.Kept | app/routers/sessions.py:140-157 | filtering never adds sessions |
| Sessions.FilterByProject | app/routers/sessions.py:140-157 | the filtering loop computes `Kept` |
| Sessions.KeptWithoutProject | app/routers/sessions.py:150-157 | without a project id every session is kept |
| Sessions.KeptMembership | app/routers/sessions.py:140-157 | a session is kept if and only if it was returned by the query and passes the project test |
| Sessions.KeptAppend | app/routers/sessions.py:140-157 | filtering distributes over concatenation, so the query order is kept |
| Sessions.GetUserSessions | app/routers/sessions.py:107-210 | 404 for a user without sessions; 404 with the project suffix when the filter leaves none; success if and only if the filter keeps a session, with one response per kept session |
| Sessions.GetSessionsByRelation | app/routers/sessions.py:13-98 | 404 when the relation has no sessions; otherwise one response per session and a participant count equal to the number of sessions |

## Left out

- Database access is not modelled: the SQL queries, joins and ordering; `flush`,
  `commit` and `rollback`; the `safe_db_operation` retry loop. The endpoints take the rows
  the query returned, in its order. `RunSession` returns the rows that would be added.
- The HTTP 500 paths for unexpected exceptions (`app/routers/sessions.py:100-104`,
  `212-216`) and the re-raise in `process_session` are not modelled. The estimators'
  own `except` branches are modelled through oracle results of `None`.
- Logging to stdout is left out.
- Floating-point rounding and overflow are not modelled. Finite doubles are reals, and
  NaN and infinities are modelled only where a guard tests for them or where they reach a
  stored value (cleaning, `nz`, `safe_div`, the LF/HF ratio and its arousal term,
  asymmetry, valence).
- The `Numeric(5,3)` column type of the stored baseline LF/HF is not modelled, so the
  model does not say what the database does with an infinite ratio.
- `tanh`, Welch band powers, NeuroKit peak detection and HRV, `find_peaks`, detrending,
  RR interpolation with band powers, and `np.std` are not computed. They are parameters
  (`Oracles`, `tanh`), and an exception in them becomes a `None` result.
- The theta/beta and heart-rate estimators return reals in the model, so `nz` applied to
  them is the identity and the model does not repeat it. The LF/HF estimator returns a
  double, and `nz` is applied to it.
- The `hr` stream, `userRating`, `explanation` and `participantId` are carried by the
  payload. The pipeline does not use them.
- Creation timestamps, user names and avatar URLs are opaque values. They pass through
  to the responses unchanged.
- Pydantic's coercion of JSON values to the declared types is not modelled. Only the
  `clean_numeric_list` validator and the two `Literal` checks are.
- `Stored` is the model of what `process_session` writes, with column names shortened.
- ValenceArousal.ArousalMonotone: assumes only that `tanh` is strictly increasing. It
  does not state the rate at which arousal changes.
- ValenceArousal.ArousalFeature: the theta, GSR and heart-rate deltas the pipeline passes
  are always finite, so the contract characterises the result only for those; the HRV
  delta may be finite, NaN or infinite.
- SignalProcessing.ThetaBetaRatio: when the band-power oracle returns a value whose beta
  power is not positive, or returns nothing, the result is 0 (as in
  `app/services/signal_processing.py:91-104`); the contract says only which results are
  nonzero.

## Findings

| source | as written | input that shows it | evidently intended | confidence | as-written member | corrected member |
|---|---|---|---|---|---|---|
| app/services/signal_processing.py:249-250 | the NeuroKit LF/HF value is accepted when `not np.isnan(value) and value > 0`, which +inf passes, so an infinite ratio reaches the baseline and the arousal score, where it saturates stress at 1.0 (`ProcessSession.InfiniteLfHfSaturatesStress`) | a rest or task block of 704 finite PPG samples (11 s at 64 Hz) whose peaks are at samples 0, 64, …, 640 (eleven peaks, ten RR intervals of 1000 ms) and a NeuroKit HRV table with LF/HF = +inf (HF power 0); `SignalProcessing.LfHfAsWrittenReturnsInfinity` | accept only a finite positive value and otherwise fall through to the manual estimate | not executed | SignalProcessing.LfHfRatioAsWritten | SignalProcessing.LfHfRatio |

The stored pipeline follows the code as written and uses `LfHfRatioAsWritten`.
`ProcessSession.CorrectedReadingsInPipeline` shows that whenever NeuroKit never reports
+inf, the pipeline's readings are the corrected `LfHfRatio`. Under that condition the
second clause of `ProcessSession.SummaryOfSession` gives the intended strict bounds on
average arousal and stress.
