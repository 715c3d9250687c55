/**
  The session pipeline without the database: a baseline from the calibration block, one
  feature/affect record per task measured against that baseline, and a session summary.
  The rows the source adds to the database are returned as values instead.
 */
module ProcessSession {
  import opened Wrappers
  import opened Floats
  import opened Emotion
  import opened SignalProcessing
  import opened ValenceArousal
  import opened Biometrics

  /** The values of the first packet on channel `name`, or no values. */
  function FirstChannel(packets: seq<ChannelPacket>, name: Channel): seq<Float>
    decreases |packets|
  {
    if |packets| == 0 then []
    else if packets[0].channel == name then packets[0].values
    else FirstChannel(packets[1..], name)
  }

  /** `FirstChannel` takes the earliest matching packet; later duplicates are ignored. */
  lemma {:induction false} FirstChannelIsFirstMatch(packets: seq<ChannelPacket>, name: Channel, k: nat)
    requires k < |packets| && packets[k].channel == name
    requires forall j :: 0 <= j < k ==> packets[j].channel != name
    ensures FirstChannel(packets, name) == packets[k].values
    decreases k
  {
    if k > 0 {
      FirstChannelIsFirstMatch(packets[1..], name, k - 1);
    }
  }

  lemma {:induction false} FirstChannelNoMatch(packets: seq<ChannelPacket>, name: Channel)
    requires forall j :: 0 <= j < |packets| ==> packets[j].channel != name
    ensures FirstChannel(packets, name) == []
    decreases |packets|
  {
    if |packets| > 0 {
      FirstChannelNoMatch(packets[1..], name);
    }
  }

  /** `pick`: a scan that stops at the first packet on the channel. */
  method Pick(packets: seq<ChannelPacket>, name: Channel) returns (values: seq<Float>)
    ensures values == FirstChannel(packets, name)
  {
    for i := 0 to |packets|
      invariant FirstChannel(packets[i..], name) == FirstChannel(packets, name)
    {
      assert packets[i..][1..] == packets[i + 1..];
      if packets[i].channel == name {
        return packets[i].values;
      }
    }
    return [];
  }

  /** `pick(eeg, "AF7") or pick(eeg, "TP9")`: an absent or empty AF7 stream falls back to TP9. */
  function LeftFrontal(eeg: seq<ChannelPacket>): (r: seq<Float>)
    ensures |r| > 0 ==> r == FirstChannel(eeg, AF7) || r == FirstChannel(eeg, TP9)
    ensures |FirstChannel(eeg, AF7)| > 0 <==> r == FirstChannel(eeg, AF7) && |r| > 0
    ensures |FirstChannel(eeg, AF7)| == 0 ==> r == FirstChannel(eeg, TP9)
  {
    var af7 := FirstChannel(eeg, AF7);
    if |af7| > 0 then af7 else FirstChannel(eeg, TP9)
  }

  /** `nz(mean(af7) - mean(af8))` when both streams have samples, else 0. */
  function Asymmetry(af7: seq<Float>, af8: seq<Float>): (r: Float)
    ensures !r.NaN?
    ensures |af7| == 0 || |af8| == 0 ==> r == Finite(0.0)
  {
    if |af8| > 0 && |af7| > 0 then Nz(Some(Sub(FMean(af7), FMean(af8)))) else Finite(0.0)
  }

  lemma AsymmetryOfFinite(af7: seq<Float>, af8: seq<Float>)
    requires |af7| > 0 && |af8| > 0 && AllFinite(af7) && AllFinite(af8)
    ensures Asymmetry(af7, af8) == Finite(Mean(Values(af7)) - Mean(Values(af8)))
  {
    FMeanOfFinite(af7);
    FMeanOfFinite(af8);
  }

  /** The resting references. The LF/HF ratio is a double: `nz` keeps an infinite reading. */
  datatype Baseline = Baseline(thetaBeta: real, lfHf: Float, hr: real)

  /** The resting references; a heart rate that could not be measured is replaced by 70 bpm. */
  function BaselineOf(rest: RestData, o: Oracles): (b: Baseline)
    ensures b.hr != 0.0
    ensures b.hr == 70.0 || 30.0 < b.hr < 200.0
    ensures |CleanPpg(rest.ppg)| < MinHrSamples(false) ==> b.hr == 70.0
    ensures HrFromPpg(rest.ppg, false, o) != 0.0 ==> b.hr == HrFromPpg(rest.ppg, false, o)
    ensures b.lfHf.Finite? || b.lfHf == PosInf
    ensures b.lfHf == LfHfRatioAsWritten(rest.ppg, false, o)
  {
    var hr := HrFromPpg(rest.ppg, false, o);
    Baseline(ThetaBetaRatio(LeftFrontal(rest.eeg), false, o),
             Nz(Some(LfHfRatioAsWritten(rest.ppg, false, o))),
             if hr == 0.0 then 70.0 else hr)
  }

  /** What the pipeline derives for one task. */
  datatype TaskResult = TaskResult(
    taskId: string, taskName: string,
    thetaBeta: real, asymmetry: Float, lfHf: Float, heartRate: real,
    dTheta: real, dLf: Float, dHr: real,
    arousal: real, valence: real, stress: real, emotionLabel: string)

  /** The four measurements of one task. */
  datatype Signals = Signals(thetaBeta: real, asymmetry: Float, lfHf: Float, heartRate: real)

  /** The measuring half of one iteration of the per-task loop; a task without PPG reuses the baseline heart rate. */
  function TaskSignals(t: TaskPacket, base: Baseline, o: Oracles): (sig: Signals)
    ensures !sig.asymmetry.NaN?
    ensures |t.ppg| == 0 ==> sig.heartRate == base.hr
    ensures |t.ppg| > 0 ==> sig.heartRate == 0.0 || 30.0 < sig.heartRate < 200.0
    ensures |t.ppg| > 0 ==> sig.heartRate == HrFromPpg(t.ppg, true, o)
    ensures sig.lfHf.Finite? || sig.lfHf == PosInf
    ensures sig.lfHf == LfHfRatioAsWritten(t.ppg, true, o)
  {
    var af7 := LeftFrontal(t.eeg);
    var af8 := FirstChannel(t.eeg, AF8);
    Signals(ThetaBetaRatio(af7, true, o), Asymmetry(af7, af8), Nz(Some(LfHfRatioAsWritten(t.ppg, true, o))),
            if |t.ppg| > 0 then HrFromPpg(t.ppg, true, o) else base.hr)
  }

  /** The affect half: deltas against the baseline, then arousal, valence, stress and label. */
  function Affect(t: TaskPacket, base: Baseline, sig: Signals, tanh: real -> real): (r: TaskResult)
    requires !sig.asymmetry.NaN?
    ensures r.taskId == t.taskId && r.taskName == t.taskName
    ensures r.thetaBeta == sig.thetaBeta && r.asymmetry == sig.asymmetry && r.lfHf == sig.lfHf && r.heartRate == sig.heartRate
    ensures r.dTheta == r.thetaBeta - base.thetaBeta && r.dLf == Sub(r.lfHf, base.lfHf) && r.dHr == r.heartRate - base.hr
    ensures r.stress == (r.arousal + 1.0) / 2.0
  {
    var dTheta, dLf, dHr := sig.thetaBeta - base.thetaBeta, Sub(sig.lfHf, base.lfHf), sig.heartRate - base.hr;
    var arousal := ArousalFeature(tanh, Finite(dTheta), Floats.Neg(dLf), Finite(0.0), Finite(dHr)).v;
    var valence := ValenceFeature(tanh, sig.asymmetry).v;
    TaskResult(t.taskId, t.taskName, sig.thetaBeta, sig.asymmetry, sig.lfHf, sig.heartRate, dTheta, dLf, dHr,
               arousal, valence, (arousal + 1.0) / 2.0, EmotionFromAxes(valence, arousal).name)
  }

  /** One iteration of the per-task loop. */
  function TaskOutcome(t: TaskPacket, base: Baseline, o: Oracles, tanh: real -> real): (r: TaskResult)
    ensures r.taskId == t.taskId && r.taskName == t.taskName
    ensures |t.ppg| == 0 ==> r.heartRate == base.hr && r.dHr == 0.0
  {
    Affect(t, base, TaskSignals(t, base, o), tanh)
  }

  /**
    Arousal lies in [-1, 1], so stress lies in [0, 1]; valence stays in [-1, 1]. With a finite or
    NaN LF/HF delta they lie strictly inside; an infinite delta saturates them.
   */
  lemma AffectBounds(t: TaskPacket, base: Baseline, sig: Signals, tanh: real -> real)
    requires IsTanh(tanh)
    requires !sig.asymmetry.NaN?
    ensures var r := Affect(t, base, sig, tanh);
      && -1.0 <= r.arousal <= 1.0
      && 0.0 <= r.stress <= 1.0
      && -1.0 <= r.valence <= 1.0
      && (r.asymmetry.Finite? ==> -1.0 < r.valence < 1.0)
      && (!IsInf(r.dLf) ==> -1.0 < r.arousal < 1.0 && 0.0 < r.stress < 1.0)
      && (r.dLf == PosInf ==> r.arousal == 1.0 && r.stress == 1.0)
      && (r.dLf == NegInf ==> r.arousal == -1.0 && r.stress == 0.0)
  {
    hide ArousalFeature, ValenceFeature, EmotionFromAxes;
  }

  /** Affect and stress stay in range; heart rate is the baseline's, unmeasured (0) or plausible. */
  lemma TaskOutcomeBounds(t: TaskPacket, base: Baseline, o: Oracles, tanh: real -> real)
    requires IsTanh(tanh)
    ensures var r := TaskOutcome(t, base, o, tanh);
      && -1.0 <= r.arousal <= 1.0
      && 0.0 <= r.stress <= 1.0
      && -1.0 <= r.valence <= 1.0
      && (r.asymmetry.Finite? ==> -1.0 < r.valence < 1.0)
      && (!IsInf(r.dLf) ==> -1.0 < r.arousal < 1.0 && 0.0 < r.stress < 1.0)
      && (r.dLf == PosInf ==> r.arousal == 1.0 && r.stress == 1.0)
      && (r.heartRate == base.hr || r.heartRate == 0.0 || 30.0 < r.heartRate < 200.0)
  {
    hide Affect;
    AffectBounds(t, base, TaskSignals(t, base, o), tanh);
  }

  /** Where NeuroKit never reports +inf, both LF/HF readings are the intended finite ratios. */
  lemma CorrectedReadingsInPipeline(rest: RestData, t: TaskPacket, base: Baseline, o: Oracles)
    requires forall peaks :: o.hrvLfHf(peaks) != Some(PosInf)
    ensures BaselineOf(rest, o).lfHf == Finite(LfHfRatio(rest.ppg, false, o))
    ensures TaskSignals(t, base, o).lfHf == Finite(LfHfRatio(t.ppg, true, o))
  {
    LfHfReadingsAgree(rest.ppg, false, o);
    LfHfReadingsAgree(t.ppg, true, o);
  }

  /**
    A task of `FlatBlock` samples whose peak finders report only indices inside the block and whose
    NeuroKit HRV table reads +inf, measured against a finite baseline, has an infinite LF/HF delta:
    arousal saturates at 1 and stress at 1, at the edge of its range.
   */
  lemma InfiniteLfHfSaturatesStress(base: Baseline, tanh: real -> real)
    requires base.lfHf.Finite?
    ensures PeaksInBlock(InfiniteLfHfOracles())
    ensures var r := TaskOutcome(TaskPacket("t", "t", 0, None, [], FlatBlock(), []), base, InfiniteLfHfOracles(), tanh);
      r.lfHf == PosInf && r.dLf == PosInf && r.arousal == 1.0 && r.stress == 1.0
  {
    var o := InfiniteLfHfOracles();
    var t := TaskPacket("t", "t", 0, None, [], FlatBlock(), []);
    hide Affect, TaskSignals, FlatBlock, InfiniteLfHfOracles, LfHfRatioAsWritten, LfHfRatio, PeaksInBlock;
    LfHfAsWrittenReturnsInfinity(true);
    AffectSaturates(t, base, TaskSignals(t, base, o), tanh);
  }

  /** An infinite LF/HF reading against a finite baseline gives an infinite delta, arousal 1 and stress 1. */
  lemma AffectSaturates(t: TaskPacket, base: Baseline, sig: Signals, tanh: real -> real)
    requires !sig.asymmetry.NaN?
    requires base.lfHf.Finite? && sig.lfHf == PosInf
    ensures var r := Affect(t, base, sig, tanh);
      r.dLf == PosInf && r.arousal == 1.0 && r.stress == 1.0
  {
    hide ArousalFeature, ValenceFeature, EmotionFromAxes;
    assert Sub(sig.lfHf, base.lfHf) == PosInf;
  }

  /** Measurements equal to the baseline's give arousal 0 and stress one half. */
  lemma AtBaselineArousalIsZero(t: TaskPacket, base: Baseline, sig: Signals, tanh: real -> real)
    requires IsTanh(tanh)
    requires !sig.asymmetry.NaN?
    requires sig.thetaBeta == base.thetaBeta && sig.lfHf == base.lfHf && sig.heartRate == base.hr
    ensures Affect(t, base, sig, tanh).arousal == 0.0
    ensures Affect(t, base, sig, tanh).stress == 0.5
  {
    hide *;
    AffectAtBaseline(t, base, sig, tanh);
  }

  /** At the baseline every delta is 0, or NaN for an infinite LF/HF ratio at both ends. */
  lemma AffectAtBaseline(t: TaskPacket, base: Baseline, sig: Signals, tanh: real -> real)
    requires IsTanh(tanh)
    requires !sig.asymmetry.NaN?
    requires sig.thetaBeta == base.thetaBeta && sig.lfHf == base.lfHf && sig.heartRate == base.hr
    ensures Affect(t, base, sig, tanh).arousal == 0.0
  {
    hide ArousalFeature, ValenceFeature, EmotionFromAxes, Floats.Neg, Sub;
    SubSelf(base.lfHf);
    ArousalAtBaseline(tanh, sig.thetaBeta - base.thetaBeta, Floats.Neg(Sub(sig.lfHf, base.lfHf)), sig.heartRate - base.hr);
  }

  /** The arousal of a task with a finite LF/HF delta, the HRV sign flip written out: a rising LF/HF raises arousal. */
  lemma TaskArousalFormula(t: TaskPacket, base: Baseline, sig: Signals, tanh: real -> real)
    requires !sig.asymmetry.NaN?
    ensures var r := Affect(t, base, sig, tanh);
      r.dLf.Finite? ==> r.arousal == tanh((-(r.dTheta / 0.2) + r.dLf.v / 0.5 + 0.0 / 0.3 + r.dHr / 5.0) / 4.0)
  {
    hide ArousalFeature, ValenceFeature, EmotionFromAxes;
    var dTheta, dLf, dHr := sig.thetaBeta - base.thetaBeta, Sub(sig.lfHf, base.lfHf), sig.heartRate - base.hr;
    if dLf.Finite? {
      HrvTermDoubleNegation(tanh, dTheta, dLf.v, 0.0, dHr);
    }
  }

  /** A task's label is the label of its own (valence, arousal) point; Stressed pins that point's region. */
  lemma TaskLabel(t: TaskPacket, base: Baseline, sig: Signals, tanh: real -> real)
    requires !sig.asymmetry.NaN?
    ensures var r := Affect(t, base, sig, tanh);
      && r.emotionLabel == EmotionFromAxes(r.valence, r.arousal).name
      && (r.emotionLabel == "Stressed" <==> -0.5 <= r.valence < 0.0 && 0.25 <= r.arousal)
  {
    var r := Affect(t, base, sig, tanh);
    StressedExactly(r.valence, r.arousal);
  }

  /** A task without EEG or PPG measures nothing and keeps the baseline heart rate. */
  lemma SignalFreeTask(t: TaskPacket, base: Baseline, o: Oracles)
    requires t.eeg == [] && t.ppg == []
    ensures TaskSignals(t, base, o) == Signals(0.0, Finite(0.0), Finite(0.0), base.hr)
  {
    assert LeftFrontal(t.eeg) == [];
    assert |CleanPpg(t.ppg)| == 0;
  }

  /** A calibration block without EEG or PPG gives the reference heart rate 70 and zero ratios. */
  lemma SignalFreeBaseline(rest: RestData, o: Oracles)
    requires rest.eeg == [] && rest.ppg == []
    ensures BaselineOf(rest, o) == Baseline(0.0, Finite(0.0), 70.0)
  {
    assert LeftFrontal(rest.eeg) == [];
    assert |CleanPpg(rest.ppg)| == 0;
  }

  /** The loop over the tasks, as a sequence of iterations. */
  function Outcomes(tasks: seq<TaskPacket>, base: Baseline, o: Oracles, tanh: real -> real): (rs: seq<TaskResult>)
    ensures |rs| == |tasks|
    decreases |tasks|
  {
    if |tasks| == 0 then []
    else Outcomes(tasks[..|tasks| - 1], base, o, tanh) + [TaskOutcome(tasks[|tasks| - 1], base, o, tanh)]
  }

  /** The outcomes of one more task extend the outcomes so far by that task's outcome. */
  lemma OutcomesSnoc(tasks: seq<TaskPacket>, i: nat, base: Baseline, o: Oracles, tanh: real -> real)
    requires i < |tasks|
    ensures Outcomes(tasks[..i + 1], base, o, tanh) == Outcomes(tasks[..i], base, o, tanh) + [TaskOutcome(tasks[i], base, o, tanh)]
  {
    assert tasks[..i + 1][..i] == tasks[..i];
  }

  /** Entry `i` of the loop's results is the outcome of task `i`. */
  lemma {:induction false} OutcomesAt(tasks: seq<TaskPacket>, base: Baseline, o: Oracles, tanh: real -> real, i: nat)
    requires i < |tasks|
    ensures Outcomes(tasks, base, o, tanh)[i] == TaskOutcome(tasks[i], base, o, tanh)
    decreases |tasks|
  {
    var init := tasks[..|tasks| - 1];
    var last := TaskOutcome(tasks[|tasks| - 1], base, o, tanh);
    assert Outcomes(tasks, base, o, tanh) == Outcomes(init, base, o, tanh) + [last];
    if i < |tasks| - 1 {
      OutcomesAt(init, base, o, tanh, i);
      assert init[i] == tasks[i];
    }
  }

  function Arousals(rs: seq<TaskResult>): seq<real> {
    seq(|rs|, i requires 0 <= i < |rs| => rs[i].arousal)
  }

  function Valences(rs: seq<TaskResult>): seq<real> {
    seq(|rs|, i requires 0 <= i < |rs| => rs[i].valence)
  }

  function Stresses(rs: seq<TaskResult>): seq<real> {
    seq(|rs|, i requires 0 <= i < |rs| => rs[i].stress)
  }

  datatype SessionSummary = SessionSummary(arousal: real, valence: real, emotion: string, avgStress: real)

  /** The summary fields, set only when there was at least one task. */
  function Summarize(rs: seq<TaskResult>): (s: Option<SessionSummary>)
    ensures s.Some? <==> |rs| > 0
    ensures s.Some? ==> s.value.emotion == EmotionFromAxes(s.value.valence, s.value.arousal).name
  {
    if |rs| == 0 then None
    else
      var a := Mean(Arousals(rs));
      var v := Mean(Valences(rs));
      Some(SessionSummary(a, v, EmotionFromAxes(v, a).name, Mean(Stresses(rs))))
  }

  lemma {:induction false} SumOfStresses(xs: seq<real>, ys: seq<real>)
    requires |xs| == |ys|
    requires forall i :: 0 <= i < |xs| ==> ys[i] == (xs[i] + 1.0) / 2.0
    ensures Sum(ys) == (Sum(xs) + |xs| as real) / 2.0
    decreases |xs|
  {
    if |xs| > 0 {
      SumOfStresses(xs[..|xs| - 1], ys[..|ys| - 1]);
    }
  }

  lemma MeanOfStresses(xs: seq<real>, ys: seq<real>)
    requires |xs| == |ys| > 0
    requires forall i :: 0 <= i < |xs| ==> ys[i] == (xs[i] + 1.0) / 2.0
    ensures Mean(ys) == (Mean(xs) + 1.0) / 2.0
  {
    SumOfStresses(xs, ys);
    var n := |xs| as real;
    var q, m := Mean(ys), Mean(xs);
    assert q * n == Sum(ys) && m * n == Sum(xs);
    MulCancel(q, (m + 1.0) / 2.0, n);
  }

  /**
    Averages of per-task values that lie in range, with stress tied to arousal per task;
    strictly inside when every task's arousal is.
   */
  lemma SummaryBounds(rs: seq<TaskResult>)
    requires |rs| > 0
    requires forall i :: 0 <= i < |rs| ==>
      -1.0 <= rs[i].arousal <= 1.0 && -1.0 <= rs[i].valence <= 1.0 && rs[i].stress == (rs[i].arousal + 1.0) / 2.0
    ensures var s := Summarize(rs).value;
      && -1.0 <= s.arousal <= 1.0
      && -1.0 <= s.valence <= 1.0
      && s.avgStress == (s.arousal + 1.0) / 2.0
      && 0.0 <= s.avgStress <= 1.0
    ensures (forall i :: 0 <= i < |rs| ==> -1.0 < rs[i].arousal < 1.0) ==>
      -1.0 < Summarize(rs).value.arousal < 1.0 && 0.0 < Summarize(rs).value.avgStress < 1.0
  {
    MeanBoundsClosed(Arousals(rs), -1.0, 1.0);
    MeanBoundsClosed(Valences(rs), -1.0, 1.0);
    MeanOfStresses(Arousals(rs), Stresses(rs));
    if forall i :: 0 <= i < |rs| ==> -1.0 < rs[i].arousal < 1.0 {
      MeanBounds(Arousals(rs), -1.0, 1.0);
    }
  }

  /**
    The session averages stay in [-1, 1] and [0, 1], and the average stress is the stress of the
    average arousal. With a finite baseline LF/HF and a NeuroKit that never reports +inf, average
    arousal and stress lie strictly inside.
   */
  lemma SummaryOfSession(tasks: seq<TaskPacket>, base: Baseline, o: Oracles, tanh: real -> real)
    requires IsTanh(tanh)
    requires |tasks| > 0
    ensures var s := Summarize(Outcomes(tasks, base, o, tanh)).value;
      && -1.0 <= s.arousal <= 1.0
      && -1.0 <= s.valence <= 1.0
      && s.avgStress == (s.arousal + 1.0) / 2.0
      && 0.0 <= s.avgStress <= 1.0
    ensures base.lfHf.Finite? && (forall peaks :: o.hrvLfHf(peaks) != Some(PosInf)) ==>
      var s := Summarize(Outcomes(tasks, base, o, tanh)).value;
      -1.0 < s.arousal < 1.0 && 0.0 < s.avgStress < 1.0
  {
    var rs := Outcomes(tasks, base, o, tanh);
    forall i | 0 <= i < |rs|
      ensures -1.0 <= rs[i].arousal <= 1.0 && -1.0 <= rs[i].valence <= 1.0 && rs[i].stress == (rs[i].arousal + 1.0) / 2.0
      ensures base.lfHf.Finite? && (forall peaks :: o.hrvLfHf(peaks) != Some(PosInf)) ==> -1.0 < rs[i].arousal < 1.0
    {
      OutcomeBoundsAt(tasks, base, o, tanh, i);
    }
    SummaryBounds(rs);
  }

  lemma OutcomeBoundsAt(tasks: seq<TaskPacket>, base: Baseline, o: Oracles, tanh: real -> real, i: nat)
    requires IsTanh(tanh)
    requires i < |tasks|
    ensures var r := Outcomes(tasks, base, o, tanh)[i];
      && -1.0 <= r.arousal <= 1.0 && -1.0 <= r.valence <= 1.0 && r.stress == (r.arousal + 1.0) / 2.0
      && (base.lfHf.Finite? && (forall peaks :: o.hrvLfHf(peaks) != Some(PosInf)) ==> -1.0 < r.arousal < 1.0)
  {
    OutcomesAt(tasks, base, o, tanh, i);
    TaskOutcomeBounds(tasks[i], base, o, tanh);
    if base.lfHf.Finite? && (forall peaks :: o.hrvLfHf(peaks) != Some(PosInf)) {
      LfHfReadingsAgree(tasks[i].ppg, true, o);
    }
  }

  /** What the pipeline writes: session row with summary, baseline row, one task row per task. */
  datatype SessionRow = SessionRow(
    sessionId: string, userFirebaseId: string, contextType: ContextType,
    sessionRelation: Option<string>, summary: Option<SessionSummary>)

  datatype TaskRow = TaskRow(
    sessionId: string, taskId: string, taskName: string,
    normalizedStress: real, emotionLabel: string, heartRate: real)

  datatype Stored = Stored(session: SessionRow, baseline: Baseline, tasks: seq<TaskRow>)

  function TaskRowOf(sessionId: string, r: TaskResult): TaskRow {
    TaskRow(sessionId, r.taskId, r.taskName, r.stress, r.emotionLabel, r.heartRate)
  }

  function TaskRows(sessionId: string, rs: seq<TaskResult>): (rows: seq<TaskRow>)
    ensures |rows| == |rs|
  {
    seq(|rs|, i requires 0 <= i < |rs| => TaskRowOf(sessionId, rs[i]))
  }

  /** The baseline block of `process_session`. */
  method MeasureBaseline(rest: RestData, o: Oracles) returns (base: Baseline)
    ensures base == BaselineOf(rest, o)
  {
    var af7Rest := Pick(rest.eeg, AF7);
    if |af7Rest| == 0 {
      af7Rest := Pick(rest.eeg, TP9);
    }
    var baseTheta := ThetaBetaRatio(af7Rest, false, o);
    var baseLf := Nz(Some(LfHfRatioAsWritten(rest.ppg, false, o)));
    var baseHr := HrFromPpg(rest.ppg, false, o);
    if baseHr == 0.0 {
      baseHr := 70.0;
    }
    base := Baseline(baseTheta, baseLf, baseHr);
  }

  /** The measuring half of the per-task loop's body, step by step. */
  method MeasureTask(t: TaskPacket, base: Baseline, o: Oracles) returns (sig: Signals)
    ensures sig == TaskSignals(t, base, o)
  {
    var af7 := Pick(t.eeg, AF7);
    if |af7| == 0 {
      af7 := Pick(t.eeg, TP9);
    }
    var af8 := Pick(t.eeg, AF8);
    var theta := ThetaBetaRatio(af7, true, o);
    var asym := Asymmetry(af7, af8);
    var lf := Nz(Some(LfHfRatioAsWritten(t.ppg, true, o)));
    var hrTask := if |t.ppg| > 0 then HrFromPpg(t.ppg, true, o) else base.hr;
    sig := Signals(theta, asym, lf, hrTask);
  }

  /** The body of the per-task loop. */
  method RunTask(t: TaskPacket, base: Baseline, o: Oracles, tanh: real -> real) returns (r: TaskResult)
    ensures r == TaskOutcome(t, base, o, tanh)
  {
    var sig := MeasureTask(t, base, o);
    r := Affect(t, base, sig, tanh);
  }

  /** The summary block: averages over the `(arousal, valence)` records and the stresses. */
  method SummaryOfRecords(records: seq<(real, real)>, stresses: seq<real>, ghost results: seq<TaskResult>)
    returns (summary: Option<SessionSummary>)
    requires records == Records(results) && stresses == Stresses(results)
    ensures summary == Summarize(results)
  {
    summary := None;
    if |records| > 0 {
      var arousals := seq(|records|, k requires 0 <= k < |records| => records[k].0);
      var valences := seq(|records|, k requires 0 <= k < |records| => records[k].1);
      assert arousals == Arousals(results);
      assert valences == Valences(results);
      assert stresses == Stresses(results);
      var a, v := Mean(arousals), Mean(valences);
      summary := Some(SessionSummary(a, v, EmotionFromAxes(v, a).name, Mean(stresses)));
    }
  }

  function Records(rs: seq<TaskResult>): seq<(real, real)> {
    seq(|rs|, i requires 0 <= i < |rs| => (rs[i].arousal, rs[i].valence))
  }

  /** Appending one result appends one record, one stress value and one row. */
  lemma ProjectionsAppend(sessionId: string, rs: seq<TaskResult>, r: TaskResult)
    ensures Records(rs + [r]) == Records(rs) + [(r.arousal, r.valence)]
    ensures Stresses(rs + [r]) == Stresses(rs) + [r.stress]
    ensures TaskRows(sessionId, rs + [r]) == TaskRows(sessionId, rs) + [TaskRowOf(sessionId, r)]
  {
  }

  /** One iteration of the per-task loop extends the outcomes and the three projections by one task. */
  lemma RunTasksStep(sessionId: string, tasks: seq<TaskPacket>, i: nat, base: Baseline, o: Oracles, tanh: real -> real,
                     results: seq<TaskResult>, r: TaskResult)
    requires i < |tasks|
    requires results == Outcomes(tasks[..i], base, o, tanh) && r == TaskOutcome(tasks[i], base, o, tanh)
    ensures results + [r] == Outcomes(tasks[..i + 1], base, o, tanh)
    ensures Records(results + [r]) == Records(results) + [(r.arousal, r.valence)]
    ensures Stresses(results + [r]) == Stresses(results) + [r.stress]
    ensures TaskRows(sessionId, results + [r]) == TaskRows(sessionId, results) + [TaskRowOf(sessionId, r)]
  {
    OutcomesSnoc(tasks, i, base, o, tanh);
    ProjectionsAppend(sessionId, results, r);
  }

  /** The per-task loop: one `(arousal, valence)` record, one stress value and one row per task, in order. */
  method RunTasks(sessionId: string, tasks: seq<TaskPacket>, base: Baseline, o: Oracles, tanh: real -> real)
    returns (records: seq<(real, real)>, stresses: seq<real>, rows: seq<TaskRow>, ghost results: seq<TaskResult>)
    ensures results == Outcomes(tasks, base, o, tanh)
    ensures records == Records(results) && stresses == Stresses(results) && rows == TaskRows(sessionId, results)
  {
    hide TaskOutcome;
    records, stresses, rows, results := [], [], [], [];
    for i := 0 to |tasks|
      invariant results == Outcomes(tasks[..i], base, o, tanh)
      invariant records == Records(results) && stresses == Stresses(results) && rows == TaskRows(sessionId, results)
    {
      var r := RunTask(tasks[i], base, o, tanh);
      RunTasksStep(sessionId, tasks, i, base, o, tanh, results, r);
      records, stresses, rows := records + [(r.arousal, r.valence)], stresses + [r.stress], rows + [TaskRowOf(sessionId, r)];
      results := results + [r];
    }
    assert tasks[..|tasks|] == tasks;
  }


  /** `process_session`, minus the database, its retries and its logging. */
  method RunSession(p: SessionPayload, o: Oracles, tanh: real -> real) returns (s: Stored)
    ensures s.baseline == BaselineOf(p.restData, o)
    ensures s.tasks == TaskRows(p.sessionId, Outcomes(p.tasks, s.baseline, o, tanh))
    ensures s.session == SessionRow(p.sessionId, p.userFirebaseId, p.contextType, p.sessionRelation,
                                    Summarize(Outcomes(p.tasks, s.baseline, o, tanh)))
  {
    var base := MeasureBaseline(p.restData, o);
    var records, stresses, rows, results := RunTasks(p.sessionId, p.tasks, base, o, tanh);
    var summary := SummaryOfRecords(records, stresses, results);
    s := Stored(SessionRow(p.sessionId, p.userFirebaseId, p.contextType, p.sessionRelation, summary), base, rows);
  }

  /** A session without any signal: Neutral at arousal 0, stress one half, baseline heart rate 70. */
  lemma SignalFreeSessionIsNeutral(p: SessionPayload, o: Oracles, tanh: real -> real)
    requires IsTanh(tanh)
    requires p.restData.eeg == [] && p.restData.ppg == []
    requires |p.tasks| > 0
    requires forall i :: 0 <= i < |p.tasks| ==> p.tasks[i].eeg == [] && p.tasks[i].ppg == []
    ensures BaselineOf(p.restData, o) == Baseline(0.0, Finite(0.0), 70.0)
    ensures Summarize(Outcomes(p.tasks, BaselineOf(p.restData, o), o, tanh))
      == Some(SessionSummary(0.0, 0.0, "Neutral", 0.5))
  {
    SignalFreeBaseline(p.restData, o);
    SignalFreeTasksAreCalm(p.tasks, o, tanh);
  }

  lemma SignalFreeTasksAreCalm(tasks: seq<TaskPacket>, o: Oracles, tanh: real -> real)
    requires IsTanh(tanh)
    requires forall i :: 0 <= i < |tasks| ==> tasks[i].eeg == [] && tasks[i].ppg == []
    requires |tasks| > 0
    ensures Summarize(Outcomes(tasks, Baseline(0.0, Finite(0.0), 70.0), o, tanh))
      == Some(SessionSummary(0.0, 0.0, "Neutral", 0.5))
  {
    forall i | 0 <= i < |tasks|
      ensures Calm(Outcomes(tasks, Baseline(0.0, Finite(0.0), 70.0), o, tanh)[i])
    {
      SignalFreeOutcomeAt(tasks, o, tanh, i);
    }
    CalmOutcomesSummary(tasks, Baseline(0.0, Finite(0.0), 70.0), o, tanh);
  }

  lemma CalmOutcomesSummary(tasks: seq<TaskPacket>, base: Baseline, o: Oracles, tanh: real -> real)
    requires |tasks| > 0
    requires forall i :: 0 <= i < |tasks| ==> Calm(Outcomes(tasks, base, o, tanh)[i])
    ensures Summarize(Outcomes(tasks, base, o, tanh)) == Some(SessionSummary(0.0, 0.0, "Neutral", 0.5))
  {
    CalmResultsSummary(Outcomes(tasks, base, o, tanh));
  }

  lemma SignalFreeOutcomeAt(tasks: seq<TaskPacket>, o: Oracles, tanh: real -> real, i: nat)
    requires IsTanh(tanh)
    requires i < |tasks| && tasks[i].eeg == [] && tasks[i].ppg == []
    ensures Calm(Outcomes(tasks, Baseline(0.0, Finite(0.0), 70.0), o, tanh)[i])
  {
    var base := Baseline(0.0, Finite(0.0), 70.0);
    SignalFreeTaskIsCalm(tasks[i], base, o, tanh);
    OutcomesAt(tasks, base, o, tanh, i);
    assert Outcomes(tasks, base, o, tanh)[i] == TaskOutcome(tasks[i], base, o, tanh);
  }

  /** A result at the origin of the affect plane, with stress one half. */
  predicate Calm(r: TaskResult) {
    r.arousal == 0.0 && r.valence == 0.0 && r.stress == 0.5
  }

  /** A task without signals, measured against the signal-free baseline, has zero arousal and valence. */
  lemma SignalFreeTaskIsCalm(t: TaskPacket, base: Baseline, o: Oracles, tanh: real -> real)
    requires IsTanh(tanh)
    requires t.eeg == [] && t.ppg == [] && base == Baseline(0.0, Finite(0.0), 70.0)
    ensures Calm(TaskOutcome(t, base, o, tanh))
  {
    TanhZero(tanh);
    SignalFreeTask(t, base, o);
    AtBaselineArousalIsZero(t, base, Signals(0.0, Finite(0.0), Finite(0.0), 70.0), tanh);
  }

  /** Results that all sit at the origin summarise to the Neutral label with stress 0.5. */
  lemma CalmResultsSummary(rs: seq<TaskResult>)
    requires |rs| > 0
    requires forall i :: 0 <= i < |rs| ==> Calm(rs[i])
    ensures Summarize(rs) == Some(SessionSummary(0.0, 0.0, "Neutral", 0.5))
  {
    ConstantMean(Arousals(rs), 0.0);
    ConstantMean(Valences(rs), 0.0);
    ConstantMean(Stresses(rs), 0.5);
    ModerateArousal(0.0, 0.0);
  }


  lemma {:induction false} ConstantMean(xs: seq<real>, c: real)
    requires |xs| > 0
    requires forall i :: 0 <= i < |xs| ==> xs[i] == c
    ensures Mean(xs) == c
  {
    MeanBoundsClosed(xs, c, c);
  }
}
