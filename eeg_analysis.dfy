/**
  The legacy EEG emotion detector: samples are bucketed per electrode, a naive alpha level
  per frontal electrode gives an asymmetry index and a theta/alpha ratio, and both are
  categorised (with thresholds of their own) and looked up in a complete 4x3 table.
 */
module EegAnalysis {
  import opened Wrappers
  import opened Floats
  import opened Emotion

  /** One packet of the device stream: an electrode number and its samples. */
  datatype Entry = Entry(electrode: int, samples: seq<real>)

  /** The keys of `electrode_data`. */
  const Electrodes: set<int> := {0, 1, 2, 3}

  /** In-order concatenation of the samples of every entry on electrode `e`. */
  function Bucket(raw: seq<Entry>, e: int): seq<real>
    decreases |raw|
  {
    if |raw| == 0 then []
    else Bucket(raw[..|raw| - 1], e) + (if raw[|raw| - 1].electrode == e then raw[|raw| - 1].samples else [])
  }

  lemma BucketStep(raw: seq<Entry>, i: nat, e: int)
    requires i < |raw|
    ensures Bucket(raw[..i + 1], e) == Bucket(raw[..i], e) + (if raw[i].electrode == e then raw[i].samples else [])
  {
    assert raw[..i + 1][..i] == raw[..i];
  }

  predicate AllKnown(raw: seq<Entry>) {
    forall i :: 0 <= i < |raw| ==> raw[i].electrode in Electrodes
  }

  lemma AllKnownStep(raw: seq<Entry>, i: nat)
    requires i < |raw| && AllKnown(raw[..i]) && raw[i].electrode in Electrodes
    ensures AllKnown(raw[..i + 1])
  {
    var prefix, known := raw[..i + 1], raw[..i];
    forall k | 0 <= k < |prefix| ensures prefix[k].electrode in Electrodes {
      if k < i {
        assert prefix[k] == known[k];
      }
    }
  }

  /**
    Step 1: extend one list per electrode with each entry's samples. An electrode outside
    0..3 is a missing dictionary key: the loop stops there with `KeyError(electrode)`.
   */
  method AccumulateElectrodes(raw: seq<Entry>) returns (r: Result<map<int, seq<real>>, int>)
    ensures r.Success? <==> AllKnown(raw)
    ensures r.Success? ==> r.value.Keys == Electrodes && forall e :: e in Electrodes ==> r.value[e] == Bucket(raw, e)
    ensures r.Failure? ==> exists k :: 0 <= k < |raw| && raw[k].electrode == r.error && r.error !in Electrodes && AllKnown(raw[..k])
  {
    var electrodeData: map<int, seq<real>> := map[0 := [], 1 := [], 2 := [], 3 := []];
    var i := 0;
    while i < |raw|
      invariant 0 <= i <= |raw|
      invariant AllKnown(raw[..i])
      invariant electrodeData.Keys == Electrodes
      invariant forall e :: e in Electrodes ==> electrodeData[e] == Bucket(raw[..i], e)
    {
      var elec := raw[i].electrode;
      if elec !in electrodeData {
        return Failure(elec);
      }
      forall e | e in Electrodes {
        BucketStep(raw, i, e);
      }
      AllKnownStep(raw, i);
      electrodeData := electrodeData[elec := electrodeData[elec] + raw[i].samples];
      i := i + 1;
    }
    assert raw[..i] == raw;
    r := Success(electrodeData);
  }

  /** `np.mean(xs) if xs else 0`. */
  function MeanOrZero(xs: seq<real>): real {
    if |xs| > 0 then Mean(xs) else 0.0
  }

  /** The naive alpha average of the two frontal electrodes. */
  function AlphaAverage(alpha7: real, alpha8: real): real {
    if alpha7 != 0.0 || alpha8 != 0.0 then (alpha7 + alpha8) / 2.0 else 0.0
  }

  /** theta/alpha of the two frontal electrodes, with theta taken as 0.8 times alpha; None is NaN. */
  function ThetaAlphaRatio(alpha7: real, alpha8: real): Option<real> {
    var theta7 := alpha7 * 0.8;
    var theta8 := alpha8 * 0.8;
    var alphaAvg := AlphaAverage(alpha7, alpha8);
    var thetaAvg := if theta7 != 0.0 || theta8 != 0.0 then (theta7 + theta8) / 2.0 else 0.0;
    if alphaAvg != 0.0 then Some(thetaAvg / alphaAvg) else None
  }

  /** Valence from the asymmetry AF8 - AF7 (a higher right-frontal level is negative here). */
  function EegValenceCat(asymIndex: real): (c: ValenceCat)
    ensures c == StrongPos <==> asymIndex < -1.0
    ensures c == Pos <==> -1.0 <= asymIndex < 0.0
    ensures c == Neg <==> 0.0 <= asymIndex < 1.0
    ensures c == StrongNeg <==> 1.0 <= asymIndex
  {
    if asymIndex < -1.0 then StrongPos
    else if -1.0 <= asymIndex < 0.0 then Pos
    else if 0.0 <= asymIndex < 1.0 then Neg
    else StrongNeg
  }

  /** Arousal from the ratio: NaN is the category 'none' (None), then cuts at 0.8 and 1.2. */
  function EegArousalCat(ratio: Option<real>): (c: Option<ArousalCat>)
    ensures c == None <==> ratio == None
    ensures c == Some(Low) <==> ratio.Some? && ratio.value < 0.8
    ensures c == Some(Moderate) <==> ratio.Some? && 0.8 <= ratio.value < 1.2
    ensures c == Some(High) <==> ratio.Some? && 1.2 <= ratio.value
  {
    match ratio
    case None => None
    case Some(x) => if x < 0.8 then Some(Low) else if 0.8 <= x < 1.2 then Some(Moderate) else Some(High)
  }

  /** The detector's own table: every named pair is labelled, the 'none' arousal never is. */
  const EegEmotionMap: map<(ValenceCat, Option<ArousalCat>), Emotion> := map[
    (StrongPos, Some(Low))      := Emotion("Relaxed", "\U{1F60C}"),
    (StrongPos, Some(Moderate)) := Emotion("Happy", "\U{1F601}"),
    (StrongPos, Some(High))     := Emotion("Euphoric", "\U{1F92F}"),
    (Pos, Some(Low))            := Emotion("Calm", "\U{1F60C}"),
    (Pos, Some(Moderate))       := Emotion("Content", "\U{1F642}"),
    (Pos, Some(High))           := Emotion("Excited", "\U{1F929}"),
    (Neg, Some(Low))            := Emotion("Sad", "\U{1F622}"),
    (Neg, Some(Moderate))       := Emotion("Worried", "\U{1F61F}"),
    (Neg, Some(High))           := Emotion("Stressed", "\U{1F630}"),
    (StrongNeg, Some(Low))      := Emotion("Depressed", "\U{1F61E}"),
    (StrongNeg, Some(Moderate)) := Emotion("Angry", "\U{1F621}"),
    (StrongNeg, Some(High))     := Emotion("Furious", "\U{1F92C}")
  ]

  /** Steps 2 to 4 on the samples of electrodes 1 (AF7) and 2 (AF8). */
  function ClassifyEeg(af7: seq<real>, af8: seq<real>): (e: Emotion)
    ensures e in EegEmotionMap.Values || e == DefaultEmotion
  {
    var alpha7 := MeanOrZero(af7);
    var alpha8 := MeanOrZero(af8);
    var key := (EegValenceCat(alpha8 - alpha7), EegArousalCat(ThetaAlphaRatio(alpha7, alpha8)));
    if key in EegEmotionMap then EegEmotionMap[key] else DefaultEmotion
  }

  /** `detect_emotion_from_eeg`: only electrodes 1 and 2 reach the classification. */
  method DetectEmotionFromEeg(raw: seq<Entry>) returns (r: Result<Emotion, int>)
    ensures AllKnown(raw) ==> r == Success(ClassifyEeg(Bucket(raw, 1), Bucket(raw, 2)))
    ensures !AllKnown(raw) ==> r.Failure? && r.error !in Electrodes
  {
    var data := AccumulateElectrodes(raw);
    match data
    case Failure(key) =>
      r := Failure(key);
    case Success(electrodeData) =>
      r := Success(ClassifyEeg(electrodeData[1], electrodeData[2]));
  }

  /** Over exact reals theta is 0.8 times alpha, so the ratio is 0.8 or NaN. */
  lemma RatioIsConstant(alpha7: real, alpha8: real)
    ensures AlphaAverage(alpha7, alpha8) != 0.0 ==> ThetaAlphaRatio(alpha7, alpha8) == Some(0.8)
    ensures AlphaAverage(alpha7, alpha8) == 0.0 ==> ThetaAlphaRatio(alpha7, alpha8) == None
  {
    var a := AlphaAverage(alpha7, alpha8);
    if a != 0.0 {
      var t := (alpha7 * 0.8 + alpha8 * 0.8) / 2.0;
      assert alpha7 * 0.8 != 0.0 || alpha8 * 0.8 != 0.0;
      assert t == 0.8 * a;
      assert t / a == 0.8;
    }
  }

  /** Every one of the 4x3 named category pairs has an entry, and none uses 'none'. */
  lemma EegMapComplete()
    ensures forall v: ValenceCat, a: ArousalCat :: (v, Some(a)) in EegEmotionMap
    ensures forall v: ValenceCat :: (v, None) !in EegEmotionMap
  {
    forall v: ValenceCat, a: ArousalCat ensures (v, Some(a)) in EegEmotionMap {
      match (v, a)
      case (StrongPos, Low) =>
      case (StrongPos, Moderate) =>
      case (StrongPos, High) =>
      case (Pos, Low) =>
      case (Pos, Moderate) =>
      case (Pos, High) =>
      case (Neg, Low) =>
      case (Neg, Moderate) =>
      case (Neg, High) =>
      case (StrongNeg, Low) =>
      case (StrongNeg, Moderate) =>
      case (StrongNeg, High) =>
    }
  }

  /**
    Over exact reals the detector can only say one of the four moderate-arousal labels, chosen
    by asymmetry, or Neutral when the alpha average is zero. (In doubles the ratio 0.8 sits on
    the `0.8 <=` cut and can round below it.)
   */
  lemma ClassifyEegOutcome(af7: seq<real>, af8: seq<real>)
    ensures var alpha7, alpha8 := MeanOrZero(af7), MeanOrZero(af8);
      ClassifyEeg(af7, af8) ==
        if AlphaAverage(alpha7, alpha8) == 0.0 then DefaultEmotion
        else EegEmotionMap[(EegValenceCat(alpha8 - alpha7), Some(Moderate))]
  {
    var alpha7, alpha8 := MeanOrZero(af7), MeanOrZero(af8);
    RatioIsConstant(alpha7, alpha8);
    EegMapComplete();
  }

  /** Samples on electrodes 0 and 3 never change the outcome. */
  lemma OnlyFrontalElectrodesMatter(raw: seq<Entry>, extra: Entry)
    requires extra.electrode == 0 || extra.electrode == 3
    ensures Bucket(raw + [extra], 1) == Bucket(raw, 1)
    ensures Bucket(raw + [extra], 2) == Bucket(raw, 2)
    ensures AllKnown(raw + [extra]) <==> AllKnown(raw)
  {
    assert (raw + [extra])[..|raw|] == raw;
  }
}
