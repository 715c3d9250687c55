/**
  Discretisation of (valence, arousal) into coarse categories and the partial lookup table
  that turns a category pair into an emotion label, with an explicit Neutral default.
 */
module Emotion {

  datatype ValenceCat = StrongNeg | Neg | Pos | StrongPos
  datatype ArousalCat = Low | Moderate | High

  /** A label and its emoji. */
  datatype Emotion = Emotion(name: string, emoji: string)

  /** The fixed, deliberately partial table of labelled category pairs. */
  const EmotionMap: map<(ValenceCat, ArousalCat), Emotion> := map[
    (StrongPos, Low)      := Emotion("Relaxed", "\U{1F60C}"),
    (StrongPos, Moderate) := Emotion("Happy", "\U{1F601}"),
    (StrongPos, High)     := Emotion("Euphoric", "\U{1F92F}"),
    (Pos, Low)            := Emotion("Calm", "\U{1F60C}"),
    (Pos, High)           := Emotion("Excited", "\U{1F929}"),
    (Neg, Low)            := Emotion("Sad", "\U{1F622}"),
    (Neg, High)           := Emotion("Stressed", "\U{1F630}")
  ]

  const DefaultEmotion := Emotion("Neutral", "\U{1F610}")

  /** Ordinal position of a category on its axis, for monotonicity statements. */
  function ValenceRank(c: ValenceCat): nat {
    match c
    case StrongNeg => 0
    case Neg => 1
    case Pos => 2
    case StrongPos => 3
  }

  function ArousalRank(c: ArousalCat): nat {
    match c
    case Low => 0
    case Moderate => 1
    case High => 2
  }

  /** The four valence bands are the half-open intervals cut at -0.5, 0 and 0.5. */
  function CatValence(v: real): (c: ValenceCat)
    ensures c == StrongNeg <==> v < -0.5
    ensures c == Neg <==> -0.5 <= v < 0.0
    ensures c == Pos <==> 0.0 <= v < 0.5
    ensures c == StrongPos <==> 0.5 <= v
  {
    if v < -0.5 then StrongNeg
    else if -0.5 <= v < 0.0 then Neg
    else if 0.0 <= v < 0.5 then Pos
    else StrongPos
  }

  /** The three arousal bands are the half-open intervals cut at -0.25 and 0.25. */
  function CatArousal(a: real): (c: ArousalCat)
    ensures c == Low <==> a < -0.25
    ensures c == Moderate <==> -0.25 <= a < 0.25
    ensures c == High <==> 0.25 <= a
  {
    if a < -0.25 then Low
    else if -0.25 <= a < 0.25 then Moderate
    else High
  }

  /** The label of a point: the table entry of its category pair, or Neutral. */
  function EmotionFromAxes(valence: real, arousal: real): (e: Emotion)
    ensures e in EmotionMap.Values || e == DefaultEmotion
    ensures (CatValence(valence), CatArousal(arousal)) in EmotionMap ==> e == EmotionMap[(CatValence(valence), CatArousal(arousal))]
    ensures (CatValence(valence), CatArousal(arousal)) !in EmotionMap ==> e == DefaultEmotion
  {
    var pair := (CatValence(valence), CatArousal(arousal));
    if pair in EmotionMap then EmotionMap[pair] else DefaultEmotion
  }

  lemma CatValenceMonotone(v1: real, v2: real)
    requires v1 <= v2
    ensures ValenceRank(CatValence(v1)) <= ValenceRank(CatValence(v2))
  {
  }

  lemma CatArousalMonotone(a1: real, a2: real)
    requires a1 <= a2
    ensures ArousalRank(CatArousal(a1)) <= ArousalRank(CatArousal(a2))
  {
  }

  /** No strongly negative pair is in the table, so a valence below -0.5 is always Neutral. */
  lemma StrongNegativeIsNeutral(valence: real, arousal: real)
    requires valence < -0.5
    ensures EmotionFromAxes(valence, arousal) == DefaultEmotion
  {
    var a := CatArousal(arousal);
    assert (StrongNeg, a) !in EmotionMap;
  }

  /** Moderate arousal is Neutral except at strongly positive valence, which is Happy. */
  lemma ModerateArousal(valence: real, arousal: real)
    requires -0.25 <= arousal < 0.25
    ensures EmotionFromAxes(valence, arousal).name == (if valence >= 0.5 then "Happy" else "Neutral")
  {
    var v := CatValence(valence);
    if v != StrongPos {
      assert (v, Moderate) !in EmotionMap;
    }
  }

  /** Exactly one table entry is labelled Stressed, so the label pins the point's region. */
  lemma StressedExactly(valence: real, arousal: real)
    ensures EmotionFromAxes(valence, arousal).name == "Stressed" <==> -0.5 <= valence < 0.0 && 0.25 <= arousal
  {
    var pair := (CatValence(valence), CatArousal(arousal));
    if pair in EmotionMap && pair != (Neg, High) {
      assert EmotionMap[pair].name != "Stressed";
    }
    assert DefaultEmotion.name != "Stressed";
  }

  /** Neutral is never a table entry, so Neutral appears exactly off the table. */
  lemma NeutralExactlyOffTable(valence: real, arousal: real)
    ensures EmotionFromAxes(valence, arousal) == DefaultEmotion <==> (CatValence(valence), CatArousal(arousal)) !in EmotionMap
  {
    var pair := (CatValence(valence), CatArousal(arousal));
    if pair in EmotionMap {
      assert EmotionMap[pair].name != "Neutral";
    }
  }
}
