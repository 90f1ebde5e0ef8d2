/**
 * The scoring engine of core/consumers.py: the fixed formulas that turn
 * acoustic features into scores in [0, 1] and the threshold classifiers
 * that turn scores into labelled bands. Arithmetic is exact (`real`).
 */
module Scoring {

  // Labels returned by classify_depression, from least to most severe.
  const NO_DEPRESSION := "No Depression: No significant depression detected."
  const MILD_DEPRESSION := "Mild Depression: Mild depression detected."
  const MODERATE_DEPRESSION := "Moderate Depression: Moderate depression detected."
  const SEVERE_DEPRESSION := "Severe Depression: Severe depression detected."

  // Labels returned by classify_anxiety, from least to most severe.
  const LOW_ANXIETY := "Low Anxiety: No significant anxiety detected."
  const MODERATE_ANXIETY := "Moderate Anxiety: Moderate anxiety level detected."
  const HIGH_ANXIETY := "High Anxiety: High anxiety level detected."

  // Band boundaries; each band is closed at its upper end.
  const LOW_BOUND: real := 0.2
  const MID_BOUND: real := 0.5
  const HIGH_BOUND: real := 0.8

  /** Pitch (Hz) below which a depression score is computed, and its normaliser. */
  const PITCH_CEILING: real := 150.0
  /** RMS energy above which an anxiety score is computed. */
  const RMS_THRESHOLD: real := 0.01
  /** Gain applied to the RMS energy. */
  const RMS_GAIN: real := 10.0

  /** `classify_depression`: four bands split at 0.2, 0.5 and 0.8. */
  function ClassifyDepression(score: real): (category: string)
    ensures category == NO_DEPRESSION <==> score <= LOW_BOUND
    ensures category == MILD_DEPRESSION <==> LOW_BOUND < score <= MID_BOUND
    ensures category == MODERATE_DEPRESSION <==> MID_BOUND < score <= HIGH_BOUND
    ensures category == SEVERE_DEPRESSION <==> HIGH_BOUND < score
  {
    if score <= LOW_BOUND then NO_DEPRESSION
    else if score <= MID_BOUND then MILD_DEPRESSION
    else if score <= HIGH_BOUND then MODERATE_DEPRESSION
    else SEVERE_DEPRESSION
  }

  /** `classify_anxiety`: three bands split at 0.2 and 0.5. */
  function ClassifyAnxiety(score: real): (category: string)
    ensures category == LOW_ANXIETY <==> score <= LOW_BOUND
    ensures category == MODERATE_ANXIETY <==> LOW_BOUND < score <= MID_BOUND
    ensures category == HIGH_ANXIETY <==> MID_BOUND < score
  {
    if score <= LOW_BOUND then LOW_ANXIETY
    else if score <= MID_BOUND then MODERATE_ANXIETY
    else HIGH_ANXIETY
  }

  /** The rank of a depression label in order of severity (0 = none). */
  function DepressionSeverity(category: string): (rank: int)
    ensures -1 <= rank <= 3
    ensures rank == -1 <==> category !in {NO_DEPRESSION, MILD_DEPRESSION, MODERATE_DEPRESSION, SEVERE_DEPRESSION}
  {
    if category == NO_DEPRESSION then 0
    else if category == MILD_DEPRESSION then 1
    else if category == MODERATE_DEPRESSION then 2
    else if category == SEVERE_DEPRESSION then 3
    else -1
  }

  /** The rank of an anxiety label in order of severity (0 = low). */
  function AnxietySeverity(category: string): (rank: int)
    ensures -1 <= rank <= 2
    ensures rank == -1 <==> category !in {LOW_ANXIETY, MODERATE_ANXIETY, HIGH_ANXIETY}
  {
    if category == LOW_ANXIETY then 0
    else if category == MODERATE_ANXIETY then 1
    else if category == HIGH_ANXIETY then 2
    else -1
  }

  /** A higher depression score never lands in a less severe band. */
  lemma ClassifyDepressionMonotone(s1: real, s2: real)
    requires s1 <= s2
    ensures 0 <= DepressionSeverity(ClassifyDepression(s1)) <= DepressionSeverity(ClassifyDepression(s2))
  {
  }

  /** A higher anxiety score never lands in a less severe band. */
  lemma ClassifyAnxietyMonotone(s1: real, s2: real)
    requires s1 <= s2
    ensures 0 <= AnxietySeverity(ClassifyAnxiety(s1)) <= AnxietySeverity(ClassifyAnxiety(s2))
  {
  }

  /** The boundary values fall in the lower band. */
  lemma BoundariesClosedAbove()
    ensures ClassifyDepression(0.2) == NO_DEPRESSION
    ensures ClassifyDepression(0.5) == MILD_DEPRESSION
    ensures ClassifyDepression(0.8) == MODERATE_DEPRESSION
    ensures ClassifyDepression(0.8000001) == SEVERE_DEPRESSION
    ensures ClassifyAnxiety(0.2) == LOW_ANXIETY
    ensures ClassifyAnxiety(0.5) == MODERATE_ANXIETY
    ensures ClassifyAnxiety(0.5000001) == HIGH_ANXIETY
  {
  }

  /** `min(max(x, 0), 1)`. */
  function Clamp01(x: real): (r: real)
    ensures 0.0 <= r <= 1.0
    ensures 0.0 <= x <= 1.0 ==> r == x
    ensures x < 0.0 ==> r == 0.0
    ensures x > 1.0 ==> r == 1.0
  {
    var lo := if x > 0.0 then x else 0.0;
    if lo < 1.0 then lo else 1.0
  }

  /** Clamping preserves the order of its arguments. */
  lemma Clamp01Monotone(x: real, y: real)
    requires x <= y
    ensures Clamp01(x) <= Clamp01(y)
  {
  }

  /** The live depression formula `min(max(1 - pitch / 150, 0), 1)`. */
  function DepressionScore(pitch: real): (r: real)
    ensures 0.0 <= r <= 1.0
    ensures pitch < PITCH_CEILING ==> 0.0 < r
    ensures 0.0 <= pitch <= PITCH_CEILING ==> r == 1.0 - pitch / PITCH_CEILING
  {
    Clamp01(1.0 - pitch / PITCH_CEILING)
  }

  /** A lower pitch never yields a lower depression score. */
  lemma DepressionScoreNonIncreasing(p: real, q: real)
    requires p <= q
    ensures DepressionScore(q) <= DepressionScore(p)
  {
  }

  /** The anxiety formula `min(max(rms * 10, 0), 1)`. */
  function AnxietyScore(rms: real): (r: real)
    ensures 0.0 <= r <= 1.0
    ensures rms > RMS_THRESHOLD ==> 0.0 < r
    ensures 0.0 <= rms <= 1.0 / RMS_GAIN ==> r == RMS_GAIN * rms
    ensures rms >= 1.0 / RMS_GAIN ==> r == 1.0
  {
    Clamp01(rms * RMS_GAIN)
  }

  /** More energy never yields a lower anxiety score. */
  lemma AnxietyScoreNonDecreasing(r1: real, r2: real)
    requires r1 <= r2
    ensures AnxietyScore(r1) <= AnxietyScore(r2)
  {
  }
}
