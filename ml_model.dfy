/**
 * `analyze_video_audio` of core/ml_model.py: an alternate scorer, not on the
 * live path. It seeds a fixed five-field result, normalises pitch by 300 Hz
 * instead of 150 Hz with no pitch guard, and marks an audio failure with -1.
 */
module MlModel {
  import opened Wrappers
  import opened Media
  import opened Scoring

  /** Mean RMS energy and mean pitch (Hz) of a waveform. */
  datatype AudioFeatures = AudioFeatures(rms: real, pitch: real)

  /**
   * The external capabilities: the facial-emotion classifier, and loading
   * plus feature extraction of an audio chunk (`None` where it raises).
   */
  datatype AltOracles = AltOracles(classify: Frame -> FaceOutcome, load: Bytes -> Option<AudioFeatures>)

  /** The result dictionary, whose five keys are always present. */
  datatype AltResult = AltResult(
    emotion: string,
    depressionScore: real,
    anxietyScore: real,
    schizophreniaScore: real,
    suicidalRisk: real)

  const UNKNOWN_EMOTION := "unknown"
  /** The score written to both audio fields when the audio stage raises. */
  const FAILURE_SCORE: real := -1.0
  /** The pitch normaliser of this scorer. */
  const ALT_PITCH_SCALE: real := 300.0

  /** The seeded result. */
  const DEFAULT_RESULT := AltResult(UNKNOWN_EMOTION, 0.0, 0.0, 0.0, 0.0)

  /** `min(max(1 - pitch / 300, 0), 1)`; no pitch is excluded. */
  function AltDepressionScore(pitch: real): (r: real)
    ensures 0.0 <= r <= 1.0
    ensures 0.0 <= pitch <= ALT_PITCH_SCALE ==> r == 1.0 - pitch / ALT_PITCH_SCALE
    ensures pitch >= ALT_PITCH_SCALE ==> r == 0.0
  {
    Clamp01(1.0 - pitch / ALT_PITCH_SCALE)
  }

  /** A lower pitch never yields a lower score here either. */
  lemma AltDepressionScoreNonIncreasing(p: real, q: real)
    requires p <= q
    ensures AltDepressionScore(q) <= AltDepressionScore(p)
  {
  }

  /**
   * The drift between the two formulas: on the pitches the live scorer
   * accepts (non-negative, below 150 Hz), this score is the mean of the live
   * score and 1, so it is never lower than the live one.
   */
  lemma AltVersusLiveDepression(p: real)
    requires 0.0 <= p < PITCH_CEILING
    ensures AltDepressionScore(p) == (1.0 + DepressionScore(p)) / 2.0
    ensures DepressionScore(p) <= AltDepressionScore(p)
  {
  }

  /** The emotion field for a classifier outcome: the label, or the prefixed failure text. */
  function EmotionText(outcome: FaceOutcome): (text: string)
    ensures outcome.Dominant? ==> text == outcome.emotion
    ensures outcome.ClassifierFailure? ==>
      |text| == |ERROR_PREFIX| + |outcome.message| &&
      text[..|ERROR_PREFIX|] == ERROR_PREFIX && text[|ERROR_PREFIX|..] == outcome.message
  {
    match outcome
    case Dominant(e) => e
    case ClassifierFailure(m) => ERROR_PREFIX + m
  }

  /** `analyze_video_audio(video_frame, audio_chunk)` of the alternate module. */
  method AnalyzeVideoAudio(videoFrame: Option<Frame>, audioChunk: Option<Bytes>, o: AltOracles)
    returns (result: AltResult)
    ensures videoFrame.None? ==> result.emotion == UNKNOWN_EMOTION
    ensures videoFrame.Some? ==> result.emotion == EmotionText(o.classify(videoFrame.value))
    ensures audioChunk.None? ==> result.depressionScore == 0.0 && result.anxietyScore == 0.0
    ensures audioChunk.Some? && o.load(audioChunk.value).None? ==>
      result.depressionScore == FAILURE_SCORE && result.anxietyScore == FAILURE_SCORE
    ensures audioChunk.Some? && o.load(audioChunk.value).Some? ==>
      var f := o.load(audioChunk.value).value;
      && result.depressionScore == AltDepressionScore(f.pitch)
      && result.anxietyScore == AnxietyScore(f.rms)
    ensures result.schizophreniaScore == 0.0 && result.suicidalRisk == 0.0
    ensures videoFrame.None? && audioChunk.None? ==> result == DEFAULT_RESULT
  {
    result := DEFAULT_RESULT;

    if videoFrame.Some? {
      match o.classify(videoFrame.value)
      case Dominant(e) =>
        result := result.(emotion := e);
      case ClassifierFailure(m) =>
        result := result.(emotion := ERROR_PREFIX + m);
    }

    if audioChunk.Some? {
      match o.load(audioChunk.value)
      case Some(f) =>
        result := result.(depressionScore := AltDepressionScore(f.pitch));
        result := result.(anxietyScore := AnxietyScore(f.rms));
      case None =>
        result := result.(depressionScore := FAILURE_SCORE);
        result := result.(anxietyScore := FAILURE_SCORE);
    }
  }

  /**
   * The audio fields are either both the failure marker or both scores in
   * [0, 1]; the marker is never a valid score.
   */
  lemma AudioFieldsWellFormed(f: Option<AudioFeatures>, depression: real, anxiety: real)
    requires f.None? ==> depression == FAILURE_SCORE && anxiety == FAILURE_SCORE
    requires f.Some? ==> depression == AltDepressionScore(f.value.pitch) && anxiety == AnxietyScore(f.value.rms)
    ensures (depression == FAILURE_SCORE) <==> f.None?
    ensures (anxiety == FAILURE_SCORE) <==> f.None?
    ensures f.Some? ==> 0.0 <= depression <= 1.0 && 0.0 <= anxiety <= 1.0
  {
  }
}
