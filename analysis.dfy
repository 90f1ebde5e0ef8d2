/**
 * `analyze_video_audio` of core/consumers.py: the per-event analysis that
 * the live consumer runs. The result is a dictionary from field names to
 * numbers or strings, seeded and then updated key by key.
 */
module Analysis {
  import opened Wrappers
  import opened Media
  import opened Scoring

  /** A dictionary value: a number, or a string such as a label or a sentinel. */
  datatype Value = Num(x: real) | Text(s: string)

  type Result = map<string, Value>

  // Keys of the result dictionary.
  const EMOTION := "emotion"
  const ERROR := "error"
  const DEPRESSION_SCORE := "depression_score"
  const ANXIETY_SCORE := "anxiety_score"
  const DEPRESSION_STATUS := "depression_status"
  const ANXIETY_STATUS := "anxiety_status"

  /** The string left in `anxiety_score` when the audio chunk does not decode. */
  const DECODE_FAILED := "Failed to decode audio"

  /**
   * The acoustic features of a decoded waveform: mean RMS energy and the
   * mean pitch over voiced frames, `None` when no frame is voiced (NaN in
   * the source, for which `avg_pitch < 150` is false).
   */
  datatype Features = Features(rms: real, pitch: Option<real>)

  /**
   * The external capabilities, each a total function of its input:
   * base64 decoding (`None` where it raises), raster decoding to RGB,
   * the facial-emotion classifier, the WebM-to-WAV transcoder (`None`
   * where FFmpeg fails) and the feature extractor.
   */
  datatype Oracles = Oracles(
    b64decode: string -> Option<Bytes>,
    openImage: Bytes -> Option<Frame>,
    classify: Frame -> FaceOutcome,
    transcode: Bytes -> Option<Bytes>,
    extract: Bytes -> Features)

  /** `if not decoded_wav` fails both for `None` and for empty output. */
  predicate Decoded(wav: Option<Bytes>): (ok: bool)
    ensures wav.None? ==> !ok
    ensures wav == Some([]) ==> !ok
    ensures wav.Some? && wav.value != [] ==> ok
  {
    wav.Some? && |wav.value| > 0
  }

  /** The features of the audio chunk, when one is given and it transcodes. */
  function Extracted(audioChunk: Option<Bytes>, o: Oracles): (feats: Option<Features>)
    ensures feats.Some? <==> audioChunk.Some? && Decoded(o.transcode(audioChunk.value))
    ensures feats.Some? ==> feats.value == o.extract(o.transcode(audioChunk.value).value)
  {
    if audioChunk.Some? && Decoded(o.transcode(audioChunk.value))
    then Some(o.extract(o.transcode(audioChunk.value).value))
    else None
  }

  /** `avg_pitch is not None and avg_pitch < 150`. */
  predicate PitchApplies(f: Features)
  {
    f.pitch.Some? && f.pitch.value < PITCH_CEILING
  }

  /**
   * The final `anxiety_score` of an event with audio: the decode-failure
   * string, the anxiety formula above the energy threshold, or the 0.0 seed.
   */
  function AnxietyEntry(feats: Option<Features>): (v: Value)
    ensures v.Text? <==> feats.None?
    ensures v.Text? ==> v.s == DECODE_FAILED
    ensures v.Num? ==> 0.0 <= v.x <= 1.0
    ensures v.Num? ==> (v.x > 0.0 <==> feats.value.rms > RMS_THRESHOLD)
    ensures feats.Some? && feats.value.rms > RMS_THRESHOLD ==> v == Num(AnxietyScore(feats.value.rms))
    ensures feats.Some? && feats.value.rms <= RMS_THRESHOLD ==> v == Num(0.0)
  {
    if feats.None? then Text(DECODE_FAILED)
    else if feats.value.rms > RMS_THRESHOLD then Num(AnxietyScore(feats.value.rms))
    else Num(0.0)
  }

  /** The keys the analysis may produce. */
  const ANALYSIS_KEYS: set<string> := {EMOTION, ERROR, DEPRESSION_STATUS, ANXIETY_SCORE, DEPRESSION_SCORE}

  /**
   * What `analyze_video_audio` returns, key by key:
   * the emotion or the classifier error when a frame is given; when an audio
   * chunk is given, `depression_status` seeded to 0.0 and `anxiety_score`
   * seeded to 0.0, replaced by the decode-failure string when the chunk does
   * not transcode, or by the anxiety formula when the energy exceeds the
   * threshold; `depression_score` only for a defined pitch below 150 Hz.
   */
  ghost predicate AnalysisSpec(videoFrame: Option<Frame>, audioChunk: Option<Bytes>, o: Oracles, r: Result)
  {
    var feats := Extracted(audioChunk, o);
    && r.Keys <= ANALYSIS_KEYS
    && (EMOTION in r <==> videoFrame.Some? && o.classify(videoFrame.value).Dominant?)
    && (EMOTION in r ==> r[EMOTION] == Text(o.classify(videoFrame.value).emotion))
    && (ERROR in r <==> videoFrame.Some? && o.classify(videoFrame.value).ClassifierFailure?)
    && (ERROR in r ==> r[ERROR] == Text(ERROR_PREFIX + o.classify(videoFrame.value).message))
    && (DEPRESSION_STATUS in r <==> audioChunk.Some?)
    && (DEPRESSION_STATUS in r ==> r[DEPRESSION_STATUS] == Num(0.0))
    && (ANXIETY_SCORE in r <==> audioChunk.Some?)
    && (ANXIETY_SCORE in r ==> r[ANXIETY_SCORE] == AnxietyEntry(feats))
    && (DEPRESSION_SCORE in r <==> feats.Some? && PitchApplies(feats.value))
    && (DEPRESSION_SCORE in r ==> r[DEPRESSION_SCORE] == Num(DepressionScore(feats.value.pitch.value)))
  }

  /** `analyze_video_audio(video_frame, audio_chunk)` with its early return on a decode failure. */
  method AnalyzeVideoAudio(videoFrame: Option<Frame>, audioChunk: Option<Bytes>, o: Oracles)
    returns (result: Result)
    ensures AnalysisSpec(videoFrame, audioChunk, o, result)
  {
    result := map[];

    if videoFrame.Some? {
      match o.classify(videoFrame.value)
      case Dominant(e) =>
        result := result[EMOTION := Text(e)];
      case ClassifierFailure(m) =>
        result := result[ERROR := Text(ERROR_PREFIX + m)];
    }

    if audioChunk.Some? {
      result := result[DEPRESSION_STATUS := Num(0.0)];
      result := result[ANXIETY_SCORE := Num(0.0)];
      var decodedWav := o.transcode(audioChunk.value);
      if !Decoded(decodedWav) {
        result := result[ANXIETY_SCORE := Text(DECODE_FAILED)];
        return;
      }

      var f := o.extract(decodedWav.value);

      if PitchApplies(f) {
        result := result[DEPRESSION_SCORE := Num(DepressionScore(f.pitch.value))];
      }

      if f.rms > RMS_THRESHOLD {
        result := result[ANXIETY_SCORE := Num(AnxietyScore(f.rms))];
      }
    }
  }

  /** The postcondition of the analysis determines its result completely. */
  lemma AnalysisSpecDeterministic(videoFrame: Option<Frame>, audioChunk: Option<Bytes>, o: Oracles, r1: Result, r2: Result)
    requires AnalysisSpec(videoFrame, audioChunk, o, r1)
    requires AnalysisSpec(videoFrame, audioChunk, o, r2)
    ensures r1 == r2
  {
  }

  /** The audio fields do not depend on the image, whatever it was. */
  lemma AudioIndependentOfImage(f1: Option<Frame>, f2: Option<Frame>, audioChunk: Option<Bytes>, o: Oracles, r1: Result, r2: Result)
    requires AnalysisSpec(f1, audioChunk, o, r1)
    requires AnalysisSpec(f2, audioChunk, o, r2)
    ensures r1 - {EMOTION, ERROR} == r2 - {EMOTION, ERROR}
  {
  }

  /** The image fields do not depend on the audio, whatever it was. */
  lemma ImageIndependentOfAudio(videoFrame: Option<Frame>, c1: Option<Bytes>, c2: Option<Bytes>, o: Oracles, r1: Result, r2: Result)
    requires AnalysisSpec(videoFrame, c1, o, r1)
    requires AnalysisSpec(videoFrame, c2, o, r2)
    ensures (EMOTION in r1 <==> EMOTION in r2) && (ERROR in r1 <==> ERROR in r2)
    ensures EMOTION in r1 ==> r1[EMOTION] == r2[EMOTION]
    ensures ERROR in r1 ==> r1[ERROR] == r2[ERROR]
  {
  }

  /**
   * An audio chunk that does not transcode leaves the sentinel string in
   * `anxiety_score`, the seed in `depression_status`, and no depression score.
   */
  lemma DecodeFailureSentinel(videoFrame: Option<Frame>, audioChunk: Bytes, o: Oracles, r: Result)
    requires !Decoded(o.transcode(audioChunk))
    requires AnalysisSpec(videoFrame, Some(audioChunk), o, r)
    ensures r[ANXIETY_SCORE] == Text(DECODE_FAILED)
    ensures r[DEPRESSION_STATUS] == Num(0.0)
    ensures DEPRESSION_SCORE !in r
  {
  }

  /** Every numeric score the analysis produces lies in [0, 1]. */
  lemma ScoresInUnitInterval(videoFrame: Option<Frame>, audioChunk: Option<Bytes>, o: Oracles, r: Result)
    requires AnalysisSpec(videoFrame, audioChunk, o, r)
    ensures DEPRESSION_SCORE in r ==> r[DEPRESSION_SCORE].Num? && 0.0 < r[DEPRESSION_SCORE].x <= 1.0
    ensures ANXIETY_SCORE in r && r[ANXIETY_SCORE].Num? ==> 0.0 <= r[ANXIETY_SCORE].x <= 1.0
  {
  }
}
