/**
 * `VideoAudioConsumer` of core/consumers.py: the per-connection session.
 * Each inbound text event is stripped of its image prefix, its audio is
 * re-padded, both are decoded, analysed, and the status fields are derived
 * from the scores before the result is sent back.
 */
module Session {
  import opened Wrappers
  import opened Media
  import opened PyStr
  import opened Base64Padding
  import opened Scoring
  import opened Analysis

  /** A parsed inbound message: the optional `image` and `audio_chunk` fields. */
  datatype InboundEvent = InboundEvent(image: Option<string>, audioChunk: Option<string>)

  /** The acknowledgement sent on connect. */
  const CONNECTED := "WebSocket connection established"

  /** The separator between the image's format prefix and its base64 payload. */
  const PREFIX_SEPARATOR: char := ','

  /**
   * The frame an event's image decodes to: second comma-separated field,
   * base64-decoded, then raster-decoded to RGB; `None` when any step fails.
   */
  function ImageFrame(image: Option<string>, o: Oracles): (frame: Option<Frame>)
    ensures image.None? ==> frame.None?
    ensures image.Some? && PREFIX_SEPARATOR !in image.value ==> frame.None?
    ensures image.Some? && PREFIX_SEPARATOR in image.value ==>
      (o.b64decode(SecondField(image.value, PREFIX_SEPARATOR).value).None? ==> frame.None?)
    ensures frame.Some? ==>
      var payload := SecondField(image.value, PREFIX_SEPARATOR).value;
      o.b64decode(payload).Some? && frame == o.openImage(o.b64decode(payload).value)
    ensures image.Some? && PREFIX_SEPARATOR in image.value ==>
      var payload := SecondField(image.value, PREFIX_SEPARATOR).value;
      o.b64decode(payload).Some? ==> frame == o.openImage(o.b64decode(payload).value)
  {
    if image.None? then None
    else match SecondField(image.value, PREFIX_SEPARATOR)
      case None => None
      case Some(payload) =>
        match o.b64decode(payload)
        case None => None
        case Some(bytes) => o.openImage(bytes)
  }

  /** The bytes an event's audio decodes to, after its padding is repaired. */
  function AudioBytes(audioChunk: Option<string>, o: Oracles): (bytes: Option<Bytes>)
    ensures audioChunk.None? ==> bytes.None?
    ensures audioChunk.Some? && |audioChunk.value| % QUANTUM == 0 ==> bytes == o.b64decode(audioChunk.value)
    ensures audioChunk.Some? && |audioChunk.value| % QUANTUM != 0 ==>
      bytes == o.b64decode(audioChunk.value + Repeat(PAD, QUANTUM - |audioChunk.value| % QUANTUM))
  {
    if audioChunk.None? then None else o.b64decode(FixBase64Padding(audioChunk.value))
  }

  /** Python truthiness of a dictionary value: only 0.0 and the empty string are false. */
  predicate Truthy(v: Value): (t: bool)
    ensures t <==> v != Num(0.0) && v != Text("")
  {
    match v
    case Num(x) => x != 0.0
    case Text(s) => s != ""
  }

  /** What the status step is entitled to assume: `depression_score`, when present, is a number. */
  predicate NumericDepression(a: Result)
  {
    DEPRESSION_SCORE in a ==> a[DEPRESSION_SCORE].Num?
  }

  /**
   * The guard of the depression status (lines 129-130): the depression score
   * is truthy and non-negative, and the ANXIETY score is a number.
   */
  predicate DepressionStatusApplies(a: Result)
    requires NumericDepression(a)
  {
    && DEPRESSION_SCORE in a && Truthy(a[DEPRESSION_SCORE])
    && ANXIETY_SCORE in a && a[ANXIETY_SCORE].Num?
    && a[DEPRESSION_SCORE].x >= 0.0
  }

  /** The guard of the anxiety status (lines 132-133): a truthy, non-negative number. */
  predicate AnxietyStatusApplies(a: Result)
  {
    ANXIETY_SCORE in a && Truthy(a[ANXIETY_SCORE]) && a[ANXIETY_SCORE].Num? && a[ANXIETY_SCORE].x >= 0.0
  }

  /**
   * The status step adds exactly the status keys whose guards hold, fills
   * them with the classifiers' labels, and leaves every other entry alone.
   */
  ghost predicate StatusSpec(a: Result, r: Result)
    requires NumericDepression(a)
  {
    && r.Keys == a.Keys
                 + (if DepressionStatusApplies(a) then {DEPRESSION_STATUS} else {})
                 + (if AnxietyStatusApplies(a) then {ANXIETY_STATUS} else {})
    && (forall k :: k in a && k != DEPRESSION_STATUS && k != ANXIETY_STATUS ==> r[k] == a[k])
    && (DEPRESSION_STATUS in r ==>
          r[DEPRESSION_STATUS] == (if DepressionStatusApplies(a)
                                   then Text(ClassifyDepression(a[DEPRESSION_SCORE].x))
                                   else a[DEPRESSION_STATUS]))
    && (ANXIETY_STATUS in r ==>
          r[ANXIETY_STATUS] == (if AnxietyStatusApplies(a)
                                then Text(ClassifyAnxiety(a[ANXIETY_SCORE].x))
                                else a[ANXIETY_STATUS]))
  }

  /** Lines 129-134 of `receive`: derive the status fields in place. */
  method DeriveStatus(analysis: Result) returns (result: Result)
    requires NumericDepression(analysis)
    ensures StatusSpec(analysis, result)
  {
    result := analysis;
    if DEPRESSION_SCORE in result && Truthy(result[DEPRESSION_SCORE]) && ANXIETY_SCORE in result && result[ANXIETY_SCORE].Num? {
      if result[DEPRESSION_SCORE].x >= 0.0 {
        result := result[DEPRESSION_STATUS := Text(ClassifyDepression(result[DEPRESSION_SCORE].x))];
      }
    }
    if ANXIETY_SCORE in result && Truthy(result[ANXIETY_SCORE]) && result[ANXIETY_SCORE].Num? {
      if result[ANXIETY_SCORE].x >= 0.0 {
        result := result[ANXIETY_STATUS := Text(ClassifyAnxiety(result[ANXIETY_SCORE].x))];
      }
    }
  }

  /** The analysis never leaves a string in `depression_score`. */
  lemma AnalysisNumericDepression(videoFrame: Option<Frame>, audioChunk: Option<Bytes>, o: Oracles, a: Result)
    requires AnalysisSpec(videoFrame, audioChunk, o, a)
    ensures NumericDepression(a)
  {
  }

  /**
   * End to end, `anxiety_status` is present exactly when the audio decoded
   * and its energy exceeded the threshold, and it is the band of the anxiety
   * formula.
   */
  lemma AnxietyStatusOfEvent(videoFrame: Option<Frame>, audioChunk: Option<Bytes>, o: Oracles, a: Result, r: Result)
    requires AnalysisSpec(videoFrame, audioChunk, o, a)
    requires NumericDepression(a) && StatusSpec(a, r)
    ensures var f := Extracted(audioChunk, o);
      ANXIETY_STATUS in r <==> f.Some? && f.value.rms > RMS_THRESHOLD
    ensures var f := Extracted(audioChunk, o);
      ANXIETY_STATUS in r ==> r[ANXIETY_STATUS] == Text(ClassifyAnxiety(AnxietyScore(f.value.rms)))
  {
  }

  /**
   * End to end, `depression_status` is present exactly when audio was
   * given; it is the band of the depression formula when the pitch was
   * defined and below the ceiling, and otherwise the 0.0 seed.
   */
  lemma DepressionStatusOfEvent(videoFrame: Option<Frame>, audioChunk: Option<Bytes>, o: Oracles, a: Result, r: Result)
    requires AnalysisSpec(videoFrame, audioChunk, o, a)
    requires NumericDepression(a) && StatusSpec(a, r)
    ensures DEPRESSION_STATUS in r <==> audioChunk.Some?
    ensures var f := Extracted(audioChunk, o);
      DEPRESSION_STATUS in r ==>
        r[DEPRESSION_STATUS] == (if f.Some? && PitchApplies(f.value)
                                 then Text(ClassifyDepression(DepressionScore(f.value.pitch.value)))
                                 else Num(0.0))
  {
  }

  /**
   * A status label is never present without a numeric, positive source
   * score; the depression label also needs a numeric anxiety score.
   */
  lemma StatusOnlyWithScore(videoFrame: Option<Frame>, audioChunk: Option<Bytes>, o: Oracles, a: Result, r: Result)
    requires AnalysisSpec(videoFrame, audioChunk, o, a)
    requires NumericDepression(a) && StatusSpec(a, r)
    ensures ANXIETY_STATUS in r ==> ANXIETY_SCORE in r && r[ANXIETY_SCORE].Num? && r[ANXIETY_SCORE].x > 0.0
    ensures DEPRESSION_STATUS in r && r[DEPRESSION_STATUS].Text? ==>
      && DEPRESSION_SCORE in r && r[DEPRESSION_SCORE].Num? && r[DEPRESSION_SCORE].x > 0.0
      && ANXIETY_SCORE in r && r[ANXIETY_SCORE].Num?
  {
  }

  /**
   * A 120 Hz tone at RMS 0.05 and no image: depression score 0.2 on the
   * boundary of "No Depression", anxiety score 0.5 on the boundary of
   * "Moderate Anxiety". The whole message is determined.
   */
  lemma ToneScenario(audioChunk: Bytes, o: Oracles, a: Result, r: Result)
    requires Decoded(o.transcode(audioChunk))
    requires o.extract(o.transcode(audioChunk).value) == Features(0.05, Some(120.0))
    requires AnalysisSpec(None, Some(audioChunk), o, a)
    requires NumericDepression(a) && StatusSpec(a, r)
    ensures r == map[DEPRESSION_SCORE := Num(0.2), ANXIETY_SCORE := Num(0.5),
                     DEPRESSION_STATUS := Text(NO_DEPRESSION), ANXIETY_STATUS := Text(MODERATE_ANXIETY)]
  {
  }

  /**
   * Silence (energy at most the threshold, no voiced frame) and no image:
   * the message still carries the two 0.0 seeds and no status label.
   */
  lemma SilenceScenario(audioChunk: Bytes, o: Oracles, rms: real, a: Result, r: Result)
    requires Decoded(o.transcode(audioChunk))
    requires rms <= RMS_THRESHOLD
    requires o.extract(o.transcode(audioChunk).value) == Features(rms, None)
    requires AnalysisSpec(None, Some(audioChunk), o, a)
    requires NumericDepression(a) && StatusSpec(a, r)
    ensures r == map[DEPRESSION_STATUS := Num(0.0), ANXIETY_SCORE := Num(0.0)]
  {
  }

  /** An image payload without a comma never decodes. */
  lemma ImageWithoutSeparator(s: string, o: Oracles)
    requires PREFIX_SEPARATOR !in s
    ensures ImageFrame(Some(s), o) == None
  {
  }

  /** For `<prefix>,<payload>`, exactly the payload is handed to the base64 decoder. */
  lemma ImagePayloadDecoded(prefix: string, payload: string, o: Oracles)
    requires PREFIX_SEPARATOR !in prefix && PREFIX_SEPARATOR !in payload
    ensures ImageFrame(Some(prefix + [PREFIX_SEPARATOR] + payload), o) ==
      match o.b64decode(payload)
      case None => None
      case Some(bytes) => o.openImage(bytes)
  {
    SecondFieldOfPrefixed(prefix, PREFIX_SEPARATOR, payload);
  }

  /** One connection's consumer; `latestImage` is the last frame that decoded. */
  class VideoAudioConsumer {
    var latestImage: Option<Frame>

    constructor ()
      ensures latestImage == None
    {
      latestImage := None;
    }

    /** `connect`: forget the stored frame and acknowledge the connection. */
    method Connect() returns (ack: string)
      modifies this
      ensures latestImage == None
      ensures ack == CONNECTED
    {
      latestImage := None;
      ack := CONNECTED;
    }

    /**
     * `receive`: `None` for an empty frame (nothing is sent); otherwise the
     * message sent back is the analysis of the decoded image and audio with
     * the status fields derived, and `latestImage` is the newly decoded
     * frame, or unchanged when the image is absent or fails to decode.
     * `analysis` is the dictionary before the status step.
     */
    method Receive(textData: Option<InboundEvent>, o: Oracles) returns (sent: Option<Result>, ghost analysis: Result)
      modifies this
      ensures textData.None? ==> sent.None? && latestImage == old(latestImage)
      ensures textData.Some? ==>
        var frame := ImageFrame(textData.value.image, o);
        && latestImage == (if frame.Some? then frame else old(latestImage))
        && AnalysisSpec(frame, AudioBytes(textData.value.audioChunk, o), o, analysis)
        && NumericDepression(analysis)
        && sent.Some? && StatusSpec(analysis, sent.value)
    {
      analysis := map[];
      if textData.None? {
        sent := None;
        return;
      }
      var data := textData.value;
      var imageArray: Option<Frame> := None;
      var audioData: Option<Bytes> := None;

      if data.image.Some? {
        var imageData := SecondField(data.image.value, PREFIX_SEPARATOR);
        if imageData.Some? {
          var decodedImage := o.b64decode(imageData.value);
          if decodedImage.Some? {
            var img := o.openImage(decodedImage.value);
            if img.Some? {
              imageArray := img;
              latestImage := img;
            }
          }
        }
      }

      if data.audioChunk.Some? {
        var b64Audio := FixBase64Padding(data.audioChunk.value);
        audioData := o.b64decode(b64Audio);
      }

      var result := AnalyzeVideoAudio(imageArray, audioData, o);
      analysis := result;
      AnalysisNumericDepression(imageArray, audioData, o, result);
      result := DeriveStatus(result);
      sent := Some(result);
    }
  }
}
