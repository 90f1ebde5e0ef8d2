# Streaming analysis decision layer

A Dafny model of the decision layer of a WebSocket consumer that receives
video frames and audio chunks and answers each event with an emotion label,
depression and anxiety scores and status categories. The decoders, the
feature extractor and the facial-emotion classifier are external
capabilities; the model takes them as total functions that return a value
or fail (`Analysis.Oracles`, `MlModel.AltOracles`) and models the logic
around them:

- `PyStr`: the Python string operations the consumer uses: `'=' * n` and
  `s.split(',')[1]`, with `split`/`join` proved to be inverse.
- `Base64Padding`: `fix_base64_padding`, which pads the audio payload to a
  multiple of the 4-character quantum of section 4 of RFC 4648.
- `Scoring`: the depression and anxiety formulas (exact `real` arithmetic)
  and the threshold classifiers with bands closed at their upper ends.
- `Analysis`: `analyze_video_audio` of `core/consumers.py`, a method that
  builds the result dictionary (`map<string, Value>`, where `Value` is a
  number or a string) key by key, with its early return on a decode failure.
  Its postcondition `AnalysisSpec` fixes every key and value, and is proved
  to determine the result.
- `Session`: the status derivation of `receive` and the
  `VideoAudioConsumer` class with its `latestImage` field, `Connect` and
  `Receive`.
- `MlModel`: the unused alternate `analyze_video_audio` of
  `core/ml_model.py`, with its five-field record, its 300 Hz pitch
  normaliser and its -1 failure marker.

Some of the code's behaviour differs from what a reader might expect of a
pipeline like this. The model follows the code:

- When audio is given, the code seeds `depression_status` with 0.0 and
  `anxiety_score` with 0.0. Both stay in the message when no score replaces
  them (`Session.SilenceScenario`). One might expect an absent score to be
  omitted, and a status field never to appear without a score.
- The depression status guard tests the type of the anxiety score.
- A base64 audio payload that fails to decode gives no audio fields at all.
  Only a transcoder failure, or empty transcoder output, gives the string
  sentinel in `anxiety_score`.
- A non-empty text frame produces a message even when it holds neither
  payload, unless an exception escapes `receive` (see "## Left out").
- The image payload is the field between the first and the second comma, as
  `split(',')[1]` gives, not everything after the first comma.

## Model

| member | source | states |
|---|---|---|
| `PyStr.Repeat` | core/consumers.py:90 | `'=' * n` has length n and every character is `=` |
| `PyStr.IndexOf` | core/consumers.py:111 | finds the first occurrence of the separator, or reports that there is none |
| `PyStr.Split` | core/consumers.py:111 | `str.split` returns at least one field, exactly one iff the separator is absent, and no field contains the separator |
| `PyStr.JoinSplit` | core/consumers.py:111 | joining the fields of a split with the separator gives back the string |
| `PyStr.SplitJoin` | core/consumers.py:111 | splitting a join of separator-free fields gives back those fields |
| `PyStr.SecondField` | core/consumers.py:111 | `split(',')[1]` fails exactly when there is no comma; the field it returns holds no comma |
| `PyStr.SecondFieldOfPrefixed` | core/consumers.py:111 | for `<prefix>,<payload>` the stripped value is the payload |
| `PyStr.SecondFieldStopsAtSeparator` | core/consumers.py:111 | text after a second comma is dropped |
| `Base64Padding.FixBase64Padding` | core/consumers.py:88-90 | the result's length is a multiple of 4, the input is its prefix, 0 to 3 characters are added, exactly `(4 - len % 4) % 4`, and all of them are `=` |
| `Base64Padding.AlignedUnchanged` | core/consumers.py:90 | an input whose length is a multiple of 4 is returned unchanged |
| `Base64Padding.FixBase64PaddingIdempotent` | core/consumers.py:90 | repairing twice equals repairing once |
| `Base64Padding.FewestPads` | core/consumers.py:90 | no shorter padding reaches a multiple of 4 |
| `Base64Padding.PaddedIsInputThenPads` | core/consumers.py:90 | the result is the input followed by pad characters only |
| `Base64Padding.OneOverGetsThreePads` | core/consumers.py:90 | a length of 1 mod 4 gets `===`, a length RFC 4648 never produces |
| `Scoring.ClassifyDepression` | core/consumers.py:26-34 | four bands: no depression iff score <= 0.2, mild iff in (0.2, 0.5], moderate iff in (0.5, 0.8], severe iff > 0.8 |
| `Scoring.ClassifyAnxiety` | core/consumers.py:36-42 | three bands: low iff <= 0.2, moderate iff in (0.2, 0.5], high iff > 0.5 |
| `Scoring.ClassifyDepressionMonotone` | core/consumers.py:26-34 | a higher score never maps to a less severe depression band |
| `Scoring.ClassifyAnxietyMonotone` | core/consumers.py:36-42 | a higher score never maps to a less severe anxiety band |
| `Scoring.BoundariesClosedAbove` | core/consumers.py:26-42 | 0.2, 0.5 and 0.8 fall in the lower band; 0.8000001 is severe and 0.5000001 is high |
| `Scoring.Clamp01` | core/consumers.py:80 | `min(max(x, 0), 1)` lies in [0, 1], is x on [0, 1], 0 below and 1 above |
| `Scoring.Clamp01Monotone` | core/consumers.py:80 | clamping preserves order |
| `Scoring.DepressionScore` | core/consumers.py:79-80 | the live depression score lies in [0, 1], is strictly positive for pitch < 150 and equals 1 - p/150 for p in [0, 150] |
| `Scoring.DepressionScoreNonIncreasing` | core/consumers.py:80 | the depression score is non-increasing in pitch |
| `Scoring.AnxietyScore` | core/consumers.py:83-84 | the anxiety score lies in [0, 1], is strictly positive above the 0.01 threshold and equals 10 * rms for rms up to 0.1 and exactly 1 from 0.1 up |
| `Scoring.AnxietyScoreNonDecreasing` | core/consumers.py:84 | the anxiety score is non-decreasing in rms |
| `Analysis.Decoded` | core/consumers.py:62-63 | `if not decoded_wav` treats both a failed transcode (`None`) and empty output as a failure, and any non-empty output as success |
| `Analysis.Extracted` | core/consumers.py:58-75 | features exist exactly when an audio chunk is given and it transcodes to non-empty output, and they are the extractor's features of that output |
| `Analysis.AnxietyEntry` | core/consumers.py:61-84 | final `anxiety_score`: the decode-failure string exactly when the audio did not decode, otherwise `min(max(10 rms, 0), 1)` when rms > 0.01 and the 0.0 seed when rms <= 0.01 |
| `Analysis.AnalyzeVideoAudio` | core/consumers.py:46-86 | emotion iff a frame is given and it classifies, error `Error: <msg>` iff it fails; with audio, `depression_status` is seeded 0.0 and `anxiety_score` is 0.0, or the sentinel string on a decode failure (early return), or `min(max(10 rms, 0), 1)` when rms > 0.01; `depression_score` iff decoded and the line-79 guard `PitchApplies` holds (pitch defined and < 150), equal to the formula; no other keys |
| `Analysis.AnalysisSpecDeterministic` | core/consumers.py:46-86 | the analysis postcondition determines the whole result dictionary |
| `Analysis.AudioIndependentOfImage` | core/consumers.py:50-86 | the audio-derived entries do not depend on the image outcome |
| `Analysis.ImageIndependentOfAudio` | core/consumers.py:50-55 | the emotion and error entries do not depend on the audio outcome |
| `Analysis.DecodeFailureSentinel` | core/consumers.py:60-65 | a chunk that does not transcode leaves `Failed to decode audio` in `anxiety_score`, 0.0 in `depression_status` and no depression score |
| `Analysis.ScoresInUnitInterval` | core/consumers.py:78-84 | a depression score is numeric in (0, 1]; a numeric anxiety score is in [0, 1] |
| `Session.ImageFrame` | core/consumers.py:109-115 | no frame without an image field, without a comma, or when base64 decoding of the second field fails; when the second field exists and base64-decodes, the frame is exactly the raster decoder's output for the decoded payload (`None` only if that decoder fails) |
| `Session.AudioBytes` | core/consumers.py:120-125 | no bytes without an `audio_chunk` field; an aligned chunk is decoded as is, any other is decoded after `4 - len % 4` `=` are appended |
| `Session.Truthy` | core/consumers.py:129-132 | a value is false exactly when it is 0.0 or the empty string |
| `Session.AnalysisNumericDepression` | core/consumers.py:79-80 | the analysis never puts a string in `depression_score`, which the status guard relies on |
| `Session.DeriveStatus` | core/consumers.py:129-134 | adds `depression_status` iff `DepressionStatusApplies` holds (lines 129-130: the depression score is truthy and >= 0 and the anxiety score is numeric), `anxiety_status` iff `AnxietyStatusApplies` holds (lines 132-133: the anxiety score is numeric, truthy and >= 0), with the classifiers' labels; every other entry is unchanged |
| `Session.AnxietyStatusOfEvent` | core/consumers.py:132-134 | end to end, `anxiety_status` is present iff the audio decoded with rms > 0.01, and is the band of the anxiety formula |
| `Session.DepressionStatusOfEvent` | core/consumers.py:129-131 | end to end, `depression_status` is present iff audio was given; it is the band of the depression formula iff the pitch was defined and < 150, else the 0.0 seed |
| `Session.StatusOnlyWithScore` | core/consumers.py:129-134 | a status label is never present without a positive numeric score, and the depression label also needs a numeric anxiety score |
| `Session.ToneScenario` | core/consumers.py:58-134 | a 120 Hz tone at rms 0.05 gives exactly scores 0.2 and 0.5 with labels "No Depression" and "Moderate Anxiety" |
| `Session.SilenceScenario` | core/consumers.py:58-134 | silence gives exactly the two 0.0 seeds and no status label |
| `Session.ImageWithoutSeparator` | core/consumers.py:109-117 | an image payload without a comma never decodes, so the frame is absent |
| `Session.ImagePayloadDecoded` | core/consumers.py:111-114 | for `<prefix>,<payload>` exactly the payload is base64-decoded and then raster-decoded |
| `Session.VideoAudioConsumer.constructor` | core/consumers.py:93-95 | a new consumer holds no frame |
| `Session.VideoAudioConsumer.Connect` | core/consumers.py:94-97 | resets `latestImage` to none and returns the connection acknowledgement |
| `Session.VideoAudioConsumer.Receive` | core/consumers.py:102-135 | an empty frame sends nothing and changes nothing; otherwise `latestImage` becomes the newly decoded frame or stays as it was, and the message sent is the analysis of the decoded image and the re-padded, decoded audio with the status fields derived |
| `MlModel.AltDepressionScore` | core/ml_model.py:32 | `min(max(1 - p/300, 0), 1)` lies in [0, 1], equals 1 - p/300 on [0, 300] and 0 from 300 up, with no pitch guard |
| `MlModel.AltDepressionScoreNonIncreasing` | core/ml_model.py:32 | the alternate depression score is non-increasing in pitch |
| `MlModel.AltVersusLiveDepression` | core/ml_model.py:32 | on pitches in [0, 150), the alternate score is the mean of the live score and 1, so it is never below it |
| `MlModel.EmotionText` | core/ml_model.py:19-24 | the emotion field is the classifier's label, or `Error: ` followed by exactly the failure message |
| `MlModel.AnalyzeVideoAudio` | core/ml_model.py:9-38 | emotion is "unknown" with no frame, the label, or "Error: " plus the message; with audio, both scores are the formulas on success and -1 on failure, and 0.0 without audio; schizophrenia and suicidal-risk scores stay 0.0; with no inputs the seeded default is returned |
| `MlModel.AudioFieldsWellFormed` | core/ml_model.py:27-36 | the two audio scores are both -1 exactly on failure and otherwise both in [0, 1] |

## Left out

- Decoding is not modelled: FFmpeg WebM-to-WAV transcoding, base64 decoding, PIL raster decoding and RGB conversion, and `np.array`. Each is an oracle that returns its output or fails (`None`). FFmpeg's logged error stream is I/O.
- librosa loading, RMS and pyin/yin pitch estimation are not modelled. They are floating-point signal processing in a library. Their outcome is an oracle result: `Features(rms, pitch)` with an optional pitch for the live path, and an optional `AudioFeatures` for the alternate one.
- DeepFace emotion analysis is an oracle that returns a dominant emotion or a failure message.
- JSON parsing and serialisation are not modelled. Neither is an inbound field that is present but not a string, nor a `json.loads` exception. A parsed event is an `InboundEvent` with optional string fields. `Receive` returns the message instead of sending it.
- `accept`, `send`, `disconnect`, `print` logging and the asynchronous WebSocket lifecycle are transport, concurrency and I/O. `Receive` is synchronous.
- An exception raised by librosa on the live path propagates out of `receive` in the source. The live feature oracle is total, so the model does not cover that path.
- IEEE-754 rounding and NaN propagation are not modelled; arithmetic is exact `real`. A NaN mean pitch is `None`. A NaN pitch on the alternate path is not modelled.
- Python/numpy numeric types are not modelled. `isinstance(v, float)` is taken to mean "v is a number rather than the sentinel string". In the source, `min`/`max` can return the integer 1, and librosa's features are float32. In the running program either one would make that check false and suppress both status fields. Also, for 0.01 < rms <= 0.1, `anxiety_score` stays a numpy float32, and `json.dumps` at line 135 rejects a float32 value, so such an event sends no message at all. The model, with exact reals, sends one (`Session.ToneScenario` is such an event).
- `MlModel.AnalyzeVideoAudio`: the -1 failure marker is an `int` in the source and a `real` here.
- core/models.py is not part of this model: it is a persistence record with no logic.
