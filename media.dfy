/**
 * Values exchanged with the opaque media and machine-learning capabilities
 * that both analysers call: raw bytes, decoded RGB frames and the outcome of
 * the facial-emotion classifier.
 */
module Media {

  type Bytes = seq<bv8>

  /** A decoded RGB pixel buffer (height x width x 3 bytes). */
  datatype Frame = Frame(height: nat, width: nat, rgb: Bytes)

  /**
   * What the facial-emotion capability gives for a frame: its dominant
   * emotion, or the text of the exception it raised.
   */
  datatype FaceOutcome = Dominant(emotion: string) | ClassifierFailure(message: string)

  /** The text the analysers put in front of a classifier failure. */
  const ERROR_PREFIX := "Error: "
}
