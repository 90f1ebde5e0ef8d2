/**
 * Repair of the base64 audio payload before decoding
 * (`fix_base64_padding` in core/consumers.py). Padding characters are
 * appended until the length is a multiple of the 4-character quantum of
 * section 4 of RFC 4648.
 */
module Base64Padding {
  import opened PyStr

  const PAD: char := '='
  const QUANTUM: nat := 4

  /**
   * Appends `QUANTUM - |s| % QUANTUM` copies of `PAD` unless `|s|` is
   * already a multiple of the quantum. A length one past a multiple of four
   * receives three pad characters, as written; RFC 4648 never produces such
   * a string, so the decoder is left to reject it.
   */
  function FixBase64Padding(s: string): (r: string)
    ensures |r| % QUANTUM == 0
    ensures |s| <= |r| && r[..|s|] == s
    ensures |r| - |s| == (QUANTUM - |s| % QUANTUM) % QUANTUM
    ensures forall i :: |s| <= i < |r| ==> r[i] == PAD
  {
    if |s| % QUANTUM != 0 then s + Repeat(PAD, QUANTUM - |s| % QUANTUM) else s
  }

  /** A string already a whole number of quanta long is returned unchanged. */
  lemma AlignedUnchanged(s: string)
    requires |s| % QUANTUM == 0
    ensures FixBase64Padding(s) == s
  {
  }

  /** Repairing twice is the same as repairing once. */
  lemma FixBase64PaddingIdempotent(s: string)
    ensures FixBase64Padding(FixBase64Padding(s)) == FixBase64Padding(s)
  {
  }

  /** No shorter run of pad characters would reach a multiple of the quantum. */
  lemma FewestPads(s: string, k: nat)
    requires k < |FixBase64Padding(s)| - |s|
    ensures (|s| + k) % QUANTUM != 0
  {
  }

  /** The result is exactly the input followed by pad characters only. */
  lemma PaddedIsInputThenPads(s: string)
    ensures FixBase64Padding(s) == s + Repeat(PAD, |FixBase64Padding(s)| - |s|)
  {
  }

  /** The case that RFC 4648 rules out: one character over receives three pads. */
  lemma OneOverGetsThreePads(s: string)
    requires |s| % QUANTUM == 1
    ensures FixBase64Padding(s) == s + "==="
  {
  }
}
