/** AudioProcessor.prepare_for_embedding: fits a clip into the embedding
    model's window by cutting it to 30 seconds or zero-padding it to 5 seconds.
    Samples are of an abstract type with a distinguished zero. */
module AudioProcessor {

  function Min(a: int, b: int): int { if a <= b then a else b }
  function Max(a: int, b: int): int { if a >= b then a else b }

  /** numpy's a[:n]; a negative n counts from the end. */
  function SliceTo<T>(a: seq<T>, n: int): (r: seq<T>)
    ensures |r| == if n >= 0 then Min(n, |a|) else Max(0, |a| + n)
    ensures r == a[..|r|]
  {
    if n >= 0 then (if n <= |a| then a[..n] else a)
    else if |a| + n >= 0 then a[..|a| + n]
    else []
  }

  /** np.pad(a, (0, count), mode='constant'): count zeros appended. */
  function PadEnd<T>(a: seq<T>, count: nat, zero: T): (r: seq<T>)
    ensures |r| == |a| + count && r[..|a|] == a
    ensures forall i :: |a| <= i < |r| ==> r[i] == zero
  {
    a + seq(count, _ => zero)
  }

  function PrepareForEmbedding<T>(audio: seq<T>, sr: int, zero: T): (r: seq<T>)
    ensures forall i :: 0 <= i < |r| && i < |audio| ==> r[i] == audio[i]
    ensures forall i :: |audio| <= i < |r| ==> r[i] == zero
    ensures sr >= 0 ==> 5 * sr <= |r| <= 30 * sr
  {
    var maxSamples := 30 * sr;
    var clipped := if |audio| > maxSamples then SliceTo(audio, maxSamples) else audio;
    var minSamples := 5 * sr;
    if |clipped| < minSamples then PadEnd(clipped, minSamples - |clipped|, zero) else clipped
  }

  /** A clip longer than 30 seconds is cut to its first 30 seconds. */
  lemma TruncatesLong<T>(audio: seq<T>, sr: int, zero: T)
    requires sr >= 0 && |audio| > 30 * sr
    ensures PrepareForEmbedding(audio, sr, zero) == audio[..30 * sr]
  {
  }

  /** A clip shorter than 5 seconds keeps its samples and is filled up with zeros to exactly 5 seconds. */
  lemma PadsShort<T>(audio: seq<T>, sr: int, zero: T)
    requires |audio| < 5 * sr
    ensures PrepareForEmbedding(audio, sr, zero) == audio + seq(5 * sr - |audio|, _ => zero)
  {
  }

  /** A clip of 5 to 30 seconds passes through unchanged. */
  lemma KeepsFitting<T>(audio: seq<T>, sr: int, zero: T)
    requires 5 * sr <= |audio| <= 30 * sr
    ensures PrepareForEmbedding(audio, sr, zero) == audio
  {
  }

  /** For a non-negative rate, shaping an already shaped clip changes nothing. */
  lemma Idempotent<T>(audio: seq<T>, sr: int, zero: T)
    requires sr >= 0
    ensures var r := PrepareForEmbedding(audio, sr, zero);
            PrepareForEmbedding(r, sr, zero) == r
  {
    KeepsFitting(PrepareForEmbedding(audio, sr, zero), sr, zero);
  }

  /** For a negative rate both limits are negative: no padding happens and the
      slice, counting from the end, drops the last -30 * sr samples. */
  lemma NegativeRateDropsTail<T>(audio: seq<T>, sr: int, zero: T)
    requires sr < 0
    ensures PrepareForEmbedding(audio, sr, zero) == audio[..Max(0, |audio| + 30 * sr)]
  {
  }
}
