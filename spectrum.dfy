/** Specification of the waterfall's spectral analysis: how one chunk of
    PCM16 audio becomes the spectral line the view keeps. The chunk is cut
    into whole windows of FFT_SIZE samples (a shorter tail is dropped), each
    window is weighted sample by sample and transformed, every output value
    is divided by the chunk's byte count over FFT_SIZE and by FFT_GAIN, and
    only the first half of the last window's output is kept.

    The real DFT and the window weight are foreign: they appear here as
    function values the caller supplies. */
module Spectrum {

  const FFT_SIZE: nat := 1024
  const FFT_GAIN: nat := 20000
  /** Number of values a spectral line holds. */
  const LINE_SIZE: nat := FFT_SIZE / 2

  /** A signed 16-bit PCM sample. */
  newtype Sample = x: int | -32768 <= x < 32768

  /** The real DFT of one window, given bin by bin: Transform(w, k) is value
      k of the transform of window w, so a window of FFT_SIZE values has an
      output of FFT_SIZE values. */
  type Transform = (seq<real>, nat) -> real

  /** The weight applied to sample j of every window. */
  type Weight = nat -> real

  /** Number of whole windows in a chunk of byteCount bytes. */
  function WindowCount(byteCount: nat): nat
  {
    byteCount / FFT_SIZE / 2
  }

  /** The divisor applied to every transform output of a chunk. */
  function Divisor(byteCount: nat): nat
  {
    byteCount / FFT_SIZE
  }

  /** The samples a chunk of byteCount bytes holds, read as 16-bit values. */
  predicate HoldsSamples(byteCount: nat, samples: seq<Sample>)
  {
    |samples| == byteCount / 2
  }

  /** The windows are exactly the first byteCount / 2048 blocks of 1024
      samples, and every sample index they read lies below byteCount / 2. */
  lemma WindowWithinChunk(byteCount: nat, i: nat, j: nat)
    requires i < WindowCount(byteCount)
    requires j < FFT_SIZE
    ensures WindowCount(byteCount) == byteCount / 2048
    ensures FFT_SIZE * i + j < byteCount / 2
  {
  }

  /** A chunk with at least one window divides by at least twice the number
      of windows: the divisor counts 1024-byte blocks, a window has 2048 bytes. */
  lemma DivisorCountsHalfWindows(byteCount: nat)
    ensures 2 * WindowCount(byteCount) <= Divisor(byteCount) <= 2 * WindowCount(byteCount) + 1
    ensures WindowCount(byteCount) > 0 ==> Divisor(byteCount) >= 2
  {
  }

  /** Window i of the chunk, each sample multiplied by its weight. */
  function Weighted(byteCount: nat, samples: seq<Sample>, i: nat, weight: Weight): (w: seq<real>)
    requires HoldsSamples(byteCount, samples)
    requires i < WindowCount(byteCount)
    ensures |w| == FFT_SIZE
  {
    WindowWithinChunk(byteCount, i, FFT_SIZE - 1);
    seq(FFT_SIZE, j requires 0 <= j < FFT_SIZE => samples[FFT_SIZE * i + j] as real * weight(j))
  }

  /** The full transform of a window. */
  function Transformed(w: seq<real>, transform: Transform): (out: seq<real>)
    ensures |out| == |w|
  {
    seq(|w|, k requires 0 <= k < |w| => transform(w, k))
  }

  /** The scaled output of window i: transform output over Divisor and FFT_GAIN. */
  function Scaled(byteCount: nat, samples: seq<Sample>, i: nat, transform: Transform, weight: Weight): (s: seq<real>)
    requires HoldsSamples(byteCount, samples)
    requires i < WindowCount(byteCount)
    ensures |s| == FFT_SIZE
  {
    var out := Transformed(Weighted(byteCount, samples, i, weight), transform);
    DivisorCountsHalfWindows(byteCount);
    seq(FFT_SIZE, k requires 0 <= k < FFT_SIZE => out[k] / (Divisor(byteCount) as real) / (FFT_GAIN as real))
  }

  /** The spectral line after one chunk: unchanged when the chunk has no
      whole window, otherwise the first half of the last window's scaled output.
      Every kept value, multiplied back by the divisor and the gain, is the
      transform output of the last window, whatever the earlier windows held. */
  function LineAfter(line: seq<real>, byteCount: nat, samples: seq<Sample>,
                     transform: Transform, weight: Weight): (r: seq<real>)
    requires HoldsSamples(byteCount, samples)
    ensures WindowCount(byteCount) == 0 ==> r == line
    ensures WindowCount(byteCount) > 0 ==> |r| == LINE_SIZE
    ensures WindowCount(byteCount) > 0 ==>
      forall k :: 0 <= k < LINE_SIZE ==>
        r[k] * (Divisor(byteCount) as real) * (FFT_GAIN as real)
          == transform(Weighted(byteCount, samples, WindowCount(byteCount) - 1, weight), k)
  {
    if WindowCount(byteCount) == 0 then line
    else
      var s := Scaled(byteCount, samples, WindowCount(byteCount) - 1, transform, weight);
      DivisorCountsHalfWindows(byteCount);
      s[..LINE_SIZE]
  }

  /** A chunk shorter than one window (fewer than 2048 bytes) leaves the line as it was. */
  lemma ShortChunkKeepsLine(line: seq<real>, byteCount: nat, samples: seq<Sample>,
                            transform: Transform, weight: Weight)
    requires HoldsSamples(byteCount, samples)
    requires byteCount < 2 * FFT_SIZE
    ensures LineAfter(line, byteCount, samples, transform, weight) == line
  {
  }

  /** Earlier windows leave no trace: two chunks of the same length whose
      last windows agree give the same line, whatever came before. */
  lemma LastWindowOnly(line1: seq<real>, line2: seq<real>, byteCount: nat,
                       samples1: seq<Sample>, samples2: seq<Sample>,
                       transform: Transform, weight: Weight)
    requires HoldsSamples(byteCount, samples1) && HoldsSamples(byteCount, samples2)
    requires WindowCount(byteCount) > 0
    requires samples1[FFT_SIZE * (WindowCount(byteCount) - 1) .. FFT_SIZE * WindowCount(byteCount)]
          == samples2[FFT_SIZE * (WindowCount(byteCount) - 1) .. FFT_SIZE * WindowCount(byteCount)]
    ensures LineAfter(line1, byteCount, samples1, transform, weight)
         == LineAfter(line2, byteCount, samples2, transform, weight)
  {
    var last := WindowCount(byteCount) - 1;
    var w1 := Weighted(byteCount, samples1, last, weight);
    var w2 := Weighted(byteCount, samples2, last, weight);
    forall j | 0 <= j < FFT_SIZE
      ensures w1[j] == w2[j]
    {
      assert samples1[FFT_SIZE * last + j] == samples2[FFT_SIZE * last + j];
    }
    assert w1 == w2;
  }
}
