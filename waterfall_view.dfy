/** The waterfall view widget: the state it keeps between audio pushes,
    event pulses, counter updates, animation ticks and paints. GPU drawing and
    the text overlay are not modelled; a paint reports which surfaces it uses. */
module Waterfall {
  import opened Spectrum
  import Indicator
  import opened Surfaces

  class WaterfallView {
    /** The foreign real DFT and the per-sample window weight. */
    const transform: Transform
    const weight: Weight

    /** Number of paints so far. */
    var count: nat
    /** The most recent spectral line; empty until audio with a whole window arrives. */
    var lineBuffer: seq<real>
    var detectedBrightness: real
    var decordedBrightness: real
    var decodedPackets: int
    var completePackets: int
    var decodeRatio: real

    /** Brightnesses stay within [0, 1] and the line is either absent or half a window. */
    ghost predicate Valid()
      reads this
    {
      0.0 <= detectedBrightness <= Indicator.FULL &&
      0.0 <= decordedBrightness <= Indicator.FULL &&
      (|lineBuffer| == 0 || |lineBuffer| == LINE_SIZE)
    }

    constructor (transform: Transform, weight: Weight)
      ensures Valid()
      ensures this.transform == transform && this.weight == weight
      ensures count == 0 && lineBuffer == []
      ensures decodedPackets == 0 && completePackets == 0 && decodeRatio == 0.0
      ensures detectedBrightness == 0.0 && decordedBrightness == 0.0
    {
      this.transform := transform;
      this.weight := weight;
      count := 0;
      lineBuffer := [];
      decodedPackets, completePackets, decodeRatio := 0, 0, 0.0;
      detectedBrightness, decordedBrightness := 0.0, 0.0;
    }

    /** The foreign transform applied in place to one window. */
    method Rdft(signal: array<real>)
      modifies signal
      ensures signal[..] == Transformed(old(signal[..]), transform)
    {
      var input := signal[..];
      forall k | 0 <= k < signal.Length {
        signal[k] := transform(input, k);
      }
    }

    /** A chunk of byteCount bytes of PCM16 audio, given as its samples. */
    method UpdateAudio(byteCount: nat, samples: seq<Sample>)
      requires Valid()
      requires HoldsSamples(byteCount, samples)
      modifies this`lineBuffer
      ensures Valid()
      ensures lineBuffer == LineAfter(old(lineBuffer), byteCount, samples, transform, weight)
    {
      var spectrum := new real[FFT_SIZE](_ => 0.0);
      var i := 0;
      while i < byteCount / FFT_SIZE / 2
        invariant 0 <= i <= WindowCount(byteCount)
        invariant lineBuffer == if i == 0 then old(lineBuffer)
                                else Scaled(byteCount, samples, i - 1, transform, weight)[..LINE_SIZE]
        invariant Valid()
      {
        var signal := new real[FFT_SIZE](_ => 0.0);
        var j := 0;
        while j < FFT_SIZE
          invariant 0 <= j <= FFT_SIZE
          invariant forall k :: 0 <= k < j ==> signal[k] == Weighted(byteCount, samples, i, weight)[k]
        {
          WindowWithinChunk(byteCount, i, j);
          signal[j] := samples[j + FFT_SIZE * i] as real * weight(j);
          j := j + 1;
        }
        assert signal[..] == Weighted(byteCount, samples, i, weight);
        Rdft(signal);
        DivisorCountsHalfWindows(byteCount);
        ghost var out := signal[..];
        assert out == Transformed(Weighted(byteCount, samples, i, weight), transform);
        j := 0;
        while j < FFT_SIZE
          invariant 0 <= j <= FFT_SIZE
          invariant signal[..] == out
          invariant forall k :: 0 <= k < j ==>
            spectrum[k] == signal[k] / ((byteCount / FFT_SIZE) as real) / (FFT_GAIN as real)
        {
          spectrum[j] := signal[j] / ((byteCount / FFT_SIZE) as real) / (FFT_GAIN as real);
          j := j + 1;
        }
        assert spectrum[..] == Scaled(byteCount, samples, i, transform, weight);
        lineBuffer := spectrum[..LINE_SIZE];
        i := i + 1;
      }
    }

    /** A frame was detected: the DTD indicator lights up fully. */
    method Detected()
      requires Valid()
      modifies this`detectedBrightness
      ensures Valid()
      ensures detectedBrightness == Indicator.FULL
    {
      detectedBrightness := 1.0;
    }

    /** A frame was decoded: the DCD indicator lights up fully. */
    method Decorded()
      requires Valid()
      modifies this`decordedBrightness
      ensures Valid()
      ensures decordedBrightness == Indicator.FULL
    {
      decordedBrightness := 1.0;
    }

    method SetDecodedPackets(n: int)
      requires Valid()
      modifies this`decodedPackets
      ensures Valid()
      ensures decodedPackets == n
    {
      decodedPackets := n;
    }

    method SetCompletePackets(n: int)
      requires Valid()
      modifies this`completePackets
      ensures Valid()
      ensures completePackets == n
    {
      completePackets := n;
    }

    method SetDecodeRatio(ratio: real)
      requires Valid()
      modifies this`decodeRatio
      ensures Valid()
      ensures decodeRatio == ratio
    {
      decodeRatio := ratio;
    }

    /** One animation tick: both indicators decay, each on its own. */
    method Animate()
      requires Valid()
      modifies this`detectedBrightness, this`decordedBrightness
      ensures Valid()
      ensures detectedBrightness == Indicator.Decay(old(detectedBrightness))
      ensures decordedBrightness == Indicator.Decay(old(decordedBrightness))
      ensures detectedBrightness >= Indicator.FLOOR && decordedBrightness >= Indicator.FLOOR
    {
      detectedBrightness := detectedBrightness / 1.1;
      detectedBrightness := Indicator.Max(detectedBrightness, 0.2);
      decordedBrightness := decordedBrightness / 1.1;
      decordedBrightness := Indicator.Max(decordedBrightness, 0.2);
      Indicator.DecayKeepsUnitRange(old(detectedBrightness));
      Indicator.DecayKeepsUnitRange(old(decordedBrightness));
    }

    /** The bookkeeping of one paint. framebufferObjects is whether the GPU
        offers framebuffer objects; the counter advances either way. */
    method PaintEvent(framebufferObjects: bool) returns (frame: Frame)
      requires Valid()
      modifies this`count
      ensures Valid()
      ensures count == old(count) + 1
      ensures frame == PlanFrame(count, |lineBuffer|, framebufferObjects)
      ensures frame.Scrolled? ==> frame.upload == if |lineBuffer| == 0 then 1 else LINE_SIZE
    {
      count := count + 1;
      if framebufferObjects {
        var upload := if |lineBuffer| > 0 then |lineBuffer| else 1;
        frame := Scrolled(upload, count % 2, 1 - count % 2, count % 2);
      } else {
        frame := Static;
      }
    }
  }
}
