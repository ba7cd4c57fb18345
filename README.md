# Waterfall view: a Dafny model

This project models the state of `WaterfallView`, the scrolling spectrogram
("waterfall") widget of the Invasive decoding client. All OpenGL and QPainter
calls are stripped away. What remains is a small single-threaded state
machine. It has these parts:

- **Spectral analysis** (`Spectrum`). `updateAudio` cuts a PCM16 chunk into
  whole 1024-sample windows and drops the tail. It weights each window sample
  by sample and runs the real DFT `rdft` on it. It divides every output by the
  chunk's byte count over 1024 and by the gain 20000. It keeps only the first
  512 values of the last window.
- **Event indicators** (`Indicator`). `detected` and `decorded` set their own
  brightness to 1.0. Each animation tick maps a brightness `b` to
  `max(b / 1.1, 0.2)`.
- **Counters**. Three setters store the decoded-packet count, the
  complete-packet count and the decode ratio verbatim.
- **Paint bookkeeping** (`Surfaces`). Every paint increments the paint
  counter. With framebuffer objects available, it writes surface
  `count % 2`, reads surface `1 - count % 2` as scroll history and presents
  surface `count % 2`. It uploads the spectral line, or a single placeholder
  value when there is no line yet.
- **Colour map** (`Palette`). The fragment shader maps a value to RGBA,
  piecewise linearly across four anchor colours.

The widget itself is the class `Waterfall.WaterfallView`. Its methods update
the fields the source updates. `UpdateAudio`, `Animate` and `PaintEvent` are
proved against `LineAfter`, `Decay` and `PlanFrame`. The triggers and setters
state their effect directly, and their one-field frames keep everything else.

Foreign code and the environment are parameters:

- The real DFT is a function value `transform`: `transform(w, k)` is output
  value `k` of the transform of window `w`. The Hann weight is a function
  value `weight` of the sample index. Both are given to the constructor.
- The GPU's framebuffer-object capability is the `framebufferObjects`
  argument of `PaintEvent`.
- An audio chunk is its byte count together with its 16-bit samples.

Where the code differs from what the component is evidently meant to do, the
model follows the code:

- The divisor is `byteCount / 1024`, not the number of windows processed. A
  window has 2048 bytes, so the divisor is about twice the window count
  (`Spectrum.DivisorCountsHalfWindows`).
- The kept line is the first 512 raw outputs of `rdft`, not magnitudes. No
  absolute value or square root is taken, so values may be negative.
- The colour map is continuous at 0.33 and 0.66 but not at 0.1 or at 1.0.
  Values just above 0.1 are far from black, because the lowest band uses
  `v / 0.33`. At exactly 1.0 the top band gives red `0.1 + 0.9 * 34/33 > 1`,
  so `ColorMap(1.0)` differs from `ColorMap(1.5)`.
- Both brightnesses start at 0.0, below the floor 0.2, until the first tick.
  A trigger followed by one tick gives `1/1.1`, not 1.0, because `animate`
  decays before it schedules the repaint.

## Model

| member | source | states |
|---|---|---|
| `Spectrum.WindowWithinChunk` | client/waterfallview.cpp:33-36 | the loop bound `byteCount/1024/2` equals `byteCount/2048`, and every sample index `1024*i + j` a window reads lies below `byteCount/2` |
| `Spectrum.DivisorCountsHalfWindows` | client/waterfallview.cpp:43 | the divisor `byteCount/1024` lies between twice the window count and twice the window count plus one, and is at least 2 whenever a window is processed |
| `Spectrum.LineAfter` | client/waterfallview.cpp:30-47 | with no whole window the line is unchanged; otherwise it has 512 values, and each, multiplied by the divisor and by 20000, is the transform output of the last window |
| `Spectrum.ShortChunkKeepsLine` | client/waterfallview.cpp:33 | a chunk of fewer than 2048 bytes leaves the line as it was |
| `Spectrum.LastWindowOnly` | client/waterfallview.cpp:42-45 | two chunks of equal length whose last windows agree give the same line, whatever their earlier windows and the previous line held |
| `Waterfall.WaterfallView.constructor` | client/waterfallview.cpp:13-21 | the counter, packet counts, ratio and both brightnesses start at zero and the line is empty |
| `Waterfall.WaterfallView.Rdft` | client/waterfallview.cpp:39-41 | the in-place transform replaces the window by its transform, value for value |
| `Waterfall.WaterfallView.UpdateAudio` | client/waterfallview.cpp:30-47 | the nested loops leave the line equal to `LineAfter` of the old line and the chunk, and change no other field |
| `Waterfall.WaterfallView.Detected` | client/waterfallview.cpp:49-52 | sets the detected brightness to 1.0 and changes nothing else |
| `Waterfall.WaterfallView.Decorded` | client/waterfallview.cpp:54-57 | sets the decoded brightness to 1.0 and changes nothing else |
| `Waterfall.WaterfallView.SetDecodedPackets` | client/waterfallview.cpp:59-62 | stores its argument verbatim and changes nothing else |
| `Waterfall.WaterfallView.SetCompletePackets` | client/waterfallview.cpp:64-67 | stores its argument verbatim and changes nothing else |
| `Waterfall.WaterfallView.SetDecodeRatio` | client/waterfallview.cpp:69-72 | stores its argument verbatim and changes nothing else |
| `Waterfall.WaterfallView.Animate` | client/waterfallview.cpp:74-81 | each brightness becomes `Decay` of its own old value, independently of the other; both end at least 0.2 and at most 1.0 |
| `Waterfall.WaterfallView.PaintEvent` | client/waterfallview.cpp:83-164 | the counter grows by exactly one, with or without framebuffer objects; the frame is the one `PlanFrame` gives for the new counter; its upload is 1 value while there is no line and 512 once there is |
| `Surfaces.PlanFrame` | client/waterfallview.cpp:94-150 | surfaces are used only with framebuffer objects; then the target is `count % 2`, target and history are the two different surfaces, the presented surface is the target, and the upload is the line length when the line is non-empty and exactly 1 when it is empty, never 0 |
| `Surfaces.ConsecutivePaintsAlternate` | client/waterfallview.cpp:111-129 | consecutive paints write different surfaces, and each paint reads as history the surface the previous paint wrote |
| `Indicator.Max` | client/waterfallview.cpp:77 | `qMax` returns one of its arguments and it is at least both |
| `Indicator.Decay` | client/waterfallview.cpp:76-77 | a tick gives at least 0.2 and at least `b/1.1`, and it gives exactly one of the two |
| `Indicator.DecayNeverIncreases` | client/waterfallview.cpp:76-79 | a brightness at or above 0.2 never grows on a tick |
| `Indicator.DecayKeepsUnitRange` | client/waterfallview.cpp:76-79 | a brightness in [0, 1] lands in [0.2, 1] after a tick |
| `Indicator.FirstTickFromRest` | client/waterfallview.cpp:19-20 | the initial brightness 0.0 becomes exactly 0.2 on the first tick |
| `Indicator.TickAfterTrigger` | client/waterfallview.cpp:49-52 | a tick right after a trigger gives `1/1.1`, already below 1.0 |
| `Indicator.TicksFromFull` | client/waterfallview.cpp:74-79 | from 1.0, n ticks without retrigger give `max(1/1.1^n, 0.2)` |
| `Indicator.AboveFloorForSixteenTicks` | client/waterfallview.cpp:74-79 | for up to 16 ticks after a trigger the brightness is still above 0.2 |
| `Indicator.SettledFromSeventeenTicks` | client/waterfallview.cpp:74-79 | from the 17th tick after a trigger on the brightness is exactly 0.2 |
| `Indicator.TicksSettle` | client/waterfallview.cpp:74-79 | without retrigger a brightness in [0.2, 1] stays in that range and never increases from tick to tick |
| `Palette.Mix` | client/waterfallview.cpp:301-303 | GLSL `mix` gives its first colour at 0, its second at 1, and keeps a common alpha |
| `Palette.ColorMap` | client/waterfallview.cpp:295-304 | every value maps to a colour with alpha 1 |
| `Palette.AboveOneIsTopColor` | client/waterfallview.cpp:300 | values above 1.0 map to color4 (1, 1, 1, 1) |
| `Palette.AtMostPointOneIsBlack` | client/waterfallview.cpp:304 | values at or below 0.1, negatives included, map to opaque black |
| `Palette.AnchorsAtInteriorBreakpoints` | client/waterfallview.cpp:302-303 | 0.33 maps to color2 and 0.66 to color3 |
| `Palette.ContinuousAtOneThird` | client/waterfallview.cpp:302-303 | on (0.1, 0.66] the colour is within `4 * |v - 0.33|` of the colour at 0.33, so the map is continuous there |
| `Palette.ContinuousAtTwoThirds` | client/waterfallview.cpp:301-302 | on (0.33, 1.0] the colour is within `3 * |v - 0.66|` of the colour at 0.66, so the map is continuous there |
| `Palette.JumpAtPointOne` | client/waterfallview.cpp:303-304 | 0.1 maps to black, yet every value in (0.1, 0.33] lies more than 0.3 away from black |
| `Palette.OvershootAtOne` | client/waterfallview.cpp:300-301 | at exactly 1.0 red exceeds 1, so the colour at 1.0 differs from that of every larger value |

## Left out

- GPU work: texture, framebuffer and shader creation in `initializeGL` and `setupShader`, quad drawing, and the `+0.01` scroll offset. Only the choice of surface indices and the upload length is modelled.
- The QPainter overlay: gradient, text, ellipses, the `255 * brightness` alpha and the two-decimal ratio text. These are drawing and formatting only.
- The timer and signal/slot wiring, and `update()` scheduling. These are event-loop plumbing.
- The body of `rdft` and its lazily filled static tables. This is foreign code, so the transform is a constructor parameter. Properties that depend on its body are not modelled: a silent chunk giving a near-zero line, and a sine wave peaking at its own bin.
- The Hann weight `0.5 * (1 - cos(2πj/1024))`. It is transcendental, so the weight is a constructor parameter.
- The `(short*)` reinterpretation of the byte buffer, which depends on host byte order. A chunk is given as its byte count and its `byteCount / 2` samples.
- Floating point. `double` and `float` arithmetic (the spectrum vector is `float`) and GLSL `float` constants are exact reals here, so rounding is not modelled.
- `count_` is a C++ `int`; here it is a `nat`, so overflow after 2^31 paints is not modelled. The packet counts are unbounded integers, which is harmless because they are only stored.
- The GPU capability is read at every paint in the source; here it is the paint's argument. In the source, `initializeGL` returns early without that capability; this is not modelled.
- client/waterfallview.h is not part of this model. It declares `updateAudioSpectrum` and `setDecordedPackets`, which the .cpp does not define, and omits the brightness fields; the model follows the .cpp.
