/** The colour transfer function of the waterfall's fragment shader: the red
    channel of a texel (a scaled spectral value) is mapped to an RGBA colour,
    piecewise linearly between four anchor colours. The model keeps the
    shader's own breakpoints and divisors, including the places where they do
    not line up (the jump at 0.1 and the overshoot at 1.0). */
module Palette {

  datatype Color = Color(r: real, g: real, b: real, a: real)

  const COLOR1: Color := Color(0.1, 0.1, 1.1, 1.0)
  const COLOR2: Color := Color(0.1, 1.0, 0.1, 1.0)
  const COLOR3: Color := Color(0.1, 1.0, 1.0, 1.0)
  const COLOR4: Color := Color(1.0, 1.0, 1.0, 1.0)
  const BLACK: Color := Color(0.0, 0.0, 0.0, 1.0)

  /** GLSL mix: linear interpolation x*(1-t) + y*t, component by component
      (t is not clamped). */
  function Mix(x: Color, y: Color, t: real): (c: Color)
    ensures t == 0.0 ==> c == x
    ensures t == 1.0 ==> c == y
    ensures x.a == y.a ==> c.a == x.a
  {
    Color(x.r * (1.0 - t) + y.r * t,
          x.g * (1.0 - t) + y.g * t,
          x.b * (1.0 - t) + y.b * t,
          x.a * (1.0 - t) + y.a * t)
  }

  /** The shader's if/else chain on the sampled value. */
  function ColorMap(v: real): (c: Color)
    ensures c.a == 1.0
  {
    if v > 1.0 then COLOR4
    else if v > 0.66 then Mix(COLOR3, COLOR4, (v - 0.66) / 0.33)
    else if v > 0.33 then Mix(COLOR2, COLOR3, (v - 0.33) / 0.33)
    else if v > 0.1 then Mix(COLOR1, COLOR2, v / 0.33)
    else BLACK
  }

  function Abs(x: real): real
  {
    if x < 0.0 then -x else x
  }

  /** Largest per-channel difference between two colours. */
  function Distance(x: Color, y: Color): (d: real)
    ensures d >= 0.0
    ensures d == 0.0 <==> x == y
  {
    var dr := Abs(x.r - y.r);
    var dg := Abs(x.g - y.g);
    var db := Abs(x.b - y.b);
    var da := Abs(x.a - y.a);
    var m1 := if dr < dg then dg else dr;
    var m2 := if db < da then da else db;
    if m1 < m2 then m2 else m1
  }

  /** Anything above 1.0 is the top anchor colour. */
  lemma AboveOneIsTopColor(v: real)
    requires v > 1.0
    ensures ColorMap(v) == COLOR4
  {
  }

  /** Anything at or below 0.1, negative values included, is opaque black. */
  lemma AtMostPointOneIsBlack(v: real)
    requires v <= 0.1
    ensures ColorMap(v) == BLACK
  {
  }

  /** Each band hits its anchors: the 0.1-0.33 band ends on color2 at 0.33,
      the 0.33-0.66 band ends on color3 at 0.66. */
  lemma AnchorsAtInteriorBreakpoints()
    ensures ColorMap(0.33) == COLOR2
    ensures ColorMap(0.66) == COLOR3
  {
  }

  /** Continuity at 0.33: within the two neighbouring bands the colour moves
      by at most 4 per unit of input away from ColorMap(0.33). */
  lemma ContinuousAtOneThird(v: real)
    requires 0.1 < v <= 0.66
    ensures Distance(ColorMap(v), ColorMap(0.33)) <= 4.0 * Abs(v - 0.33)
  {
  }

  /** Continuity at 0.66: within the two neighbouring bands the colour moves
      by at most 3 per unit of input away from ColorMap(0.66). */
  lemma ContinuousAtTwoThirds(v: real)
    requires 0.33 < v <= 1.0
    ensures Distance(ColorMap(v), ColorMap(0.66)) <= 3.0 * Abs(v - 0.66)
  {
  }

  /** The map jumps at 0.1: every value just above it is far from black,
      because the lowest band interpolates with v / 0.33 rather than from 0.1. */
  lemma JumpAtPointOne(v: real)
    requires 0.1 < v <= 0.33
    ensures ColorMap(0.1) == BLACK
    ensures Distance(ColorMap(v), BLACK) > 0.3
  {
  }

  /** At exactly 1.0 the top band overshoots color4 in red, since
      (1.0 - 0.66) / 0.33 > 1; so ColorMap(1.0) differs from the colour of
      every larger value. */
  lemma OvershootAtOne(w: real)
    requires w > 1.0
    ensures ColorMap(1.0).r > 1.0
    ensures ColorMap(1.0) != ColorMap(w)
  {
  }
}
