/**
 * The random parameter sampler. The source draws from Math.random(); here each
 * draw is supplied as a real `r`, which Math.random() keeps in [0, 1).
 */
module Sampler {

  /** A value Math.random() can return. */
  predicate IsUnitDraw(r: real)
  {
    0.0 <= r < 1.0
  }

  /** getRandom(min, max): the draw scaled onto [min, max). */
  function GetRandom(min: real, max: real, r: real): (v: real)
    ensures IsUnitDraw(r) && min < max ==> min <= v < max
  {
    var width := max - min;
    assert IsUnitDraw(r) && min < max ==> 0.0 <= r * width < width by {
      if IsUnitDraw(r) && min < max {
        ScaledDrawBelowWidth(r, width);
      }
    }
    r * width + min
  }

  /** A unit draw scaled by a positive width stays within [0, width). */
  lemma ScaledDrawBelowWidth(r: real, w: real)
    requires IsUnitDraw(r) && w > 0.0
    ensures 0.0 <= r * w
    ensures r * w < w
  {
  }

  /**
   * getBool(): the coin flip. On a unit draw it is true on (0.5, 1) and false
   * on [0, 0.5], two halves of equal length.
   */
  function GetBool(r: real): (b: bool)
    ensures IsUnitDraw(r) ==> (b <==> 0.5 < r < 1.0)
    ensures IsUnitDraw(r) ==> (!b <==> 0.0 <= r <= 0.5)
  {
    r > 0.5
  }

  /**
   * The coin is fair: reflecting a draw about one half (r to 1 - r, which maps
   * the open unit interval onto itself) swaps the outcome, except at the
   * single point 0.5.
   */
  lemma GetBoolFair(r: real)
    requires 0.0 < r < 1.0 && r != 0.5
    ensures IsUnitDraw(1.0 - r)
    ensures GetBool(r) != GetBool(1.0 - r)
  {
  }

  /**
   * The draws one copy may consume, one per effect. A draw whose effect is
   * switched off is never read.
   */
  datatype Draws = Draws(
    brightness: real,
    contrast: real,
    saturation: real,
    rotation: real,
    zoom: real,
    mirror: real,
    volume: real,
    speed: real,
    pitch: real)

  predicate ValidDraws(d: Draws)
  {
    && IsUnitDraw(d.brightness)
    && IsUnitDraw(d.contrast)
    && IsUnitDraw(d.saturation)
    && IsUnitDraw(d.rotation)
    && IsUnitDraw(d.zoom)
    && IsUnitDraw(d.mirror)
    && IsUnitDraw(d.volume)
    && IsUnitDraw(d.speed)
    && IsUnitDraw(d.pitch)
  }
}
