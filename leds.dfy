/** The LED colour buffer `leds[MAX_STRIPS][MAX_LEDS]` holds FastLED `CRGB`
    cells. The model keeps, per cell, how its colour was last produced:
    black (the zero-initialised global), an `CHSV(hue, sat, val)`
    assignment, or `fadeToBlackBy(amount)` applied to an earlier colour.
    FastLED's HSV-to-RGB conversion and its fade arithmetic are not modelled. */
module Leds {

  datatype Pixel = Black | Hsv(hue: int, sat: int, val: int) | FadedBy(from: Pixel, amount: int)

  /** The fade `processBeat` applies each tick without a beat, out of 256. */
  const FADE_AMOUNT := 20

  const FULL := 255
}
