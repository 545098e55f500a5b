/** The few Arduino core constants the drivers compare against. HIGH and LOW are
    the core's logic levels; the pin-mode and interrupt-mode codes come from the
    ESP32 Arduino core header, which is not part of this model, so they are
    declared without a value and nothing proved here depends on what they are. */
module Arduino {
  const LOW: bv8 := 0
  const HIGH: bv8 := 1

  /** pinMode() code for a plain input. */
  const INPUT: bv8
  /** attachInterrupt() trigger codes. */
  const CHANGE: bv8
  const FALLING: bv8
}
