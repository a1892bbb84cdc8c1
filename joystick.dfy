/**
 * firmware/src/joystick.rs: the last joystick sample. `update` overwrites all
 * three fields with the sample as given; the declared axis bounds are not
 * applied to it.
 */
module Joystick {

  /** The analog range of each axis (a 10-bit ADC reading). */
  const JOYSTICK_X_MIN: bv16 := 0
  const JOYSTICK_X_MAX: bv16 := 1023
  const JOYSTICK_Y_MIN: bv16 := 0
  const JOYSTICK_Y_MAX: bv16 := 1023

  /** A reading lies in the declared range of both axes. */
  predicate InRange(x: bv16, y: bv16)
  {
    JOYSTICK_X_MIN <= x <= JOYSTICK_X_MAX && JOYSTICK_Y_MIN <= y <= JOYSTICK_Y_MAX
  }

  /**
   * The declared ranges are non-empty and a centred stick lies inside them,
   * while a `u16` sample can lie outside them (and `update` still stores it).
   */
  lemma RangesWellFormed()
    ensures JOYSTICK_X_MIN <= JOYSTICK_X_MAX && JOYSTICK_Y_MIN <= JOYSTICK_Y_MAX
    ensures InRange(512, 512)
    ensures !InRange(JOYSTICK_X_MAX + 1, 0) && !InRange(0, JOYSTICK_Y_MAX + 1)
  {
  }

  class Joystick {
    var x: bv16
    var y: bv16
    var pressed: bool

    /** `init`: centred at the origin and released. */
    constructor Init()
      ensures x == 0 && y == 0 && !pressed
      ensures InRange(x, y)
    {
      x := 0;
      y := 0;
      pressed := false;
    }

    /**
     * `update`: the new state is the sample, whatever the old state was (so
     * of two updates only the second one counts), and whether or not the
     * sample lies in the declared ranges.
     */
    method Update(x: bv16, y: bv16, pressed: bool)
      modifies this
      ensures this.x == x && this.y == y && this.pressed == pressed
    {
      this.x := x;
      this.y := y;
      this.pressed := pressed;
    }
  }
}
