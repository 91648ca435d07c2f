/** Constants of the demo and the math-library functions it calls. */
module Defs {

  /** Window size in pixels (SCREENW, SCREENH). */
  const ScreenWidth: int := 800
  const ScreenHeight: int := 600

  /** The source's PI macro: the literal 3.14, not the true value of pi. */
  const Pi: real := 3.14

  /** Number of vertices of the circle (CIRCLERESOLUTION). */
  const CircleResolution: nat := 100

  /** The C math library's sin and cos. Their values are not modelled: every result
      of this model holds for whatever pair of functions is supplied here. */
  datatype Trig = Trig(sin: real -> real, cos: real -> real)
}
