// Definitions of the gnublin library that several driver models share.
// gnublin.h, which declares them, is not part of this model; the values are
// the direction strings the drivers compare `std::string` arguments with and
// the two pin levels, which the drivers also use as 0 and 1.
module Gnublin {

  /** The direction strings of the pin-mode API. */
  const OUTPUT: string := "out"
  const INPUT: string := "in"

  /** The pin levels of digitalWrite. */
  const LOW: int := 0
  const HIGH: int := 1
}
