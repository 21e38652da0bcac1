/** The four diagonal headings both bounce variants move the sprite in,
    and the sign each gives to the x and y steps (y grows downwards). */
module Compass {

  datatype Direction = Southeast | Northeast | Northwest | Southwest

  /** Sign of the horizontal step: +1 towards the east edge. */
  function DX(d: Direction): int {
    match d
    case Southeast | Northeast => 1
    case Northwest | Southwest => -1
  }

  /** Sign of the vertical step: +1 towards the south (bottom) edge. */
  function DY(d: Direction): int {
    match d
    case Southeast | Southwest => 1
    case Northeast | Northwest => -1
  }
}
