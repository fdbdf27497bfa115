/** The named terminal colours of the drawing library that the dashboard uses.
    Only the colour's identity matters to the model; how a terminal shows it
    does not. */
module Palette {

  datatype Color =
    | Black | Red | Green | Yellow | Blue | Magenta | Cyan | White
    | DarkGray | LightRed | LightGreen | LightYellow | LightBlue
    | LightMagenta | LightCyan | Gray
}
