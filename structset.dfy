/*
 * The two records the interpreter passes around (structset.h): the command a
 * valid line is stored as, and the graphics state the drawing loop mutates.
 */
module StructSet {

  /** A stored command: the name token and the value token of its line, both as
      read (the value keeps the line's trailing newline). */
  datatype Command = Command(name: string, value: string)

  /** The graphics state as a value: position, heading in degrees, colours and
      the character plotted along lines. */
  datatype State = State(x: real, y: real, angle: real, fgColour: int, bgColour: int, pattern: char)

  /** GraphicsState: the record draw() owns and every command updates in place. */
  class GraphicsState {
    var x: real
    var y: real
    var angle: real
    var fgColour: int
    var bgColour: int
    var pattern: char

    /** The current contents of the record. */
    function Snapshot(): State
      reads this
    {
      State(x, y, angle, fgColour, bgColour, pattern)
    }

    /** Allocation with every field given, as draw() fills the record before its loop. */
    constructor (s: State)
      ensures Snapshot() == s
    {
      x, y, angle := s.x, s.y, s.angle;
      fgColour, bgColour, pattern := s.fgColour, s.bgColour, s.pattern;
    }
  }
}
