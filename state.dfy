/** The turtle's pen snapshot. */
module States {
  import opened Drawing

  /** One immutable pen snapshot, with the fields in the order of the
      constructor's arguments: position, heading, step length, turn angle. */
  datatype State = State(x: real, y: real, angle: real, length: real, turningAngle: real)
  {
    function GetX(): real { x }
    function GetY(): real { y }
    function GetAngle(): real { angle }
    function GetLength(): real { length }
    function GetTurningAngle(): real { turningAngle }

    /** The line that draw(c, xp, yp) hands to the canvas. */
    function LineTo(xp: real, yp: real): Line
    {
      Line(JavaIntCast(x), JavaIntCast(y), JavaIntCast(xp), JavaIntCast(yp))
    }

    /** Draws one line from this snapshot's own position to (xp, yp). */
    method Draw(c: Canvas, xp: real, yp: real)
      modifies c
      ensures c.lines == old(c.lines) + [LineTo(xp, yp)]
    {
      var l := LineTo(xp, yp);
      c.DrawLine(l.x1, l.y1, l.x2, l.y2);
    }
  }

  /** Each getter returns the constructor argument of the same position. */
  lemma GettersReturnConstructorArguments(x: real, y: real, a: real, d: real, t: real)
    ensures State(x, y, a, d, t).GetX() == x
    ensures State(x, y, a, d, t).GetY() == y
    ensures State(x, y, a, d, t).GetAngle() == a
    ensures State(x, y, a, d, t).GetLength() == d
    ensures State(x, y, a, d, t).GetTurningAngle() == t
  {
  }
}
