/** The drawing surface as the L-system sees it: integer line coordinates,
    Java's narrowing conversion from double to int, and a canvas that is
    known only through the lines drawn on it. */
module Drawing {

  /** The range of a Java int. */
  const IntMin: int := -0x8000_0000
  const IntMax: int := 0x7FFF_FFFF

  /** The arguments of one drawLine(x1, y1, x2, y2) call. */
  datatype Line = Line(x1: int, y1: int, x2: int, y2: int)

  /** Rounding toward zero, the first half of Java's (int) on a double. */
  function TruncateTowardZero(r: real): (t: int)
    ensures 0.0 <= r ==> 0 <= t && t as real <= r < t as real + 1.0
    ensures r < 0.0 ==> t <= 0 && t as real - 1.0 < r <= t as real
  {
    if r >= 0.0 then r.Floor else -((-r).Floor)
  }

  /** Java's (int) applied to a double: round toward zero, and saturate at
      the bounds of int when the rounded value does not fit. */
  function JavaIntCast(r: real): (n: int)
    ensures IntMin <= n <= IntMax
    ensures (IntMin - 1) as real < r < (IntMax + 1) as real ==> n == TruncateTowardZero(r)
    ensures r <= (IntMin - 1) as real ==> n == IntMin
    ensures (IntMax + 1) as real <= r ==> n == IntMax
  {
    var t := TruncateTowardZero(r);
    if t < IntMin then IntMin else if t > IntMax then IntMax else t
  }

  /** The canvas, recorded as the sequence of lines drawn on it, oldest first. */
  class Canvas {
    var lines: seq<Line>

    constructor ()
      ensures lines == []
    {
      lines := [];
    }

    method DrawLine(x1: int, y1: int, x2: int, y2: int)
      modifies this
      ensures lines == old(lines) + [Line(x1, y1, x2, y2)]
    {
      lines := lines + [Line(x1, y1, x2, y2)];
    }
  }
}
