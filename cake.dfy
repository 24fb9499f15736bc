/**
  Shared vocabulary of the cake-cutting game: positions on the cake, pieces,
  the action a player returns each turn, and Python's float modulo.
*/
module Cake {

  /** A position on the cake: x runs along the width, y along the length. */
  datatype Point = Point(x: real, y: real)

  /** A piece of cake: its area and the corners of its outline. */
  datatype Piece = Piece(area: real, outline: seq<Point>)

  /**
    What a player returns for a turn: the game's (INIT, point), (CUT, point)
    and (ASSIGN, assignment) pairs. An assignment holds, per request, a piece
    index or -1 for "unassigned".
  */
  datatype Action = Init(start: Point) | Cut(to: Point) | Assign(assignment: seq<int>)

  /** A Python value that may be `None`. */
  datatype Option<T> = None | Some(value: T)

  /** The point lies on the closed rectangle [0, width] x [0, length]. */
  predicate OnCake(p: Point, width: real, length: real)
  {
    0.0 <= p.x <= width && 0.0 <= p.y <= length
  }

  /** The point is on the cake's boundary, where the game lets the knife go. */
  predicate OnEdge(p: Point, width: real, length: real)
  {
    OnCake(p, width, length) && (p.x == 0.0 || p.x == width || p.y == 0.0 || p.y == length)
  }

  /** Python's `a // b` on floats: the floor of the true quotient. */
  function FloorDiv(a: real, b: real): int
    requires b != 0.0
  {
    (a / b).Floor
  }

  /**
    Python's `a % b` on floats: the remainder of floored division, which
    takes the sign of the divisor (Python raises on a zero divisor).
  */
  function FloorMod(a: real, b: real): (r: real)
    requires b != 0.0
    ensures a == FloorDiv(a, b) as real * b + r
    ensures b > 0.0 ==> 0.0 <= r < b
    ensures b < 0.0 ==> b < r <= 0.0
  {
    FloorModBounds(a, b);
    a - FloorDiv(a, b) as real * b
  }

  lemma FloorModBounds(a: real, b: real)
    requires b != 0.0
    ensures b > 0.0 ==> 0.0 <= a - FloorDiv(a, b) as real * b < b
    ensures b < 0.0 ==> b < a - FloorDiv(a, b) as real * b <= 0.0
  {
    var t := a / b;
    assert t * b == a;
    ScaleBetween(FloorDiv(a, b) as real, t, a, b);
  }

  /** If q <= t < q + 1 and t * b == a, then a - q * b lies between 0 and b. */
  lemma ScaleBetween(q: real, t: real, a: real, b: real)
    requires q <= t < q + 1.0
    requires t * b == a
    ensures b > 0.0 ==> 0.0 <= a - q * b < b
    ensures b < 0.0 ==> b < a - q * b <= 0.0
  {
    if b > 0.0 {
      ScalePositive(q, t, a, b);
    } else if b < 0.0 {
      assert t * -b == -a;
      ScalePositive(q, t, -a, -b);
      assert -a - q * -b == -(a - q * b);
    }
  }

  /** The case b > 0 of ScaleBetween. */
  lemma ScalePositive(q: real, t: real, a: real, b: real)
    requires q <= t < q + 1.0
    requires t * b == a && b > 0.0
    ensures 0.0 <= a - q * b < b
  {
    var d := t - q;
    assert a == q * b + d * b;
    assert 0.0 <= d * b < b;
  }
}
