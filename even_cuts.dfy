/**
  The EvenCuts planner object: its phase, spacing s_x and move queue are
  fields that its methods update in place. HorizontalToVertical,
  HorizontalCut and VerticalCut are proved to perform the CutPath transitions
  ToVertical, HorizontalCut and VerticalCut; EvenCutsStep performs
  CutPath.Refill and Move performs CutPath.Step. The second half
  models three source lines as they are written, next to the intended
  behaviour that the class implements.
*/
module EvenCutsPlanner {
  import opened Cake
  import opened CutPath

  class EvenCuts {
    var phase: Phase
    const n: nat
    const width: real
    const length: real
    var sx: real
    const sy: real
    var moveQueue: seq<Point>
    const sneak: SneakPath

    /** The fixed part of the planner. */
    function Config(): Settings
    {
      Settings(width, length, sy, sneak)
    }

    /** The part of the planner that its methods change. */
    function State(): Plan
      reads this
    {
      Plan(phase, sx, moveQueue)
    }

    /**
      A planner for `requests` requests on a cake of the given size, with
      slice spacings s_x and s_y (W / sqrt(n) and L / sqrt(n) in the game).
    */
    constructor (requests: nat, cakeWidth: real, cakeLen: real, sx: real, sy: real, sneak: SneakPath)
      ensures n == requests && width == cakeWidth && length == cakeLen && this.sy == sy
      ensures forall a, b, w, l :: this.sneak(a, b, w, l) == sneak(a, b, w, l)
      ensures State() == Start(sx)
    {
      phase := Horizontal;
      n := requests;
      width := cakeWidth;
      length := cakeLen;
      this.sx := sx;
      this.sy := sy;
      this.sneak := sneak;
      moveQueue := [];
    }

    method HorizontalToVertical(pos: Point)
      modifies this
      ensures State() == CutPath.ToVertical(Config(), old(State()), pos)
    {
      phase := Vertical;
      if pos.x != 0.0 {
        sx := 0.0 - sx;
      }
      moveQueue := moveQueue + sneak(pos, Point(pos.x + sx, length), width, length);
      moveQueue := moveQueue + [Point(pos.x + sx, 0.0)];
    }

    method HorizontalCut(pos: Point)
      modifies this
      ensures State() == CutPath.HorizontalCut(Config(), old(State()), pos)
    {
      moveQueue := moveQueue + sneak(pos, Point(pos.x, pos.y + sy), width, length);
      var opposite;
      if pos.x == 0.0 {
        opposite := width;
      } else {
        opposite := 0.0;
      }
      moveQueue := moveQueue + [Point(opposite, pos.y + sy)];
    }

    method VerticalCut(pos: Point)
      modifies this
      ensures State() == CutPath.VerticalCut(Config(), old(State()), pos)
    {
      moveQueue := moveQueue + sneak(pos, Point(pos.x + sx, pos.y), width, length);
      var opposite;
      if pos.y == 0.0 {
        opposite := length;
      } else {
        opposite := 0.0;
      }
      moveQueue := moveQueue + [Point(pos.x + sx, opposite)];
    }

    /** even_cuts: queue the next slice's moves, or change phase. */
    method EvenCutsStep(pos: Point)
      modifies this
      ensures State() == Refill(Config(), old(State()), pos)
    {
      if phase == Horizontal {
        if pos.y + sy < length {
          HorizontalCut(pos);
        } else {
          HorizontalToVertical(pos);
        }
      } else {
        if 0.01 <= pos.x + sx < width {
          VerticalCut(pos);
        } else {
          phase := Done;
        }
      }
    }

    /** move: the move for turn `turnNumber` with the knife at `curPos`; None once exhausted. */
    method Move(turnNumber: int, curPos: Point) returns (m: Option<Action>)
      modifies this
      ensures (State(), m) == Step(Config(), old(State()), turnNumber, curPos)
    {
      if turnNumber == 1 {
        return Some(Init(Point(0.01, 0.0)));
      }
      if turnNumber == 2 {
        moveQueue := moveQueue + [Point(0.0, sy)];
        moveQueue := moveQueue + [Point(width, sy)];
        assert moveQueue == old(moveQueue) + [Point(0.0, sy), Point(width, sy)];
      } else if |moveQueue| == 0 && phase != Done {
        EvenCutsStep(curPos);
      }
      if |moveQueue| > 0 {
        var next := moveQueue[0];
        moveQueue := moveQueue[1..];
        return Some(Cut(next));
      }
      return None;
    }
  }

  // ---------------------------------------------------------------------
  // Three source lines as written

  /** The exceptions Python raises at the three lines. */
  datatype PyError = NameError(name: string) | TypeError(message: string)

  /** A Python computation: a value, or an exception. */
  datatype Outcome<T> = Ok(value: T) | Raised(error: PyError)

  /** players/g2/even_cuts.py:9 as written: `num_requests` is not defined, so the constructor raises. */
  function SliceCountAsWritten(requests: nat): (r: Outcome<nat>)
  {
    Raised(NameError("num_requests"))
  }

  /** players/g2/even_cuts.py:37 as written: the end point names the undefined `new_x`. */
  function VerticalCutAsWritten(s: Settings, p: Plan, pos: Point): (r: Outcome<Plan>)
  {
    Raised(NameError("new_x"))
  }

  /**
    players/g2/even_cuts.py:49 as written: `pos[0] + s_x in range(0.01, W)`;
    range() refuses the float bound 0.01, so the test raises on every input.
  */
  function InVerticalRangeAsWritten(x: real, width: real): (r: Outcome<bool>)
  {
    Raised(TypeError("'float' object cannot be interpreted as an integer"))
  }

  /** even_cuts with lines 37 and 49 as written. */
  function RefillAsWritten(s: Settings, p: Plan, pos: Point): (r: Outcome<Plan>)
  {
    if p.phase == Horizontal then Ok(Refill(s, p, pos))
    else
      match InVerticalRangeAsWritten(pos.x + p.sx, s.width)
      case Raised(e) => Raised(e)
      case Ok(inRange) => if inRange then VerticalCutAsWritten(s, p, pos) else Ok(p.(phase := Done))
  }

  /** Four requests: as written the constructor raises instead of recording n = 4. */
  lemma SliceCountFinding()
    ensures SliceCountAsWritten(4) == Raised(NameError("num_requests"))
  {
  }

  /**
    A vertical slice from (20, 0) with s_x = 10 on a 40 x 20 cake: as written
    it raises; intended, it cuts from (30, 0) up to (30, 20).
  */
  lemma VerticalCutFinding(sneak: SneakPath)
    ensures VerticalCutAsWritten(Settings(40.0, 20.0, 10.0, sneak), Plan(Vertical, 10.0, []), Point(20.0, 0.0)).Raised?
    ensures Last(Refill(Settings(40.0, 20.0, 10.0, sneak), Plan(Vertical, 10.0, []), Point(20.0, 0.0)).queue)
         == Point(30.0, 20.0)
  {
  }

  /**
    As written, the first refill after the switch to the vertical phase raises:
    the planner never makes a vertical cut after the first and never reaches
    DONE. Intended, x = 30 on a 40-wide cake is in range and the cut is made.
  */
  lemma VerticalRangeFinding(s: Settings, p: Plan, pos: Point)
    requires p.phase == Vertical
    ensures RefillAsWritten(s, p, pos).Raised?
    ensures InVerticalRange(30.0, 40.0) && InVerticalRangeAsWritten(30.0, 40.0).Raised?
  {
  }
}
