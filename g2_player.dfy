/**
  The G2 player: its fixed sawtooth cut list, its zig-zag "cut to the other
  side, five units further along" rule, the hill-climbing behaviour built on
  that rule, and its per-turn `move`, which drives an EvenCuts planner and
  hands over to an assignment strategy once the planner is exhausted.
*/
module Player {
  import opened Cake
  import opened CutPath
  import opened EvenCutsPlanner

  /** An assignment strategy called as `f(polygons, requests, tolerance)`; its body is not part of this model. */
  type AssignStrategy = (seq<Piece>, seq<real>, int) -> seq<int>

  /** An assignment strategy called as `f(polygons, requests)`. */
  type PairAssignStrategy = (seq<Piece>, seq<real>) -> seq<int>

  /** The vertical distance between consecutive sawtooth cuts. */
  const SliceHeight: real := 1.6

  /** How far along the length each zig-zag cut advances. */
  const Advance: real := 5.0

  // ---------------------------------------------------------------------
  // sawtooth_cut

  /**
    The i-th point of the sawtooth: pair k = i / 2 lies on y = 1.6 k and
    runs left to right for even k and right to left for odd k.
  */
  function SawtoothPoint(width: real, i: nat): Point
  {
    var k := i / 2;
    var atLeft := (i % 2 == 0) == (k % 2 == 0);
    Point(if atLeft then 0.0 else width, SliceHeight * k as real)
  }

  /** The two pairs that pass j of the sawtooth loop adds, at rows 2j and 2j + 1. */
  lemma SawtoothRows(width: real, j: nat)
    ensures SawtoothPoint(width, 4 * j) == Point(0.0, SliceHeight * (2 * j) as real)
    ensures SawtoothPoint(width, 4 * j + 1) == Point(width, SliceHeight * (2 * j) as real)
    ensures SawtoothPoint(width, 4 * j + 2) == Point(width, SliceHeight * (2 * j + 1) as real)
    ensures SawtoothPoint(width, 4 * j + 3) == Point(0.0, SliceHeight * (2 * j + 1) as real)
  {
    assert (4 * j) / 2 == 2 * j && (4 * j + 1) / 2 == 2 * j;
    assert (4 * j + 2) / 2 == 2 * j + 1 && (4 * j + 3) / 2 == 2 * j + 1;
    assert (4 * j) % 2 == 0 && (4 * j + 1) % 2 == 1 && (4 * j + 2) % 2 == 0 && (4 * j + 3) % 2 == 1;
    assert (2 * j) % 2 == 0 && (2 * j + 1) % 2 == 1;
  }

  /** `cuts` is the start of the sawtooth, and all of it lies below the cake's length. */
  predicate SawtoothPrefix(cuts: seq<Point>, width: real, length: real)
  {
    forall i :: 0 <= i < |cuts| ==> cuts[i] == SawtoothPoint(width, i) && cuts[i].y < length
  }

  /** Appending the next pair, when it lies below the length, extends a sawtooth prefix. */
  lemma SawtoothAppend(cuts: seq<Point>, width: real, length: real, a: Point, b: Point)
    requires SawtoothPrefix(cuts, width, length)
    requires a == SawtoothPoint(width, |cuts|) && b == SawtoothPoint(width, |cuts| + 1) && a.y < length && b.y < length
    ensures SawtoothPrefix(cuts + [a, b], width, length)
  {
    var c := cuts + [a, b];
    forall i | 0 <= i < |c| ensures c[i] == SawtoothPoint(width, i) && c[i].y < length {
      if i < |cuts| {
        assert c[i] == cuts[i];
      }
    }
  }

  /**
    sawtooth_cut: pairs of edge points, one pair per height 0, 1.6, 3.2, ...
    below the cake's length, alternating direction. The source ignores its
    two arguments and reads the player's cake size; here the size is passed.
  */
  method SawtoothCut(cakeWidth: real, cakeLen: real) returns (cuts: seq<Point>)
    ensures |cuts| % 2 == 0
    ensures forall i :: 0 <= i < |cuts| ==> cuts[i] == SawtoothPoint(cakeWidth, i)
    ensures forall i :: 0 <= i < |cuts| ==>
              (cuts[i].x == 0.0 || cuts[i].x == cakeWidth) && 0.0 <= cuts[i].y < cakeLen
    // it stops at the first height that is off the cake
    ensures cakeLen <= SliceHeight * (|cuts| / 2) as real
  {
    var sliceHeight := 1.6;
    cuts := [];
    var currentY := 0.0;
    ghost var passes: nat := 0;
    ghost var rows: nat := 0;
    while currentY < cakeLen
      invariant rows == 2 * passes && |cuts| == 2 * rows
      invariant currentY == SliceHeight * rows as real
      invariant SawtoothPrefix(cuts, cakeWidth, cakeLen)
      decreases cakeLen.Floor - rows
    {
      RowsBelowLength(rows, cakeLen);
      SawtoothRows(cakeWidth, passes);
      SawtoothAppend(cuts, cakeWidth, cakeLen, Point(0.0, currentY), Point(cakeWidth, currentY));
      cuts := cuts + [Point(0.0, currentY), Point(cakeWidth, currentY)];
      currentY := currentY + sliceHeight;
      rows := rows + 1;
      if currentY >= cakeLen {
        break;
      }
      SawtoothAppend(cuts, cakeWidth, cakeLen, Point(cakeWidth, currentY), Point(0.0, currentY));
      cuts := cuts + [Point(cakeWidth, currentY), Point(0.0, currentY)];
      currentY := currentY + sliceHeight;
      rows := rows + 1;
      passes := passes + 1;
    }
    assert |cuts| / 2 == rows;
    SawtoothEdges(cuts, cakeWidth, cakeLen);
  }

  /** A row height still on the cake bounds the row count by the length. */
  lemma RowsBelowLength(rows: nat, length: real)
    requires SliceHeight * rows as real < length
    ensures rows <= length.Floor
  {
    assert rows as real <= SliceHeight * rows as real;
  }

  /** Every sawtooth point is on a side edge, at a non-negative height. */
  lemma SawtoothEdges(cuts: seq<Point>, width: real, length: real)
    requires SawtoothPrefix(cuts, width, length)
    ensures forall i :: 0 <= i < |cuts| ==> (cuts[i].x == 0.0 || cuts[i].x == width) && 0.0 <= cuts[i].y < length
  {
  }

  // ---------------------------------------------------------------------
  // bigcakecuts and climb_hills

  /**
    bigcakecuts: cut to the opposite side edge, 5 further along the length,
    wrapping around with Python's float modulo.
  */
  function BigCakeCuts(cakeLen: real, cakeWidth: real, curPos: Point): (m: Action)
    requires cakeLen != 0.0
    ensures m.Cut?
    ensures m.to.x == (if curPos.x == 0.0 then cakeWidth else 0.0)
    ensures cakeLen > 0.0 ==> 0.0 <= m.to.y < cakeLen
    // y differs from cur_pos.y + 5 by a whole number of cake lengths ...
    ensures curPos.y + Advance == FloorDiv(curPos.y + Advance, cakeLen) as real * cakeLen + m.to.y
    // ... and by none while cur_pos.y + 5 is still on the cake
    ensures 0.0 <= curPos.y + Advance < cakeLen ==> m.to.y == curPos.y + Advance
  {
    FloorModOfRemainder(curPos.y + Advance, cakeLen);
    if curPos.x == 0.0 then Cut(Point(cakeWidth, FloorMod(curPos.y + 5.0, cakeLen)))
    else Cut(Point(0.0, FloorMod(curPos.y + 5.0, cakeLen)))
  }

  /** Python's float modulo leaves a number already in [0, b) as it is. */
  lemma FloorModOfRemainder(a: real, b: real)
    requires b != 0.0
    ensures 0.0 <= a < b ==> FloorMod(a, b) == a
  {
    if 0.0 <= a < b {
      var q := FloorDiv(a, b);
      var r := FloorMod(a, b);
      assert a == q as real * b + r && 0.0 <= r < b;
      WholeMultiples(q, b);
      assert q == 0;
    }
  }

  /** A whole multiple of a positive b other than 0 is at least b away from 0. */
  lemma WholeMultiples(q: int, b: real)
    requires b > 0.0
    ensures q >= 1 ==> q as real * b >= b
    ensures q <= -1 ==> q as real * b <= -b
  {
    if q >= 1 {
      assert q as real * b == b + (q - 1) as real * b;
    } else if q <= -1 {
      assert q as real * b == -b + (q + 1) as real * b;
    }
  }

  /**
    climb_hills: INIT at the corner on turn 1; then, while there are fewer
    pieces than requests, the zig-zag cut; then the sorted assignment.
  */
  function ClimbHills(turnNumber: int, polygons: seq<Piece>, requests: seq<real>, curPos: Point,
                      cakeWidth: real, cakeLen: real, sortedAssign: PairAssignStrategy): (m: Action)
    requires turnNumber != 1 && |polygons| < |requests| ==> cakeLen != 0.0
    ensures turnNumber == 1 ==> m == Init(Point(0.0, 0.0))
    ensures turnNumber != 1 && |polygons| < |requests| ==> m == BigCakeCuts(cakeLen, cakeWidth, curPos)
    ensures turnNumber != 1 && |polygons| >= |requests| ==> m == Assign(sortedAssign(polygons, requests))
  {
    if turnNumber == 1 then Init(Point(0.0, 0.0))
    else if |polygons| < |requests| then
      if curPos.x == 0.0 then Cut(Point(cakeWidth, FloorMod(curPos.y + 5.0, cakeLen)))
      else Cut(Point(0.0, FloorMod(curPos.y + 5.0, cakeLen)))
    else Assign(sortedAssign(polygons, requests))
  }

  // ---------------------------------------------------------------------
  // The player

  datatype Strategy = SneakStrategy | ClimbHillsStrategy | SawtoothStrategy

  /** What the game tells the player each turn. */
  datatype Percept = Percept(polygons: seq<Piece>, turnNumber: int, curPos: Point,
                             requests: seq<real>, cakeLen: real, cakeWidth: real)

  class G2Player {
    const tolerance: int
    var cakeLen: real
    var cakeWidth: real
    var strategy: Strategy
    var moveObject: EvenCuts?
    var polygons: seq<Piece>
    var turnNumber: int
    var curPos: Point
    var requests: seq<real>
    /** `extent / sqrt(count)`, computed in floating point by the source. */
    const spacing: (real, nat) -> real
    const sneak: SneakPath
    const greedyBestFit: AssignStrategy
    const sortedAssign: PairAssignStrategy

    constructor (tolerance: int, spacing: (real, nat) -> real, sneak: SneakPath,
                 greedyBestFit: AssignStrategy, sortedAssign: PairAssignStrategy)
      ensures this.tolerance == tolerance && cakeLen == 20.0 && cakeWidth == 40.0
      ensures strategy == SneakStrategy && moveObject == null
      ensures forall e, c :: this.spacing(e, c) == spacing(e, c)
      ensures forall a, b, w, l :: this.sneak(a, b, w, l) == sneak(a, b, w, l)
      ensures forall ps, rs, t :: this.greedyBestFit(ps, rs, t) == greedyBestFit(ps, rs, t)
      ensures forall ps, rs :: this.sortedAssign(ps, rs) == sortedAssign(ps, rs)
    {
      this.tolerance := tolerance;
      cakeLen := 20.0;
      cakeWidth := 40.0;
      strategy := SneakStrategy;
      moveObject := null;
      polygons, turnNumber, curPos, requests := [], 0, Point(0.0, 0.0), [];
      this.spacing := spacing;
      this.sneak := sneak;
      this.greedyBestFit := greedyBestFit;
      this.sortedAssign := sortedAssign;
    }

    method ProcessPercept(percept: Percept)
      modifies this
      ensures polygons == percept.polygons && turnNumber == percept.turnNumber && curPos == percept.curPos
      ensures requests == percept.requests && cakeLen == percept.cakeLen && cakeWidth == percept.cakeWidth
      ensures strategy == old(strategy) && moveObject == old(moveObject)
    {
      polygons := percept.polygons;
      turnNumber := percept.turnNumber;
      curPos := percept.curPos;
      requests := percept.requests;
      cakeLen := percept.cakeLen;
      cakeWidth := percept.cakeWidth;
    }

    /**
      move: with the sneak strategy, a planner sized to the requests is built
      on turn 1 and its moves are passed on unchanged; once it has nothing
      left, the greedy best-fit assignment is returned. Otherwise climb_hills.
    */
    method Move(percept: Percept) returns (m: Action)
      requires strategy == SneakStrategy && percept.turnNumber != 1 ==> moveObject != null
      requires (strategy != SneakStrategy && percept.turnNumber != 1 && |percept.polygons| < |percept.requests|)
                 ==> percept.cakeLen != 0.0
      modifies this, moveObject
      ensures polygons == percept.polygons && turnNumber == percept.turnNumber && curPos == percept.curPos
      ensures requests == percept.requests && cakeLen == percept.cakeLen && cakeWidth == percept.cakeWidth
      ensures strategy == old(strategy)
      // turn 1: a new planner for len(requests) requests on the current cake
      ensures strategy == SneakStrategy && percept.turnNumber == 1 ==>
                && moveObject != null && fresh(moveObject)
                && moveObject.n == |percept.requests|
                && moveObject.width == percept.cakeWidth && moveObject.length == percept.cakeLen
                && moveObject.sy == spacing(percept.cakeLen, |percept.requests|)
                && (forall a, b, w, l :: moveObject.sneak(a, b, w, l) == sneak(a, b, w, l))
                && moveObject.State() == Start(spacing(percept.cakeWidth, |percept.requests|))
                && m == Init(InitPoint)
      // later turns: the planner's move, or, once it returns None, the greedy assignment
      ensures strategy == SneakStrategy && percept.turnNumber != 1 ==>
                && moveObject == old(moveObject)
                && var r := Step(moveObject.Config(), old(moveObject.State()), percept.turnNumber, percept.curPos);
                && moveObject.State() == r.0
                && m == (if r.1.Some? then r.1.value
                         else Assign(greedyBestFit(percept.polygons, percept.requests, tolerance)))
      ensures strategy != SneakStrategy ==>
                && moveObject == old(moveObject)
                && (moveObject != null ==> unchanged(moveObject))
                && m == ClimbHills(percept.turnNumber, percept.polygons, percept.requests, percept.curPos,
                                   percept.cakeWidth, percept.cakeLen, sortedAssign)
    {
      ProcessPercept(percept);
      if strategy == SneakStrategy {
        if turnNumber == 1 {
          var n := |requests|;
          moveObject := new EvenCuts(n, cakeWidth, cakeLen, spacing(cakeWidth, n), spacing(cakeLen, n), sneak);
        }
        var planned := moveObject.Move(turnNumber, curPos);
        if planned == None {
          // the source picks the same strategy for small and large request counts
          if |requests| < 10 {
            return Assign(greedyBestFit(polygons, requests, tolerance));
          } else {
            return Assign(greedyBestFit(polygons, requests, tolerance));
          }
        }
        return planned.value;
      }
      return ClimbHills(turnNumber, polygons, requests, curPos, cakeWidth, cakeLen, sortedAssign);
    }
  }
}
