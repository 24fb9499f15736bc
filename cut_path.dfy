/**
  The EvenCuts cut-path planner as values: the state it mutates (phase, the
  signed vertical spacing s_x and the FIFO queue of boundary points), the
  transition each of its methods performs, and the properties of those
  transitions. The class in even_cuts.dfy is proved against these functions.
*/
module CutPath {
  import opened Cake

  datatype Phase = Horizontal | Vertical | Done

  /** Phases in the order the planner goes through them. */
  function Rank(ph: Phase): nat
  {
    match ph
    case Horizontal => 0
    case Vertical => 1
    case Done => 2
  }

  /**
    The boundary-hugging path helper `sneak(from, to, width, length)`, whose
    body is not part of this model: any function from its arguments to a
    sequence of points.
  */
  type SneakPath = (Point, Point, real, real) -> seq<Point>

  /** What the planner fixes at construction: cake size, horizontal spacing s_y, the path helper. */
  datatype Settings = Settings(width: real, length: real, sy: real, sneak: SneakPath)

  /** What the planner changes from turn to turn. */
  datatype Plan = Plan(phase: Phase, sx: real, queue: seq<Point>)

  /** A freshly constructed planner. */
  function Start(sx: real): Plan
  {
    Plan(Horizontal, sx, [])
  }

  /** The knife position returned on turn 1, just inside the left edge. */
  const InitPoint := Point(0.01, 0.0)

  /** The far edge: `extent` when starting from 0, and 0 from anywhere else. */
  function Opposite(coord: real, extent: real): real
  {
    if coord == 0.0 then extent else 0.0
  }

  /** The intended "next vertical slice still on the cake" test. */
  predicate InVerticalRange(x: real, width: real)
  {
    0.01 <= x < width
  }

  function Last(q: seq<Point>): Point
    requires q != []
  {
    q[|q| - 1]
  }

  /** horizontal_cut: sneak to (x, y + s_y), then cut across to the opposite side edge. */
  function HorizontalCut(s: Settings, p: Plan, pos: Point): Plan
  {
    var y := pos.y + s.sy;
    p.(queue := p.queue + s.sneak(pos, Point(pos.x, y), s.width, s.length)
                        + [Point(Opposite(pos.x, s.width), y)])
  }

  /**
    horizontal_to_vertical: enter the vertical phase, turning s_x around when
    the knife is not on the left edge, sneak to the top edge at x + s_x and
    cut down to the bottom edge.
  */
  function ToVertical(s: Settings, p: Plan, pos: Point): Plan
  {
    var sx := if pos.x != 0.0 then 0.0 - p.sx else p.sx;
    var x := pos.x + sx;
    Plan(Vertical, sx, p.queue + s.sneak(pos, Point(x, s.length), s.width, s.length)
                               + [Point(x, 0.0)])
  }

  /** vertical_cut: sneak to (x + s_x, y), then cut to the opposite end edge. */
  function VerticalCut(s: Settings, p: Plan, pos: Point): Plan
  {
    var x := pos.x + p.sx;
    p.(queue := p.queue + s.sneak(pos, Point(x, pos.y), s.width, s.length)
                        + [Point(x, Opposite(pos.y, s.length))])
  }

  /**
    even_cuts: queue the moves of the next slice, or change phase. The queue
    only grows at its end; the last queued point is the end of the next cut.
  */
  function Refill(s: Settings, p: Plan, pos: Point): (r: Plan)
    ensures Rank(p.phase) <= Rank(r.phase)
    ensures |p.queue| <= |r.queue| && r.queue[..|p.queue|] == p.queue
    ensures r.queue == p.queue ==> r.phase == Done
    ensures p.phase == Horizontal || InVerticalRange(pos.x + p.sx, s.width) ==> |p.queue| < |r.queue|
    ensures p.phase == Horizontal ==> r.phase != Done
    ensures p.phase == Horizontal ==> (r.phase == Vertical <==> pos.y + s.sy >= s.length)
    ensures p.phase == Vertical ==> (r.phase == Done <==> !InVerticalRange(pos.x + p.sx, s.width))
    ensures p.phase != Horizontal && !InVerticalRange(pos.x + p.sx, s.width) ==> r == p.(phase := Done)
    // a horizontal slice fits: cut at y + s_y to the opposite side edge
    ensures p.phase == Horizontal && pos.y + s.sy < s.length ==>
              && r.sx == p.sx
              && r.queue[|p.queue|..|r.queue| - 1]
                   == s.sneak(pos, Point(pos.x, pos.y + s.sy), s.width, s.length)
              && Last(r.queue) == Point(if pos.x == 0.0 then s.width else 0.0, pos.y + s.sy)
    // no horizontal slice fits: s_x turns around off the left edge, then cut down at x + s_x
    ensures p.phase == Horizontal && pos.y + s.sy >= s.length ==>
              && r.sx == (if pos.x != 0.0 then -p.sx else p.sx)
              && r.queue[|p.queue|..|r.queue| - 1]
                   == s.sneak(pos, Point(pos.x + r.sx, s.length), s.width, s.length)
              && Last(r.queue) == Point(pos.x + r.sx, 0.0)
    // a vertical slice fits: cut at x + s_x to the opposite end edge
    ensures p.phase != Horizontal && InVerticalRange(pos.x + p.sx, s.width) ==>
              && r.phase == p.phase && r.sx == p.sx
              && r.queue[|p.queue|..|r.queue| - 1]
                   == s.sneak(pos, Point(pos.x + p.sx, pos.y), s.width, s.length)
              && Last(r.queue) == Point(pos.x + p.sx, if pos.y == 0.0 then s.length else 0.0)
  {
    if p.phase == Horizontal then
      if pos.y + s.sy < s.length then HorizontalCut(s, p, pos) else ToVertical(s, p, pos)
    else
      if InVerticalRange(pos.x + p.sx, s.width) then VerticalCut(s, p, pos) else p.(phase := Done)
  }

  /**
    The plan just before `move` pops: turn 2 queues the bootstrap cut along
    y = s_y, and an empty queue outside DONE is refilled.
  */
  function Pending(s: Settings, p: Plan, turn: int, pos: Point): Plan
  {
    if turn == 2 then p.(queue := p.queue + [Point(0.0, s.sy), Point(s.width, s.sy)])
    else if p.queue == [] && p.phase != Done then Refill(s, p, pos)
    else p
  }

  /** move: the new plan and the move returned for turn `turn` at knife position `pos`. */
  function Step(s: Settings, p: Plan, turn: int, pos: Point): (r: (Plan, Option<Action>))
    // turn 1: INIT just inside the left edge; nothing else happens
    ensures turn == 1 ==> r == (p, Some(Init(InitPoint)))
    // turn 2 on a new planner: cut along y = s_y from the left edge, the right end stays queued
    ensures turn == 2 && p.queue == [] ==>
              r == (p.(queue := [Point(s.width, s.sy)]), Some(Cut(Point(0.0, s.sy))))
    // at most one point per call, always the head of the queue
    ensures r.1.Some? ==> r.1.value.Cut? || turn == 1
    ensures turn != 1 && turn != 2 && p.queue != [] ==>
              r == (p.(queue := p.queue[1..]), Some(Cut(p.queue[0])))
    // a refill turn returns the head of the queue the refill just built and keeps its tail
    ensures turn != 1 && turn != 2 && p.queue == [] && p.phase != Done ==>
              var q := Refill(s, p, pos);
              q.queue != [] ==> r == (q.(queue := q.queue[1..]), Some(Cut(q.queue[0])))
    // the phase never goes back
    ensures Rank(p.phase) <= Rank(r.0.phase)
    // nothing to return exactly when the planner is, or just became, exhausted
    ensures r.1 == None <==>
              && turn != 1 && turn != 2 && p.queue == []
              && (p.phase == Done || (p.phase == Vertical && !InVerticalRange(pos.x + p.sx, s.width)))
    ensures r.1 == None ==> r.0 == p.(phase := Done)
    // once exhausted, every later call returns None and changes nothing
    ensures p.phase == Done && p.queue == [] && turn != 1 && turn != 2 ==> r == (p, None)
  {
    if turn == 1 then (p, Some(Init(InitPoint)))
    else
      var q := Pending(s, p, turn, pos);
      assert turn == 2 && p.queue == [] ==> q.queue[1..] == [Point(s.width, s.sy)];
      if q.queue == [] then (q, None)
      else (q.(queue := q.queue[1..]), Some(Cut(q.queue[0])))
  }

  /** Where the knife is after a move: at the point of an INIT or a CUT. */
  function Landing(m: Option<Action>, pos: Point): Point
  {
    match m
    case Some(Init(q)) => q
    case Some(Cut(q)) => q
    case _ => pos
  }

  /**
    The moves of `k` consecutive turns from `turn` on, with the knife moved to
    every point the planner returns, as the game does between turns.
  */
  function Play(s: Settings, p: Plan, pos: Point, turn: int, k: nat): (r: seq<Option<Action>>)
    ensures |r| == k
    decreases k
  {
    if k == 0 then []
    else
      var (p', m) := Step(s, p, turn, pos);
      [m] + Play(s, p', Landing(m, pos), turn + 1, k - 1)
  }

  // ---------------------------------------------------------------------
  // Every cut is to a point of the cake's edge

  /** The path helper keeps to the edge when asked to go between points of the edge. */
  ghost predicate SneakStaysOnEdge(s: Settings)
  {
    forall a, b, i ::
      OnEdge(a, s.width, s.length) && OnEdge(b, s.width, s.length)
      && 0 <= i < |s.sneak(a, b, s.width, s.length)|
      ==> OnEdge(s.sneak(a, b, s.width, s.length)[i], s.width, s.length)
  }

  /** Sizes as the planner is built with: s_y = L / sqrt(n) for some n >= 1. */
  ghost predicate SaneSettings(s: Settings)
  {
    0.0 <= s.width && 0.0 <= s.sy <= s.length && SneakStaysOnEdge(s)
  }

  /** Every queued point is on the edge, and s_x = W / sqrt(n) as built until the vertical phase. */
  predicate Bounded(s: Settings, p: Plan)
  {
    && (p.phase == Horizontal ==> 0.0 <= p.sx <= s.width)
    && forall i :: 0 <= i < |p.queue| ==> OnEdge(p.queue[i], s.width, s.length)
  }

  /** Every CUT in the list is to a point of the cake's edge. */
  predicate CutsOnEdge(ms: seq<Option<Action>>, width: real, length: real)
  {
    forall i :: 0 <= i < |ms| && ms[i].Some? && ms[i].value.Cut? ==> OnEdge(ms[i].value.to, width, length)
  }

  /**
    From a knife on the edge (on a side edge in the horizontal phase, on an
    end edge after it), a refill queues only points of the edge,
    and the cut it queues ends on a side edge in the horizontal phase and on
    an end edge after it.
  */
  lemma RefillBounded(s: Settings, p: Plan, pos: Point)
    requires SaneSettings(s) && Bounded(s, p) && OnEdge(pos, s.width, s.length)
    requires p.phase == Horizontal ==> pos.x == 0.0 || pos.x == s.width
    requires p.phase != Horizontal ==> pos.y == 0.0 || pos.y == s.length
    ensures Bounded(s, Refill(s, p, pos))
    ensures Refill(s, p, pos).phase == Horizontal && Refill(s, p, pos).queue != [] ==>
              Last(Refill(s, p, pos).queue).x in {0.0, s.width}
    ensures Refill(s, p, pos).phase != Horizontal && Refill(s, p, pos).queue != p.queue ==>
              Last(Refill(s, p, pos).queue).y in {0.0, s.length}
  {
    var r := Refill(s, p, pos);
    var target :=
      if p.phase == Horizontal then
        (if pos.y + s.sy < s.length then Point(pos.x, pos.y + s.sy) else Point(pos.x + r.sx, s.length))
      else Point(pos.x + p.sx, pos.y);
    if r.queue != p.queue {
      assert OnEdge(target, s.width, s.length);
      assert OnEdge(Last(r.queue), s.width, s.length);
      var path := s.sneak(pos, target, s.width, s.length);
      assert r.queue == p.queue + path + [Last(r.queue)];
      forall i | 0 <= i < |r.queue| ensures OnEdge(r.queue[i], s.width, s.length) {
        if |p.queue| <= i < |r.queue| - 1 {
          assert r.queue[i] == path[i - |p.queue|];
        }
      }
    }
  }

  /**
    One turn keeps the plan bounded and returns only cuts to the edge,
    provided the knife is where `RefillBounded` needs it when the planner refills.
  */
  lemma StepBounded(s: Settings, p: Plan, turn: int, pos: Point)
    requires SaneSettings(s) && Bounded(s, p)
    requires turn != 1 && turn != 2 && p.queue == [] ==> OnEdge(pos, s.width, s.length)
    requires turn != 1 && turn != 2 && p.queue == [] && p.phase == Horizontal ==>
               pos.x == 0.0 || pos.x == s.width
    requires turn != 1 && turn != 2 && p.queue == [] && p.phase != Horizontal ==>
               pos.y == 0.0 || pos.y == s.length
    ensures Bounded(s, Step(s, p, turn, pos).0)
    ensures CutsOnEdge([Step(s, p, turn, pos).1], s.width, s.length)
  {
    if turn != 1 {
      var q := Pending(s, p, turn, pos);
      if turn != 2 && p.queue == [] && p.phase != Done {
        RefillBounded(s, p, pos);
      }
      assert Bounded(s, q);
      if q.queue != [] {
        assert OnEdge(q.queue[0], s.width, s.length);
        assert Bounded(s, q.(queue := q.queue[1..]));
      }
    }
  }

  /**
    The knife, from turn 3 on: on the edge, and, when the queue is empty so
    that the next call refills, on a side edge in the horizontal phase and on
    an end edge after it.
  */
  ghost predicate Ready(s: Settings, p: Plan, pos: Point)
  {
    && OnEdge(pos, s.width, s.length)
    && (p.phase == Horizontal && p.queue == [] ==> pos.x == 0.0 || pos.x == s.width)
    && (p.phase != Horizontal && p.queue == [] ==> pos.y == 0.0 || pos.y == s.length)
  }

  /**
    Where the knife will be once the queue runs dry, the last queued point, is
    on a side edge in the horizontal phase and on an end edge after it.
  */
  predicate Ahead(s: Settings, p: Plan)
  {
    && (p.phase == Horizontal && p.queue != [] ==> Last(p.queue).x == 0.0 || Last(p.queue).x == s.width)
    && (p.phase != Horizontal && p.queue != [] ==> Last(p.queue).y == 0.0 || Last(p.queue).y == s.length)
  }

  /**
    The position invariant of a closed-loop game: the plan is bounded, the
    planner is still horizontal on turns 1 and 2, and the knife and the last
    queued point are where the next refill needs them.
  */
  ghost predicate Playing(s: Settings, p: Plan, pos: Point, turn: int)
  {
    && Bounded(s, p)
    && (turn <= 2 ==> p.phase == Horizontal)
    && (turn >= 3 ==> Ready(s, p, pos))
    && Ahead(s, p)
  }

  /** The plan just before the pop of a turn after the first is bounded and ahead. */
  lemma PendingPlaying(s: Settings, p: Plan, pos: Point, turn: int)
    requires SaneSettings(s) && turn >= 2 && Playing(s, p, pos, turn)
    ensures Bounded(s, Pending(s, p, turn, pos)) && Ahead(s, Pending(s, p, turn, pos))
  {
    if turn != 2 && p.queue == [] && p.phase != Done {
      RefillBounded(s, p, pos);
    }
  }

  /** Popping the head of a bounded queue that is ahead moves the knife to a ready position. */
  lemma PopPlaying(s: Settings, q: Plan, turn: int)
    requires Bounded(s, q) && Ahead(s, q) && q.queue != [] && turn >= 3
    ensures Playing(s, q.(queue := q.queue[1..]), q.queue[0], turn)
  {
    assert OnEdge(q.queue[0], s.width, s.length);
    assert |q.queue| == 1 || Last(q.queue) == Last(q.queue[1..]);
  }

  lemma StepPlaying(s: Settings, p: Plan, pos: Point, turn: int)
    requires SaneSettings(s) && turn >= 1 && Playing(s, p, pos, turn)
    ensures Playing(s, Step(s, p, turn, pos).0, Landing(Step(s, p, turn, pos).1, pos), turn + 1)
    ensures CutsOnEdge([Step(s, p, turn, pos).1], s.width, s.length)
  {
    if turn != 1 {
      var q := Pending(s, p, turn, pos);
      PendingPlaying(s, p, pos, turn);
      if q.queue != [] {
        assert Step(s, p, turn, pos) == (q.(queue := q.queue[1..]), Some(Cut(q.queue[0])));
        PopPlaying(s, q, turn + 1);
      } else {
        assert Step(s, p, turn, pos) == (q, None);
      }
    }
  }

  /**
    Every cut a planner built with sane sizes returns, over any number of
    turns of a game that moves the knife to each returned point, is to a point
    of the cake's edge.
  */
  lemma {:induction false} PlayStaysOnEdge(s: Settings, p: Plan, pos: Point, turn: int, k: nat)
    requires SaneSettings(s) && turn >= 1 && Playing(s, p, pos, turn)
    ensures CutsOnEdge(Play(s, p, pos, turn, k), s.width, s.length)
    decreases k
  {
    if k > 0 {
      var (p', m) := Step(s, p, turn, pos);
      StepPlaying(s, p, pos, turn);
      PlayStaysOnEdge(s, p', Landing(m, pos), turn + 1, k - 1);
      var rest := Play(s, p', Landing(m, pos), turn + 1, k - 1);
      assert Play(s, p, pos, turn, k) == [m] + rest;
      CutsOnEdgeCons(m, rest, s.width, s.length);
    }
  }

  /** A move to the edge in front of moves to the edge. */
  lemma CutsOnEdgeCons(m: Option<Action>, rest: seq<Option<Action>>, width: real, length: real)
    requires CutsOnEdge([m], width, length) && CutsOnEdge(rest, width, length)
    ensures CutsOnEdge([m] + rest, width, length)
  {
    var ms := [m] + rest;
    forall i | 0 <= i < |ms| && ms[i].Some? && ms[i].value.Cut? ensures OnEdge(ms[i].value.to, width, length) {
      if i > 0 {
        assert ms[i] == rest[i - 1];
      }
    }
  }

  /** A whole game from turn 1 with a planner as constructed: every cut is to the cake's edge. */
  lemma GameStaysOnEdge(s: Settings, sx: real, pos: Point, k: nat)
    requires SaneSettings(s) && 0.0 <= sx <= s.width
    ensures CutsOnEdge(Play(s, Start(sx), pos, 1, k), s.width, s.length)
  {
    PlayStaysOnEdge(s, Start(sx), pos, 1, k);
  }

  // ---------------------------------------------------------------------
  // A worked game: a 40 x 20 cake and four requests, so s_x = 20 and s_y = 10

  /** A path helper that goes straight to its target. */
  function Direct(from: Point, to: Point, width: real, length: real): seq<Point>
  {
    [to]
  }

  /**
    One horizontal cut at y = 10 (turns 2 and 3), then the switch to the
    vertical phase with s_x turned around, one vertical cut at x = 20 (turns
    4 and 5), and the planner is exhausted: four pieces for four requests.
  */
  lemma FourRequestsOnFortyByTwenty(pos: Point)
    ensures Play(Settings(40.0, 20.0, 10.0, Direct), Start(20.0), pos, 1, 7)
         == [Some(Init(Point(0.01, 0.0))),
             Some(Cut(Point(0.0, 10.0))), Some(Cut(Point(40.0, 10.0))),
             Some(Cut(Point(20.0, 20.0))), Some(Cut(Point(20.0, 0.0))),
             None, None]
  {
    var s := Settings(40.0, 20.0, 10.0, Direct);
    var p2 := Plan(Horizontal, 20.0, [Point(40.0, 10.0)]);
    var p3 := Plan(Vertical, -20.0, [Point(20.0, 0.0)]);
    var p5 := Plan(Done, -20.0, []);
    assert Step(s, Start(20.0), 1, pos) == (Start(20.0), Some(Init(InitPoint)));
    assert Step(s, Start(20.0), 2, InitPoint) == (p2, Some(Cut(Point(0.0, 10.0))));
    assert p2.queue[1..] == [] && p3.queue[1..] == [];
    assert Step(s, p2, 3, Point(0.0, 10.0)) == (p2.(queue := []), Some(Cut(Point(40.0, 10.0))));
    assert Refill(s, p2.(queue := []), Point(40.0, 10.0)) == Plan(Vertical, -20.0, [Point(20.0, 20.0), Point(20.0, 0.0)]);
    assert Step(s, p2.(queue := []), 4, Point(40.0, 10.0)) == (p3, Some(Cut(Point(20.0, 20.0))));
    assert Step(s, p3, 5, Point(20.0, 20.0)) == (p3.(queue := []), Some(Cut(Point(20.0, 0.0))));
    assert Step(s, p3.(queue := []), 6, Point(20.0, 0.0)) == (p5, None);
    assert Step(s, p5, 7, Point(20.0, 0.0)) == (p5, None);
  }
}
