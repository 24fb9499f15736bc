/**
  The G2 player's penalty of an assignment (`__calculate_penalty`): per
  request, 100 when it gets no piece or a piece that does not fit on the
  plate, otherwise the percentage by which the piece misses the requested
  area, counted only above the tolerance.
*/
module Penalty {
  import opened Cake

  /** The assignment entry for "no piece". */
  const Unassigned: int := -1

  /** The cost of a request that goes without a servable piece. */
  const Unserved: real := 100.0

  /** The plate's radius (its diameter is 25). */
  const PlateRadius: real := 12.5

  /**
    can_cake_fit_in_plate: the smallest circle around the piece's outline has
    at most the plate's radius. That circle is computed by a foreign library;
    here `enclosingRadius` gives its radius.
  */
  predicate CanFitInPlate(enclosingRadius: Piece -> real, piece: Piece, radius: real := PlateRadius)
  {
    enclosingRadius(piece) <= radius
  }

  function Abs(x: real): real
  {
    if x < 0.0 then -x else x
  }

  /** By how many percent a piece of area `area` misses the requested area `req`. */
  function Deviation(area: real, req: real): real
    requires req != 0.0
  {
    100.0 * Abs(area - req) / req
  }

  /** The request at an entry gets a piece, and that piece fits on the plate. */
  predicate Served(pieces: seq<Piece>, enclosingRadius: Piece -> real, a: int)
    requires a == Unassigned || 0 <= a < |pieces|
  {
    a != Unassigned && CanFitInPlate(enclosingRadius, pieces[a])
  }

  /**
    What this model requires of the penalty loop's inputs: one entry per
    request at most, each entry -1 or a piece index, and a non-zero request
    wherever the deviation is divided by it.
  */
  predicate WellFormed(pieces: seq<Piece>, requests: seq<real>, enclosingRadius: Piece -> real, assignment: seq<int>)
  {
    && |assignment| <= |requests|
    && (forall i :: 0 <= i < |assignment| ==> assignment[i] == Unassigned || 0 <= assignment[i] < |pieces|)
    && (forall i :: 0 <= i < |assignment| && Served(pieces, enclosingRadius, assignment[i]) ==> requests[i] != 0.0)
  }

  /** What request `i` adds to the penalty. */
  function Contribution(pieces: seq<Piece>, requests: seq<real>, tolerance: int, enclosingRadius: Piece -> real,
                        assignment: seq<int>, i: nat): (c: real)
    requires WellFormed(pieces, requests, enclosingRadius, assignment) && i < |assignment|
    // no piece, or a piece too big for the plate: exactly 100
    ensures !Served(pieces, enclosingRadius, assignment[i]) ==> c == Unserved
    // a servable piece: its deviation when above the tolerance, nothing otherwise
    ensures Served(pieces, enclosingRadius, assignment[i]) ==>
              var dev := Deviation(pieces[assignment[i]].area, requests[i]);
              (dev > tolerance as real ==> c == dev) && (dev <= tolerance as real ==> c == 0.0)
    // a servable piece of exactly the requested area costs nothing, whatever the tolerance
    ensures Served(pieces, enclosingRadius, assignment[i]) && pieces[assignment[i]].area == requests[i] ==> c == 0.0
    ensures tolerance >= 0 ==> 0.0 <= c
  {
    var a := assignment[i];
    if !Served(pieces, enclosingRadius, a) then Unserved
    else
      var dev := Deviation(pieces[a].area, requests[i]);
      if dev > tolerance as real then dev else 0.0
  }

  /** The sum of the contributions of the first `k` requests. */
  function PenaltyUpTo(pieces: seq<Piece>, requests: seq<real>, tolerance: int, enclosingRadius: Piece -> real,
                       assignment: seq<int>, k: nat): real
    requires WellFormed(pieces, requests, enclosingRadius, assignment) && k <= |assignment|
  {
    if k == 0 then 0.0
    else PenaltyUpTo(pieces, requests, tolerance, enclosingRadius, assignment, k - 1)
         + Contribution(pieces, requests, tolerance, enclosingRadius, assignment, k - 1)
  }

  /** The penalty of an assignment: the sum over all its requests. */
  function TotalPenalty(pieces: seq<Piece>, requests: seq<real>, tolerance: int, enclosingRadius: Piece -> real,
                        assignment: seq<int>): real
    requires WellFormed(pieces, requests, enclosingRadius, assignment)
  {
    PenaltyUpTo(pieces, requests, tolerance, enclosingRadius, assignment, |assignment|)
  }

  /** How many of the first `k` requests go without a servable piece. */
  function UnservedUpTo(pieces: seq<Piece>, requests: seq<real>, enclosingRadius: Piece -> real,
                        assignment: seq<int>, k: nat): nat
    requires WellFormed(pieces, requests, enclosingRadius, assignment) && k <= |assignment|
  {
    if k == 0 then 0
    else UnservedUpTo(pieces, requests, enclosingRadius, assignment, k - 1)
         + (if Served(pieces, enclosingRadius, assignment[k - 1]) then 0 else 1)
  }

  /** __calculate_penalty, for the assignment an assignment strategy returned. */
  method CalculatePenalty(pieces: seq<Piece>, requests: seq<real>, tolerance: int, enclosingRadius: Piece -> real,
                          assignment: seq<int>) returns (penalty: real)
    requires WellFormed(pieces, requests, enclosingRadius, assignment)
    ensures penalty == TotalPenalty(pieces, requests, tolerance, enclosingRadius, assignment)
  {
    penalty := 0.0;
    for requestIndex := 0 to |assignment|
      invariant penalty == PenaltyUpTo(pieces, requests, tolerance, enclosingRadius, assignment, requestIndex)
    {
      var a := assignment[requestIndex];
      if a == Unassigned || !CanFitInPlate(enclosingRadius, pieces[a]) {
        penalty := penalty + 100.0;
      } else {
        var percentage := 100.0 * Abs(pieces[a].area - requests[requestIndex]) / requests[requestIndex];
        if percentage > tolerance as real {
          penalty := penalty + percentage;
        }
      }
    }
  }

  /** With a non-negative tolerance the penalty is never negative. */
  lemma {:induction false} PenaltyNonNegative(pieces: seq<Piece>, requests: seq<real>, tolerance: int,
                                              enclosingRadius: Piece -> real, assignment: seq<int>, k: nat)
    requires WellFormed(pieces, requests, enclosingRadius, assignment) && k <= |assignment|
    requires tolerance >= 0
    ensures PenaltyUpTo(pieces, requests, tolerance, enclosingRadius, assignment, k) >= 0.0
  {
    if k > 0 {
      PenaltyNonNegative(pieces, requests, tolerance, enclosingRadius, assignment, k - 1);
    }
  }

  /** With a non-negative tolerance every unserved request costs at least its 100. */
  lemma {:induction false} PenaltyCoversUnserved(pieces: seq<Piece>, requests: seq<real>, tolerance: int,
                                                 enclosingRadius: Piece -> real, assignment: seq<int>, k: nat)
    requires WellFormed(pieces, requests, enclosingRadius, assignment) && k <= |assignment|
    requires tolerance >= 0
    ensures PenaltyUpTo(pieces, requests, tolerance, enclosingRadius, assignment, k)
         >= Unserved * UnservedUpTo(pieces, requests, enclosingRadius, assignment, k) as real
  {
    if k > 0 {
      PenaltyCoversUnserved(pieces, requests, tolerance, enclosingRadius, assignment, k - 1);
    }
  }

  /** An all-unassigned vector: 100 per request. */
  lemma {:induction false} AllUnassignedPenalty(pieces: seq<Piece>, requests: seq<real>, tolerance: int,
                                                enclosingRadius: Piece -> real, assignment: seq<int>, k: nat)
    requires WellFormed(pieces, requests, enclosingRadius, assignment) && k <= |assignment|
    requires forall i :: 0 <= i < |assignment| ==> assignment[i] == Unassigned
    ensures PenaltyUpTo(pieces, requests, tolerance, enclosingRadius, assignment, k) == Unserved * k as real
  {
    if k > 0 {
      AllUnassignedPenalty(pieces, requests, tolerance, enclosingRadius, assignment, k - 1);
    }
  }

  /** Every request served by a plate-sized piece of exactly its area: no penalty at all. */
  lemma {:induction false} ExactAssignmentCostsNothing(pieces: seq<Piece>, requests: seq<real>, tolerance: int,
                                                       enclosingRadius: Piece -> real, assignment: seq<int>, k: nat)
    requires WellFormed(pieces, requests, enclosingRadius, assignment) && k <= |assignment|
    requires forall i :: 0 <= i < |assignment| ==>
               Served(pieces, enclosingRadius, assignment[i]) && pieces[assignment[i]].area == requests[i]
    ensures PenaltyUpTo(pieces, requests, tolerance, enclosingRadius, assignment, k) == 0.0
  {
    if k > 0 {
      ExactAssignmentCostsNothing(pieces, requests, tolerance, enclosingRadius, assignment, k - 1);
    }
  }
}
