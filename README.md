# G2 cake-cutting player: cut planner and penalty, in Dafny

This project models the decision logic of the G2 player of the cake-cutting
game. Two parts are covered:

- **The EvenCuts planner** (`players/g2/even_cuts.py`). It is a state
  machine with a phase (HORIZONTAL, VERTICAL, DONE), a FIFO queue of boundary
  points and a vertical spacing `s_x` whose sign it may flip. Each turn it
  returns one CUT to the head of its queue, and it refills the queue when the
  queue runs dry. Horizontal cuts zig-zag between the two side edges, each
  `s_y` further along the length. When no horizontal slice fits, the planner
  switches to vertical cuts. It is DONE once the next vertical slice would
  leave the cake.
- **The player** (`players/G2_Player.py`). This covers the fixed sawtooth cut
  list, the "cut to the other side, 5 further along, modulo the length" rule
  (`bigcakecuts`, `climb_hills`), the penalty of an assignment, and `move`.
  With the sneak strategy, `move` drives the planner and falls back to the
  greedy assignment once the planner returns `None`.

Layout:

- `cake.dfy` (module `Cake`): points, pieces, the INIT/CUT/ASSIGN action, and
  Python's float `%`.
- `cut_path.dfy` (module `CutPath`): the planner's state as a value, one pure
  transition per source method, and the lemmas about them. It also holds a
  closed-loop game `Play`, in which the knife moves to every returned point.
- `even_cuts.dfy` (module `EvenCutsPlanner`): the `EvenCuts` class. Its fields
  are updated in place. `HorizontalToVertical`, `HorizontalCut` and
  `VerticalCut` are proved to perform the `CutPath` transitions `ToVertical`,
  `HorizontalCut` and `VerticalCut`; `EvenCutsStep` is proved to perform
  `CutPath.Refill`, and `Move` `CutPath.Step`. The module also models three source lines as
  written.
- `penalty.dfy` (module `Penalty`): `__calculate_penalty` as a loop, proved
  equal to a sum of per-request contributions.
- `g2_player.dfy` (module `Player`): `sawtooth_cut`, `bigcakecuts`,
  `climb_hills` and the `G2Player` class with `move`.

Some helpers have no body in the visible source, or are foreign libraries.
They become parameters:

- the `sneak` path helper is a function-typed constant of the planner;
- the smallest-enclosing-circle radius is the `enclosingRadius` parameter;
- the assignment strategies are function-typed constants of the player;
- `W / sqrt(n)` is the player's `spacing` function.

Where the planner is proved to cut only to the cake's edge, the proof assumes
one thing of `sneak`: given two points of the edge, it returns only points of
the edge.

A served entry with a zero request reaches the division at
`players/G2_Player.py:119-123`, and Python raises ZeroDivisionError there.
`Penalty.WellFormed` excludes exactly those entries.

## Model

| member | source | states |
|---|---|---|
| `CutPath.Refill` | players/g2/even_cuts.py:39-53 | The phase never goes back. The queue only grows at its end. HORIZONTAL turns to VERTICAL exactly when `pos.y + s_y >= L`, and VERTICAL turns to DONE exactly when `pos.x + s_x` is outside `[0.01, W)`. A horizontal refill ends with `[opposite side, pos.y + s_y]`; the switch ends with `[pos.x + s_x, 0]` using the flipped `s_x`; a vertical refill ends with `[pos.x + s_x, opposite end]`. In each case the sneak path to the cut's start comes just before it, and every refill that does not finish adds a point. |
| `CutPath.Step` | players/g2/even_cuts.py:55-70 | Turn 1 returns INIT at `(0.01, 0)` and changes nothing. Turn 2 on a new planner returns CUT `(0, s_y)` and leaves `(W, s_y)` queued. With a non-empty queue, a call returns the head as a CUT and keeps the tail. With an empty queue outside DONE, a call returns the head of the queue that `Refill` just built and keeps its tail. The phase never goes back. `None` is returned exactly when the queue is empty after turn 2 and the planner is, or has just become, DONE. Once DONE with an empty queue, every later call returns `None` and changes nothing. |
| `CutPath.RefillBounded` | players/g2/even_cuts.py:16-53 | If the knife is on the cake's edge, on a side edge in the horizontal phase and on an end edge after it, a refill queues only points of the edge. The cut a horizontal refill queues ends on a side edge (lines 25-29). The cut any later refill queues ends on an end edge (lines 21 and 33-37). |
| `CutPath.StepBounded` | players/g2/even_cuts.py:55-70 | One call keeps every queued point on the edge and returns only a CUT to a point of the edge. This includes the turn-2 points `(0, s_y)` and `(W, s_y)`. |
| `CutPath.StepPlaying` | players/g2/even_cuts.py:55-70 | One turn of a game in which the knife moves to every returned point keeps the knife on the edge from turn 3 on. Whenever the planner refills, the knife is on a side edge in the horizontal phase and on an end edge after it. |
| `CutPath.PlayStaysOnEdge` | players/g2/even_cuts.py:55-70 | Over any number of turns of such a game, every CUT the planner returns is to a point of the cake's edge. |
| `CutPath.GameStaysOnEdge` | players/g2/even_cuts.py:6-70 | A planner as constructed, with `0 <= s_x <= W`, `0 <= s_y <= L` and a `sneak` that keeps points of the edge on the edge, returns only cuts to the cake's edge over a whole game from turn 1. |
| `CutPath.FourRequestsOnFortyByTwenty` | players/g2/even_cuts.py:55-70 | On a 40 x 20 cake with `s_x = 20` and `s_y = 10`, turn 1 is INIT. Then comes one horizontal cut at y = 10 and the switch to vertical with `s_x` flipped. Then comes one vertical cut at x = 20, and after that `None`. |
| `EvenCutsPlanner.EvenCuts.constructor` | players/g2/even_cuts.py:6-14 | A new planner records the request count `n` (the intended line 9), the cake size, `s_y` and the sneak helper. It starts HORIZONTAL with the given `s_x` and an empty queue. |
| `EvenCutsPlanner.EvenCuts.HorizontalToVertical` | players/g2/even_cuts.py:16-21 | The new fields are those of the `CutPath.ToVertical` transition. |
| `EvenCutsPlanner.EvenCuts.HorizontalCut` | players/g2/even_cuts.py:23-29 | The new fields are those of the `CutPath.HorizontalCut` transition. |
| `EvenCutsPlanner.EvenCuts.VerticalCut` | players/g2/even_cuts.py:31-37 | The new fields are those of the `CutPath.VerticalCut` transition, ending at `pos.x + s_x` (the intended line 37). |
| `EvenCutsPlanner.EvenCuts.EvenCutsStep` | players/g2/even_cuts.py:39-53 | The new fields are those of `CutPath.Refill`, with the bounds test written as `0.01 <= pos.x + s_x < W` (the intended line 49). |
| `EvenCutsPlanner.EvenCuts.Move` | players/g2/even_cuts.py:55-70 | The new fields and the returned move are those of `CutPath.Step`. |
| `EvenCutsPlanner.SliceCountFinding` | players/g2/even_cuts.py:9 | As written, the constructor raises NameError for `num_requests`, for 4 requests as for any count. |
| `EvenCutsPlanner.VerticalCutFinding` | players/g2/even_cuts.py:37 | As written, a vertical cut from (20, 0) with `s_x = 10` raises NameError. The intended refill ends at (30, 20). |
| `EvenCutsPlanner.VerticalRangeFinding` | players/g2/even_cuts.py:49 | As written, every refill in the vertical phase raises TypeError. The intended test accepts x = 30 on a 40-wide cake. |
| `Penalty.CanFitInPlate` | players/G2_Player.py:97-103 | True exactly when the piece's smallest enclosing circle has at most the given radius, 12.5 by default. |
| `Penalty.Contribution` | players/G2_Player.py:112-125 | A request with no piece, or with a piece that does not fit on the plate, costs exactly 100. A fitting piece costs its percentage deviation when that is above the tolerance, and 0 otherwise. An exact-area fitting piece costs 0 whatever the tolerance. The cost is non-negative for a non-negative tolerance. |
| `Penalty.CalculatePenalty` | players/G2_Player.py:106-126 | The loop returns the sum of the per-request contributions. |
| `Penalty.PenaltyNonNegative` | players/G2_Player.py:109-126 | With a non-negative tolerance, the penalty is never negative. |
| `Penalty.PenaltyCoversUnserved` | players/G2_Player.py:112-117 | With a non-negative tolerance, the penalty is at least 100 times the number of requests without a servable piece. |
| `Penalty.AllUnassignedPenalty` | players/G2_Player.py:114-117 | An all-unassigned vector costs exactly 100 per entry. |
| `Penalty.ExactAssignmentCostsNothing` | players/G2_Player.py:119-125 | If every request gets a fitting piece of exactly its area, the penalty is 0. |
| `Player.SawtoothCut` | players/G2_Player.py:61-81 | The list has even length. Point `i` is the `i`-th sawtooth point: pair `k` lies at y = 1.6·k, running left to right for even `k` and right to left for odd `k`. Every x is 0 or the width, and every y is in `[0, L)`. The list stops at the first height that is off the cake. |
| `Player.SawtoothRows` | players/G2_Player.py:66-79 | Pass `j` of the loop adds, at y = 1.6·2j, `(0, y)` and `(W, y)`, then `(W, y + 1.6)` and `(0, y + 1.6)`. |
| `Player.BigCakeCuts` | players/G2_Player.py:84-88 | The result is a CUT to `x = W` when `cur_pos.x == 0` and to `x = 0` otherwise. Its y is in `[0, L)`. It differs from `cur_pos.y + 5` by a whole number of cake lengths, and equals it while that is still on the cake. |
| `Player.FloorModOfRemainder` | players/G2_Player.py:86-88 | Python's float `%` leaves a number already in `[0, L)` unchanged. |
| `Cake.FloorMod` | players/G2_Player.py:86 | Python's float `a % b` satisfies `a == (a // b) * b + a % b`. The remainder lies in `[0, b)` for positive `b` and in `(b, 0]` for negative `b`. |
| `Player.ClimbHills` | players/G2_Player.py:128-150 | Turn 1 returns INIT at (0, 0). While there are fewer pieces than requests, it returns exactly the `BigCakeCuts` cut. After that it returns ASSIGN with the sorted assignment. |
| `Player.G2Player.constructor` | players/G2_Player.py:22-47 | A new player has the given tolerance, a 40 x 20 cake, the sneak strategy and no planner. Its `spacing`, `sneak`, greedy best-fit and sorted assignment functions are the ones passed in. |
| `Player.G2Player.ProcessPercept` | players/G2_Player.py:152-158 | The percept's pieces, turn, position, requests and cake size are copied into the player, and nothing else changes. |
| `Player.G2Player.Move` | players/G2_Player.py:160-184 | With the sneak strategy, turn 1 builds a fresh planner sized to `len(requests)` on the current cake and returns INIT. Later turns forward the planner's move unchanged; when the planner returns `None`, the move is ASSIGN with the greedy best-fit assignment. Any other strategy returns `climb_hills` and leaves the planner untouched. |

## Left out

- The smallest enclosing circle (`miniball`) and `can_cake_fit_in_plate`'s coordinate extraction: a foreign library. The circle's radius is the `enclosingRadius` parameter, compared with the 12.5 plate radius.
- Shapely polygons and their `.area`: a piece is its area and its outline points.
- The assignment strategies (`sorted_assign`, `index_assign`, `greedy_best_fit_assignment`, `hungarian_min_penalty`, `dp_min_penalty`) and `sneak`: their bodies are not part of this model, so they are function parameters. Properties that compare strategies, such as "exact matching is no worse than greedy", are therefore not stated.
- `np.sqrt` in `s_x = W / sqrt(n)` and `s_y = L / sqrt(n)`: floating point. The planner takes the two spacings as parameters, and the player computes them with its `spacing` parameter.
- `round(…, 2)` in the planner and in `bigcakecuts`/`climb_hills`: taken as the identity. All coordinates are exact reals, so floating-point drift (for example in the sawtooth's repeated `+= 1.6`) is not modelled.
- `cut` and `make_cut`: printing glue, and `cut` calls `bigcakecuts` with the wrong argument list.
- The `assign` helper of the player: inlined into `G2Player.Move` as `Assign(greedyBestFit(polygons, requests, tolerance))`.
- The two penalty computations at the start of `climb_hills` and their `print`s: their values are only printed, and any exception they raise is not modelled.
- The logger, the random generator, `precomp_dir`, the player's unused `move_queue` and the planner's unused `direction` field.
- Player.G2Player.Move: requires a planner to exist on turns other than 1, where the source would raise AttributeError on `None.move`.
- Player.BigCakeCuts: requires a non-zero cake length. Python's float `% 0` at `players/G2_Player.py:86` raises ZeroDivisionError, and that error is not modelled. In the game the cake's length is always positive.
- Player.ClimbHills: requires a non-zero cake length while it still cuts, for the same `% 0` at `players/G2_Player.py:142`; `Player.G2Player.Move` inherits that requires for the climb-hills strategy.
- Player.SawtoothCut: takes the cake size as arguments. The source ignores its arguments and reads the player's fields, which every caller passes anyway.
- CutPath.PlayStaysOnEdge: assumes that `sneak` keeps to the cake's edge and that the spacings lie within the cake, because `sneak` and `sqrt` are not part of this model.
- The number of turns until DONE is not bounded here, because it depends on how many points `sneak` returns. The number of refills, which does not depend on `sneak`, is not bounded either.

## Findings

| source | as written | input that shows it | evidently intended | confidence | as-written member | corrected member |
|---|---|---|---|---|---|---|
| players/g2/even_cuts.py:9 | `self.n = num_requests` names a variable that does not exist, so every construction raises NameError | any request count, e.g. 4 | `self.n = requests`, the count passed in | high (not executed) | `EvenCutsPlanner.SliceCountAsWritten`, shown by `EvenCutsPlanner.SliceCountFinding` | `EvenCutsPlanner.EvenCuts.constructor` (`n == requests`) |
| players/g2/even_cuts.py:37 | the end of a vertical cut is `[new_x, opposite]`, and `new_x` is undefined, so it raises NameError | vertical phase, pos (20, 0), `s_x = 10`, 40 x 20 cake, with `vertical_cut` called directly; in the full program lines 49 and 9 raise first and mask this bug, the order `EvenCutsPlanner.RefillAsWritten` encodes | `[pos[0] + s_x, opposite]` | high (not executed) | `EvenCutsPlanner.VerticalCutAsWritten`, shown by `EvenCutsPlanner.VerticalCutFinding` | `CutPath.Refill` (the last queued point is `(pos.x + s_x, opposite end)`) |
| players/g2/even_cuts.py:49 | `pos[0] + s_x in range(0.01, W)` raises TypeError, because `range` refuses the float bound, so the vertical phase can never refill | any refill in the vertical phase, e.g. x = 30, W = 40 | `0.01 <= pos[0] + s_x < W` | high (not executed) | `EvenCutsPlanner.RefillAsWritten`, shown by `EvenCutsPlanner.VerticalRangeFinding` | `CutPath.Refill` (DONE exactly when `pos.x + s_x` is outside `[0.01, W)`), proved to keep every cut on the cake's edge by `CutPath.PlayStaysOnEdge` |
