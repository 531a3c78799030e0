# Backgammon move generation, modelled in Dafny

This project models the legal-move engine of a small backgammon program.
Given a board, the player to move and a roll of two dice, the engine
enumerates every distinct board the player can reach with that roll. The
engine has three layers, and each has its own modules here:

- **The board** (`board.py`), in `board.dfy` and `counting.dfy`:
  - The board has 24 points. Each point holds a checker count and an owner (White, Black or Neither).
  - Each colour also has a bar counter and a borne-off counter.
  - The module covers the checker primitives, the geometry helpers (home, direction, opponent, home board), the winner and game-over queries, structural equality and the opening layout.
  - `counting.dfy` adds checker totals and pip counts, and proves the facts about them.
- **The three moves** (`BarMove`, `BearOffMove` and `NormalMove` in `move.py`, repeated in `multi_move.py`), in `moves.dfy`:
  - Each move is a pure function that returns `Ok(board)` or `Failure(check)`.
  - It runs the source's legality checks in the source's order, then applies the hit and the checker transfer.
- **The two board factories**:
  - `move.py`'s generator is in `factory.dfy`. For each occupied point it tries a bear-off first and a normal move only when the bear-off fails.
  - `multi_move.py`'s generator is in `multi_factory.dfy`. It collects every normal move plus every bear-off from the six home points.
  - Both play the roll die by die over a frontier of boards. In `multi_move.py` a board on which the die cannot be used keeps its place in the frontier.
  - `move.py` evidently means the same, but as written it fails on a frontier where only some boards can use the die (see "Findings"). The model gives both generators that meaning.
  - Both then merge the frontiers of the two orders of the dice (or of the four equal dice of a double), and remove duplicates.

`successors.dfy` gives a second definition of what a roll does, written
without any search. A die moves a board to any board that a legal bar,
normal or bear-off move produces. When no legal move uses the die, the die
is forfeited. A roll is played four times for a double, and in either order
otherwise. The main theorems prove that each generator, as modelled,
computes exactly this set on every well-formed board. Together they also
prove that the two generators agree. For `move.py`, "as modelled" means
with the frontier handling the code evidently intends.

The proofs turned up a fact `move.py`'s generator relies on without saying
so, stated as `Moves.BearOffExcludesNormal`: wherever a bear-off from a point
is legal, the normal move by the same die from that point would leave the
board. That is why `move.py` loses nothing by preferring the bear-off.
`multi_move.py` tries both kinds of move everywhere and does not need the
fact, but it is what makes `MultiBoardFactory.GeneratorsAgree` hold.

Modelling choices:
- A move's working copy of the board is value semantics here: every function returns a new board, and the caller's board never changes.
- `IllegalMoveException` becomes an `IllegalMove` value with one variant per kind of check or primitive failure; raise sites that perform the same check share a variant.
- Python's unbounded integers become `int`.
- The thread pool in `multi_move.py` is an order-preserving sequential map.
- The dice are two given values. The random roll is not part of this model.

## Model

| member | source | states |
|---|---|---|
| `DiceRolls.RollRecordsValues` | board.py:17-40 | rolling with two given values makes them die 1 and die 2; the roll is a double exactly when they are equal; every pair of dice is the roll of its own two values |
| `Boards.GetOpponent` | board.py:222-225 | the opponent of a colour is never that colour |
| `Boards.OpponentInvolution` | board.py:222-225 | on the two players, the opponent of the opponent is the player itself, and White's opponent is Black and vice versa |
| `Boards.DirectionMatchesHome` | board.py:210-220 | the direction is +1 or -1; White (+1) has home 24 and Black (-1) has home -1; the opponent's home plus 25 steps in the player's direction is the player's home |
| `Boards.IsBetweenSymmetric` | board.py:232-236 | "between" does not depend on the order of the two bounds |
| `Boards.HomeBoardPoints` | board.py:238-242 | on the board, White's home board is points 18..23 and Black's is 0..5 |
| `Boards.GetCheckers` | board.py:137-146 | on a well-formed board, the answer lies between 0 and the point's count, and a colour's answer is positive exactly when that colour (White or Black) owns the point |
| `Boards.CheckersSplitByOwner` | board.py:137-146 | on a well-formed board, a point's checkers all belong to one player: the two per-colour counts add up to the raw count and one of them is 0 |
| `Boards.GetWinner` | board.py:99-120 | the reported winner has no checker on the bar or on any point; Neither means both players still have a checker in play; Black is checked first |
| `Boards.IsGameOver` | board.py:122-135 | the game is over exactly when some player has nothing in play, which is exactly when the winner is not Neither |
| `Boards.SameBoard` | board.py:256-264 | boards compare equal exactly when counts, owners, bars and off-counts are all equal |
| `Boards.MoveToLocation` | board.py:173-183 | fails exactly on a point the opponent owns; otherwise the count rises by one, the owner becomes the player when the point was empty, and no other point, bar or off-count changes |
| `Boards.RemoveFromLocation` | board.py:185-193 | fails exactly when the player does not own the point; otherwise the count drops by one, an emptied point loses its owner, and nothing else changes |
| `Boards.MoveToBar` | board.py:195-197 | the player's bar rises by one and nothing else changes |
| `Boards.RemoveFromBar` | board.py:199-204 | fails exactly on an empty bar; otherwise the player's bar drops by one and nothing else changes |
| `Boards.MoveOff` | board.py:206-208 | the player's off-count rises by one and nothing else changes |
| `Counting.MoveToLocationCounts` | board.py:173-183 | placing a checker keeps the board well formed, gives the point to the player, and adds exactly one to the player's on-board total and nothing to the opponent's |
| `Counting.RemoveFromLocationCounts` | board.py:185-193 | removing a checker keeps the board well formed and takes exactly one from the player's on-board total and nothing from the opponent's |
| `Counting.PlaceInitialWellFormed` | board.py:82-91 | every stage of the opening-layout loop leaves a well-formed board |
| `Counting.PlaceInitialTotals` | board.py:89-91 | after n placements, each colour's on-board total equals that colour's checkers in the first n layout entries |
| `Counting.PlaceInitialPips` | board.py:89-91 | after n placements, each colour's pips on the points equal those of the first n layout entries |
| `Counting.LayoutSums` | board.py:65-67 | the layout tables hold 15 checkers and 167 pips for each colour |
| `Counting.InitialCheckers` | board.py:64-91 | the opening position's point counts, point by point |
| `Counting.InitialOwners` | board.py:64-91 | the opening position's point owners, point by point |
| `Counting.InitialLayout` | board.py:82-91 | the opening position `ResetBoard` lays out is well formed, both bars and off-counts are zero, each colour has 15 checkers on the points (a full set), and each pip count is 167 |
| `Counting.PointPipsBounds` | board.py:156-171 | each checker on the points counts between 1 and 24 pips |
| `Counting.PipCountZero` | board.py:156-171 | the pip count `PipCount` (each checker's distance home, 24 for a checker on the bar) is never negative, and it is zero exactly when the player has nothing in play |
| `Moves.HitBlot` | move.py:203-205 | a lone opposing checker at the end point goes to the opponent's bar and leaves the point empty; otherwise the board is unchanged; other points, the player's bar and the off-counts never change |
| `Moves.HitBlotCounts` | move.py:203-205 | a hit keeps the board well formed and keeps both players' checker totals |
| `Moves.BarMove` | move.py:18-53 | success only when the bar is not empty, the die is 1..6 and the end is the die's entry point, not blocked; on a well-formed board these conditions also guarantee success; an off-board end fails first; on success from a well-formed board, one checker leaves the bar for the end point, a lone opposing checker there goes to the opponent's bar, and nothing else changes |
| `Moves.BarMoveConserves` | move.py:44-53 | a legal bar move keeps the board well formed and keeps both players' checker totals |
| `Moves.BearOffMove` | move.py:90-143 | succeeds exactly when the start is on the board, the die covers the start's distance home, the player has a checker there, the bar is clear and every checker of the player is in the home board; on success, one checker leaves the start and the off-count rises by one, and nothing else changes |
| `Moves.BearOffMoveConserves` | move.py:139-143 | a legal bear-off keeps the board well formed and keeps both players' checker totals |
| `Moves.CanUseMeansCovering` | move.py:114-119 | the source's `can_use`, `BearOffCanUse`, accepts a die exactly when it is at least the start's distance home |
| `Moves.StandardRuleImpliesCanUse` | move.py:112-119 | any die the standard bear-off rule accepts, the source's rule accepts too |
| `Moves.OversizedBearOffPassesFartherChecker` | move.py:112-119 | on a legal late position, White bears off from point 22 with a 5 while 14 checkers still stand farther back on point 18; the standard rule refuses that die |
| `Moves.StandardBearOffMove` | move.py:79-80 | the bear-off the source's comment describes (an oversized die bears off only the farthest checker) succeeds exactly when the source's checks pass and the standard rule admits the die, then has the source move's effect, and with an oversized die no checker of the player stands farther back |
| `Moves.StandardRuleRefusesLateBearOff` | move.py:112-113 | on the late position the standard rule refuses the 5 from point 22 and accepts the 6 from point 18 |
| `Moves.BearOffExcludesNormal` | move.py:309-324 | wherever a bear-off is legal, the normal move by the same die from that point lands off the board and fails |
| `Moves.NormalMove` | move.py:169-211 | success only when both ends are on the board, the die is 1..6 and moves the checker forward in the player's direction, the bar is clear, the start is the player's and the end is not blocked; on a well-formed board these conditions also guarantee success; on success from a well-formed board, one checker moves from start to end, a lone opposing checker at the end goes to the opponent's bar, and off-counts and other points do not change |
| `Moves.NormalMoveConserves` | move.py:201-211 | a legal normal move keeps the board well formed and keeps both players' checker totals |
| `Moves.SecondBarCheckIsDead` | multi_move.py:200-219 | `NormalMoveRechecked`, the normal move with the repeated bar check, gives the same result as the one without, on every input and for every error |
| `Moves.BarEntryFailsOnlyWhenEmptyOrBlocked` | multi_move.py:329-332 | for a die of 1..6 the entry point is on the board, and on a well-formed board the bar move there fails exactly when the bar is empty or the point is blocked |
| `Frontiers.Flatten` | move.py:338-343 | the flattened list holds exactly the elements of the sublists; it is non-empty when some sublist is; a single sublist is returned as it is |
| `Frontiers.Deduplicate` | move.py:275-278 | the result has no duplicates, holds exactly the elements of the input, and is no longer than the input |
| `Successors.SuccessorConserves` | move.py:24-211 | every legal move of any kind keeps a well-formed board well formed and keeps both players' checker totals |
| `Successors.StepToConserves` | move.py:24-211 | playing a die, or forfeiting it, keeps a board well formed and keeps a full set of 15 checkers per colour |
| `Successors.SuccessorsOnBar` | move.py:24-53 | with a checker on the bar, the legal moves are exactly the bar entry at the die's point |
| `Successors.SuccessorsOffBar` | move.py:160-211 | with the bar clear, the legal moves are exactly the normal moves by the die from an on-board point and the bear-offs |
| `Successors.SuccessorKeepsBarClear` | move.py:201-211 | a legal move made with the bar clear leaves the bar clear |
| `Successors.ReachableConserves` | move.py:249-271 | playing any sequence of dice keeps a board well formed and keeps full sets |
| `Successors.PlaysRollConserves` | multi_move.py:299-310 | every board reachable with the roll is well formed and keeps full sets when the starting board does |
| `BoardFactory.DiceCombinations` | move.py:236-242 | a double is tried as one order of four equal dice; otherwise exactly the two orders of the two dice, smaller die first |
| `BoardFactory.BarChildren` | move.py:290-303 | with a checker on the bar of a well-formed board, the boards found are exactly the legal moves of the die |
| `BoardFactory.TryPoint` | move.py:309-330 | trying a point finds every legal bear-off and every legal normal move from it, and nothing else, although a normal move is only tried when the bear-off fails |
| `BoardFactory.PointChildren` | move.py:306-330 | the boards found are exactly the results of trying every occupied point |
| `BoardFactory.PointChildrenComplete` | move.py:306-330 | with the bar clear, every legal move of any kind is among the boards found at the points |
| `BoardFactory.PointChildrenSound` | move.py:306-330 | every board found at the points is a legal move |
| `BoardFactory.ExpandPlaysDie` | move.py:286-336 | when the mode matches the board's bar, `Expand` replaces one board by exactly the plays of the die: every legal move, or the board itself when it is stuck |
| `BoardFactory.ExpandKeepsBarClear` | move.py:305-336 | off the bar, every replacement board still has a clear bar |
| `BoardFactory.ComputeBoards` | move.py:283-343 | the new frontier holds exactly the replacements of the frontier's boards; a one-board frontier becomes that board's replacements |
| `BoardFactory.StepPlaysDie` | move.py:253-269 | when the frontier's bars agree, `Step` with one die turns the frontier into exactly the boards its boards reach with that die |
| `BoardFactory.StepKeepsWellFormed` | move.py:253-269 | one die keeps every frontier board well formed |
| `BoardFactory.StepKeepsBarAgreement` | move.py:253-269 | the first board's bar keeps speaking for the whole frontier: a bar frontier is a single board and yields one board, and a frontier off the bar stays off it |
| `BoardFactory.ComputeBoardsAsWritten` | move.py:283-346 | as written, `compute_boards` returns a plain list of boards exactly when all of the frontier's boards have children or none does, and that list is then the frontier `ComputeBoards` gives |
| `BoardFactory.MixedFrontier` | move.py:283-346 | on a legal position, White rolling 1 then 2 reaches a frontier whose second `compute_boards` returns a list that is not plain |
| `BoardFactory.RunDiceSound` | move.py:249-271 | every board in the final frontier is reached from a starting board by playing the dice in order |
| `BoardFactory.RunDiceComplete` | move.py:249-271 | every board a starting board reaches by playing the dice in order is in the final frontier |
| `BoardFactory.RunDiceReachesExactly` | move.py:249-271 | the final frontier `RunDice` computes holds exactly the boards the starting frontier reaches with the dice in order |
| `BoardFactory.RunDiceFromBoard` | move.py:249-271 | from a single well-formed board, the final frontier of an order of the dice is exactly what that order reaches |
| `BoardFactory.GeneratedIsPlay` | move.py:234-271 | every board in some order's final frontier is a legal play of the roll |
| `BoardFactory.PlayIsGenerated` | move.py:234-271 | every legal play of the roll is in some order's final frontier |
| `BoardFactory.GeneratesExactlyTheRoll` | move.py:234-271 | on a well-formed board, the final frontiers hold exactly the plays of the roll |
| `BoardFactory.PlayDice` | move.py:251-269 | the inner loop, one die at a time, builds the final frontier of one order |
| `BoardFactory.PlayAll` | move.py:245-271 | the outer loop collects a non-empty list holding exactly the final frontiers of all the orders |
| `BoardFactory.GenerateAllBoards` | move.py:233-278 | the result is non-empty and has no duplicates; on a well-formed board it holds exactly the plays of the roll; from a board with full sets, every result has full sets |
| `MultiBoardFactory.DiceCombinations` | multi_move.py:260-266 | a double is tried as one order of four equal dice; otherwise exactly the two orders of the two dice, larger die first |
| `MultiBoardFactory.HomePointsCoverHomeBoard` | multi_move.py:360-364 | the six points visited for bearing off are exactly the player's on-board home board |
| `MultiBoardFactory.NormalChildren` | multi_move.py:343-359 | the boards found are exactly the legal normal moves by the die from the occupied points |
| `MultiBoardFactory.BearOffChildren` | multi_move.py:360-375 | the boards found are exactly the legal bear-offs from the home points visited |
| `MultiBoardFactory.ComputeBoards` | multi_move.py:318-385 | the result is never empty; with a checker on the bar, it is exactly one board |
| `MultiBoardFactory.MoveChildrenAreSuccessors` | multi_move.py:343-375 | with the bar clear, the boards `MoveChildren` finds (the normal moves, then the bear-offs) are exactly the legal moves |
| `MultiBoardFactory.ComputeBoardsOnBar` | multi_move.py:326-341 | on the bar, the result is the legal entry, or the board itself when the entry is illegal |
| `MultiBoardFactory.ComputeBoardsOffBar` | multi_move.py:342-385 | off the bar, the result is every legal move, or the board itself when there is none |
| `MultiBoardFactory.ComputeBoardsPlaysDie` | multi_move.py:318-385 | one board is replaced by exactly the plays of the die |
| `MultiBoardFactory.Step` | multi_move.py:281-295 | the next frontier holds exactly the boards computed from the frontier's boards, and is never empty |
| `MultiBoardFactory.StepPlaysDie` | multi_move.py:281-295 | one die turns the frontier into exactly the boards its boards reach with that die |
| `MultiBoardFactory.StepKeepsWellFormed` | multi_move.py:281-295 | one die keeps every frontier board well formed |
| `MultiBoardFactory.RunDiceSound` | multi_move.py:273-299 | every board in the final frontier is reached from a starting board by playing the dice in order |
| `MultiBoardFactory.RunDiceComplete` | multi_move.py:273-299 | every board a starting board reaches by playing the dice in order is in the final frontier |
| `MultiBoardFactory.RunDiceReachesExactly` | multi_move.py:273-299 | the final frontier `RunDice` computes holds exactly the boards the starting frontier reaches with the dice in order |
| `MultiBoardFactory.RunDiceFromBoard` | multi_move.py:273-299 | from a single well-formed board, the final frontier of an order of the dice is exactly what that order reaches |
| `MultiBoardFactory.GeneratedIsPlay` | multi_move.py:259-299 | every board in some order's final frontier is a legal play of the roll |
| `MultiBoardFactory.PlayIsGenerated` | multi_move.py:259-299 | every legal play of the roll is in some order's final frontier |
| `MultiBoardFactory.GeneratesExactlyTheRoll` | multi_move.py:259-299 | on a well-formed board, the final frontiers hold exactly the plays of the roll |
| `MultiBoardFactory.PlayDice` | multi_move.py:275-295 | the inner loop, one die at a time, builds the final frontier of one order |
| `MultiBoardFactory.PlayAll` | multi_move.py:269-299 | the outer loop collects a non-empty list holding exactly the final frontiers of all the orders |
| `MultiBoardFactory.GenerateAllBoards` | multi_move.py:252-310 | the result is non-empty and has no duplicates; on a well-formed board it holds exactly the plays of the roll; from a board with full sets, every result has full sets |
| `MultiBoardFactory.GeneratorsAgree` | multi_move.py:318-385 | on a well-formed board, the two generators as modelled produce the same boards, although only `move.py`'s prefers bear-offs and only this one visits the home points separately |

## Left out

- neural_net.py, player.py, backgammon.py and git_push.py are not part of this model. They hold the floating-point network, the players, the game loop and the git helper.
- The random branch of `Dice.roll` (board.py:20-23) is not modelled: randomness is outside the model. The dice are given values.
- `Dice.__str__`, `Board.__str__` and the `print` calls only produce output, so they are left out.
- The move classes' `__eq__` and `__ne__` name classes that do not exist, and nothing in the generators calls them.
- `Board.__hash__` is replaced by datatype equality, which `SameBoard` shows matches `__eq__`.
- The `Board(other_board)` constructor shares the lists instead of copying them, and `copy_board` makes a deep copy. Value semantics stand in for both.
- The commented-out `generateMoves` in move.py is left out.
- `get_pipcount` (board.py:156-171) calls `getHome`, `getCheckers` and `getBar`, none of which is defined, so as written it always raises. `PipCount` models the evident intent: each checker's distance to home, plus 24 per checker on the bar.
- The `ThreadPool` in multi_move.py (281-290) is concurrency. It is modelled as a sequential map; `pool.map` keeps the order of its inputs, so no generated board is lost or added.
- In move.py, `compute_boards` replaces a board by its children in place. When only some boards of a frontier have children, the flattening at move.py:342-346 fails and returns a list mixing boards and lists. The program then raises: on the next die, `AttributeError` at move.py:256 or move.py:309; after the last die, `TypeError` at the `set` of move.py:277. `ComputeBoardsAsWritten` models the mixed list and `MixedFrontier` exhibits one. The generator itself uses `ComputeBoards`, the evident meaning "each board replaced by its children, or kept", so its theorems do not cover the raise (see "Findings").
- In move.py, when the first frontier board has a checker on the bar, the generator uses the bar mode for the whole frontier. The model keeps this. The exactness theorems ask for a frontier whose bars agree, and `BoardFactory.StepKeepsBarAgreement` proves every frontier reached from one board has that property.
- Python's negative list indices are left out. The primitives take on-board locations only, and no caller passes any other location.
- `BoardFactory.GenerateAllBoards` and `MultiBoardFactory.GenerateAllBoards` do not model the order of the deduplicated list. The source returns `list(set(...))`, whose order depends on hashing; the model keeps the first occurrence of each board in order.
- `Moves.BearOffMove` and both generators keep the source's bear-off rule as written, so that the generator theorems describe what the program computes. The standard rule is stated beside it as `StandardBearOffMove` (see "Findings").

## Findings

| source | as written | input that shows it | evidently intended | confidence | as-written member | corrected member |
|---|---|---|---|---|---|---|
| move.py:114-119 | `can_use` accepts any die at least the start's distance home, even when a checker of the player stands farther back | White with 14 checkers on point 18 and 1 on point 22, Black's 15 on point 0; White bears off from 22 with a 5 | the comments at move.py:79-80 and move.py:112-113: a die larger than the highest occupied point bears off the next-highest checker, so an oversized die only bears off the farthest checker | not executed | `Moves.OversizedBearOffPassesFartherChecker` | `Moves.StandardBearOffMove` |
| move.py:335-346 | a board with children is replaced by the list of them and a board without is kept; when both kinds are in one frontier the flattening fails and a mixed list is returned, on which move.py:256, move.py:309 or move.py:277 raises | White with one checker on points 0 and 10 and 13 off, Black with two on points 3 and 12 and 11 off; White rolls 1-2 and plays the 1 first; after the 1 the board moved from 0 to 1 is blocked for the 2 and the board moved from 10 to 11 is not | each board replaced by its children, or kept when it has none, and the results laid end to end | not executed | `BoardFactory.MixedFrontier` | `BoardFactory.ComputeBoards` |
