# A verified model of a 2048 player

This project models the core of a 2048 player in Dafny:

- **The board engine** (`game.py`):
  - `_compress_and_merge`, the single-row rule. It drops the empty cells, merges the first equal pair once while scanning, and pads with empty cells.
  - `generate_move`, which reduces UP, DOWN, LEFT and RIGHT to the row rule by reversal and transposition.
  - `add_random_tile` and `get_possible_moves`.
  - The derived "a move is legal when it changes the board" rule, and the end of the game.
- **The n-tuple agent** (`ntuple.py`):
  - pattern keys read from four fixed 6-cell patterns;
  - symmetric views (mirrors and quarter turns);
  - the table value averaged over the views;
  - the integer heuristics and the weighted reward;
  - the TD(0) update of the weight table;
  - the greedy one-move choice.
- **The expectimax agent** (`expectimax.py`). It is a depth-bounded search alternating a max layer over the four moves and a chance layer over tile outcomes, plus `get_action`.

Modules, in dependency order:

- `Wrappers` (`wrappers.dfy`): `Option` and `Result`.
- `Rows` (`rows.dfy`): the row rule as functions, and its properties:
  - four cells out;
  - merged tiles first;
  - sum kept;
  - score equal to the created tiles;
  - no tile merged twice.
- `Boards` (`boards.dfy`): boards, directions, the state `(board, score)`, and the four moves. It also has:
  - the intended `generate_move` with its error case;
  - legality and the end of the game;
  - empty cells and tile placement;
  - worked moves.
- `Game` (`game.dfy`): the `Game2048` object. Its 4x4 board is an `array2` updated in place by `AddRandomTile`, and the row scan of `_compress_and_merge` is a loop method. It also holds the as-written members for the defects listed under Findings.
- `Choice` (`choice.dfy`): the "first strictly best of UP, DOWN, LEFT, RIGHT" scan that both agents use. It comes with its characterisation (maximal, earliest among ties, none exactly when no move is allowed).
- `NTuple` (`ntuple.dfy`): the table functions, the heuristics, and the TD update as a function on maps, with lemmas. The `NTupleAgent` class owns the weight table, and its loop methods are proved against those functions.
- `Expectimax` (`expectimax.dfy`): the search as a recursive function, lemmas about each layer, and the `ExpectimaxAgent` class.

These behaviours of the code shape the model:

- The search's leaf value is the game score (expectimax.py:15-16), not a heuristic.
- The max layer evaluates all four moves, including moves that leave the board unchanged (expectimax.py:21-22). As a result, a one-level search on a board with exactly one legal move can return a different move, which leaves the board unchanged (`Expectimax.DepthOneMayChooseNoOp`).
- The greedy choice of the n-tuple agent does skip such moves (ntuple.py:152-153).
- The end of the game is "no direction changes the board" (game.py:60-68). A board with an empty cell and at least one tile always has a legal move (`Boards.OpenBoardNotOver`), but the all-empty board has none (`Boards.EmptyBoardOver`). So "full and no legal move" and "no legal move" differ only on that board.

Randomness is made explicit. `add_random_tile`'s choice of cell and its uniform draw are parameters (`pick`, `roll`). The chance layer's outcomes are a function from a state to a list of (state, probability) pairs.

## Model

| member | source | states |
|---|---|---|
| `Rows.NonZero` | game.py:48 | the non-empty cells of a row, as many as the row has occupied cells |
| `Rows.NonZeroTiles` | game.py:48 | dropping empty cells keeps the sum and leaves only non-empty cells (positive ones when the row has no negative cell) |
| `Rows.MergeTiles` | game.py:50-57 | the scan leaves one tile fewer per merge |
| `Rows.MergeTilesSum` | game.py:50-57 | the scan keeps the sum of the tiles |
| `Rows.MergeTilesGroups` | game.py:50-57 | the scan's output tiles, in order, each consume one input tile that differs from its right neighbour or one equal pair. So a merged tile is never merged again in the same pass |
| `Rows.GainIsCreatedTiles` | game.py:49-53 | the score the scan earns is exactly the sum of the output tiles created by merges |
| `Rows.GainSign` | game.py:52-53 | on positive tiles the score earned is at least 0, and 0 exactly when nothing merges |
| `Rows.MergesIffPair` | game.py:51 | the scan merges nothing exactly when no two neighbouring tiles are equal |
| `Rows.MergeTilesStable` | game.py:55-57 | tiles without equal neighbours pass through unchanged and earn nothing |
| `Rows.Pad` | game.py:58 | padding yields exactly the requested width |
| `Rows.SlideRow` | game.py:46-58 | the row rule as a function: pad the scan of the non-empty cells to four cells. `Rows.SlideRowShape`, `Rows.MergeTilesGroups` and `Rows.FullRowUnchangedIff` state what it yields |
| `Rows.RowGain` | game.py:49-53 | the score the row rule earns on a row: the gain of the scan over its non-empty cells, which `Rows.GainIsCreatedTiles` shows is the sum of the tiles the merges create |
| `Rows.SlideRowShape` | game.py:48-58 | the row rule returns four cells: the merged tiles first, all non-empty, then only empty cells. It keeps the row's sum, and its non-empty count is the input's minus the number of merges |
| `Rows.FullRowUnchangedIff` | game.py:46-58 | a row without empty cells is left unchanged exactly when no two neighbours are equal |
| `Rows.SlideRowIdempotent` | game.py:46-58 | once a slide leaves no equal neighbours, sliding again changes nothing |
| `Rows.SlideRowKeepsTiles` | game.py:52 | rows of empty cells and powers of two at least 2 stay so |
| `Rows.SlideRowNonNegative` | game.py:52-53 | rows without negative cells stay so, and earn at least 0 |
| `Rows.FourEqualTiles` | game.py:51-54 | `[2,2,2,2]` becomes `[4,4,0,0]` and earns 8 |
| `Rows.PairThenDouble` | game.py:51-54 | `[2,2,4,0]` becomes `[4,4,0,0]` and earns 4: the new 4 does not merge with the old one |
| `Rows.EmptyRow` | game.py:48-58 | an empty row stays empty and earns nothing |
| `Rows.PairRow` | game.py:51-54 | `[2,2,0,0]` becomes `[4,0,0,0]` and earns 4 |
| `Rows.SplitPairRow` | game.py:48-54 | `[0,2,0,2]` becomes `[4,0,0,0]`: empty cells between equal tiles do not stop a merge |
| `Boards.TransposeInvolution` | game.py:26-28 | transposing twice gives the board back, so UP and DOWN return to row orientation |
| `Boards.TransposeInjective` | game.py:26-35 | two boards have equal transposes exactly when they are equal |
| `Boards.ParseDirection` | game.py:25-43 | a name is accepted exactly when it names a direction; any other name is the `InvalidDirection` error carrying that name |
| `Boards.ParseName` | game.py:25-41 | each direction's name parses back to that direction |
| `Boards.ApplyMove` | game.py:24-41 | the board a move leaves and the score it earns: LEFT is the row rule on every row, RIGHT the row rule on reversed rows reversed back, UP and DOWN are LEFT and RIGHT on the transposed board transposed back. `Boards.MovePreservesTileSum`, `Boards.MoveKeepsTiles` and `Boards.ScenarioRight` state what it yields |
| `Boards.Move` | game.py:22-44 | the state after a move: the moved board, and the score plus what the merges earned (the score the code evidently intends; see Findings) |
| `Boards.GenerateMove` | game.py:22-44 | an error exactly when the name is not a direction; otherwise the state after the named move, with the score advanced by the merges |
| `Boards.MovePreservesTileSum` | game.py:24-41 | a move only slides and combines tiles: the total of the cells is unchanged, so no tile is added by a move |
| `Boards.MoveNonNegative` | game.py:24-44 | on a board without negative cells, a move keeps the cells non-negative and never lowers the score |
| `Boards.MoveKeepsTiles` | game.py:24-41 | boards of empty cells and tiles stay so under every move |
| `Boards.FullRowRightUnchangedIff` | game.py:40 | a full row slid right is unchanged exactly when no two neighbours are equal |
| `Boards.SlideLeftUnchangedIff` | game.py:36-37 | on a full board LEFT changes nothing exactly when no row has equal neighbours |
| `Boards.SlideRightUnchangedIff` | game.py:38-41 | on a full board RIGHT changes nothing exactly when no row has equal neighbours |
| `Boards.FullBoardGameOverIff` | game.py:60-68 | on a full board the game is over exactly when no row and no column has equal neighbours |
| `Boards.Legal` | ntuple.py:151-153 | a move is legal when it changes the board, the test `get_best_move` uses to skip a move |
| `Boards.IsGameOver` | game.py:60-68 | the intended `is_game_over`: no direction changes the board. `Boards.FullBoardGameOverIff` and `Boards.OpenBoardNotOver` characterise it |
| `Boards.MixedRowMoves` | game.py:46-58 | a row holding an empty cell and a tile is changed by LEFT or by RIGHT: the row rule puts a tile first and leaves the last cell empty |
| `Boards.OpenBoardNotOver` | game.py:60-68 | a board with an empty cell and at least one tile is not over |
| `Boards.EmptyBoardOver` | game.py:60-68 | the all-empty board is not full, yet no direction changes it, so it counts as over |
| `Boards.EmptyCells` | game.py:17 | every listed cell is on the board and empty |
| `Boards.EmptyCellsExact` | game.py:17 | the listed cells are exactly the empty cells, each listed once |
| `Boards.PlaceTileCells` | game.py:20 | placing a tile sets the chosen cell and keeps every other cell |
| `Boards.PlaceTile` | game.py:20 | the board with one cell set to a value; `Boards.PlaceTileCells` and `Boards.PlaceTileFillsOneCell` state what it changes |
| `Boards.PlaceTileFillsOneCell` | game.py:18-20 | placing a non-zero tile on an empty cell leaves one empty cell fewer and adds the tile's value to the board |
| `Boards.SpawnValue` | game.py:20 | the new tile is 2 or 4, and 2 exactly when the draw is below 0.9 |
| `Boards.ScenarioLeft` | game.py:36-37 | LEFT on `[[2,2,0,0],...]` gives `[[4,0,0,0],...]` and earns 4 |
| `Boards.ScenarioRight` | game.py:38-41 | RIGHT on `[[2,0,2,0],...]` gives `[[0,0,0,4],...]` and earns 4: the row is reversed, slid, and reversed back |
| `Game.Game2048.constructor` | game.py:6-10 | a game whose buffer holds the given board, with the given score |
| `Game.Game2048.CompressAndMerge` | game.py:46-58 | the loop returns the row rule's row, and the game's score plus the value of every tile its merges create |
| `Game.ScanStep` | game.py:50-57 | each step of the scan, merge or copy, keeps "output so far + scan of the rest" equal to the scan of the whole |
| `Game.Game2048.GenerateMove` | game.py:22-44 | the intended move works on a snapshot and changes nothing in the game; an unknown name is an error |
| `Game.Game2048.AddRandomTile` | game.py:15-20 | with no empty cell the board is unchanged; otherwise the `pick`-th empty cell receives 2 or 4 by `roll` and every other cell is kept. The score is unchanged |
| `Game.Game2048.SetCell` | game.py:20 | the board read back is the old one with that cell set |
| `Game.Game2048.GetPossibleMoves` | game.py:70-71 | four names, UP, DOWN, LEFT, RIGHT, in that order, each parsing to its direction |
| `Game.LineAsWrittenIsTuple` | game.py:26-41 | as written, each line built by `generate_move` is a two-entry `(row, score)` tuple, not four cells. For RIGHT and DOWN, its first entry is the score |
| `Game.LineAsWritten` | game.py:26-41 | what one comprehension of `generate_move` produces for a line as written: the whole `(row, score)` tuple, reversed as a tuple for RIGHT and DOWN |
| `Game.GenerateMoveScoreAsWritten` | game.py:44 | the score line 44 returns as written, taken on its own: the game's score whatever the move merged, or the error for an unknown name |
| `Game.IsGameOverAsWritten` | game.py:60-68 | `is_game_over` as written: an error on every board, because the undefined `move` is called on the first pass |
| `Game.RightRowNotReversedAsWritten` | game.py:38-41 | as written, RIGHT on `[2,0,2,0]` yields `(4, [4,0,0,0])`, while the intended row is `[0,0,0,4]` |
| `Game.ScoreNotAdvancedAsWritten` | game.py:44 | once lines 26-41 build a board, line 44 as written returns score 0 for LEFT on `[[2,2,0,0],...]`, while the intended move returns 4 |
| `Game.GameOverAsWrittenRaises` | game.py:60-68 | as written, the check raises (on a board that is over under the intended rule) |
| `Choice.Rank` | game.py:70-71 | the position of each direction in the order UP, DOWN, LEFT, RIGHT |
| `Choice.Scan` | ntuple.py:150-158 | a chosen move comes from the moves scanned so far |
| `Choice.ScanPrefix` | ntuple.py:150-158 | after scanning a prefix of the moves, there is no choice exactly when no scanned move is allowed. Otherwise the choice is an allowed move with its value, no smaller than any allowed scanned move, and strictly greater than every allowed earlier one |
| `Choice.GreedyChoice` | ntuple.py:147-160 | the choice is `None` exactly when no move is allowed; otherwise it is an allowed move with the largest value, the earliest in UP, DOWN, LEFT, RIGHT order among ties |
| `Choice.Greedy` | ntuple.py:147-160 | the move the full scan of UP, DOWN, LEFT, RIGHT chooses; `Choice.GreedyChoice` characterises it |
| `Choice.TieGoesToUp` | expectimax.py:26-28 | when all allowed moves tie with an allowed UP, the strict comparison keeps UP |
| `NTuple.ExtractTuples` | ntuple.py:26-61 | four keys of six values each |
| `NTuple.ExtractTuplesAtCoordinates` | ntuple.py:28-61 | entry `n` of key `k` is the cell at the pattern's fixed coordinate, which lies in row 0 or 1 |
| `NTuple.ExtractTuplesTopRows` | ntuple.py:28-61 | boards that agree on the top two rows have the same keys |
| `NTuple.RotationCells` | ntuple.py:63-73 | the mirrors and quarter turns follow numpy's index formulas cell by cell |
| `NTuple.MirrorHInvolution` | ntuple.py:66 | the horizontal mirror undoes itself |
| `NTuple.MirrorVInvolution` | ntuple.py:68 | the vertical mirror undoes itself |
| `NTuple.RotationsInverse` | ntuple.py:70-72 | a quarter turn each way cancels out |
| `NTuple.Rot270IsThreeTurns` | ntuple.py:72 | `rot90(board, 3)` is three quarter turns |
| `NTuple.RotatedBoardsShape` | ntuple.py:63-73 | the identity board comes first, then one view per enabled flag; every view is the board or an enabled transform of it |
| `NTuple.MirrorH` | ntuple.py:66 | `np.flip(board, axis=1)`: every row reversed; `NTuple.RotationCells` gives it cell by cell |
| `NTuple.MirrorV` | ntuple.py:68 | `np.flip(board, axis=0)`: the rows in reverse order; `NTuple.RotationCells` gives it cell by cell |
| `NTuple.Rot90` | ntuple.py:70 | `np.rot90(board)`: a quarter turn counter-clockwise; `NTuple.RotationCells` gives it cell by cell |
| `NTuple.Rot270` | ntuple.py:72 | `np.rot90(board, 3)`: three quarter turns, as `NTuple.Rot270IsThreeTurns` shows |
| `NTuple.RotatedBoards` | ntuple.py:63-73 | the board, then its enabled mirrors and turns in flag order; `NTuple.RotatedBoardsShape` states its shape |
| `NTuple.NTupleAgent.GetRotatedBoards` | ntuple.py:63-73 | the appends build exactly the views of `RotatedBoards`, 1 plus the number of enabled flags, the board first |
| `NTuple.WeightSumOfFour` | ntuple.py:80-81 | a view's score is the sum of its four keys' weights |
| `NTuple.Scores` | ntuple.py:77-81 | one score per view |
| `NTuple.BoardValueNoSymmetries` | ntuple.py:75-83 | with every flag off, the value is the plain sum of the weights of the board's four keys |
| `NTuple.BoardValue` | ntuple.py:75-83 | the mean over the views of the sums of their four keys' weights. `NTuple.BoardValueNoSymmetries`, `NTuple.BoardValueEmptyTable` and `NTuple.MirrorHValueInvariant` state its values |
| `NTuple.BoardValueEmptyTable` | ntuple.py:20 | a fresh (empty) table values every board at 0 |
| `NTuple.MirrorHValueInvariant` | ntuple.py:63-83 | with only the horizontal mirror enabled, a board and its mirror image have the same value |
| `NTuple.NTupleAgent.EvaluateBoard` | ntuple.py:75-83 | the nested loops compute `BoardValue`, the mean over the views of the per-view weight sums |
| `NTuple.NTupleAgent.constructor` | ntuple.py:9-24 | a fresh agent has the given rates and flags and an empty table |
| `NTuple.LineSteps` | ntuple.py:103-105 | the rise, fall and jumps of a line are its three neighbour differences |
| `NTuple.PenaltyZeroIff` | ntuple.py:102-108 | a line's monotonicity penalty is at least 0, and 0 exactly when the line is non-decreasing or non-increasing |
| `NTuple.RoughnessZeroIff` | ntuple.py:124-126 | a line's jumps add up to at least 0, and to 0 exactly when all its cells are equal |
| `NTuple.TotalOfFour` | ntuple.py:101-117 | four non-negative line scores add up to 0 exactly when each is 0 |
| `NTuple.MonoZeroIff` | ntuple.py:97-119 | `monotonicity` is at most 0, and 0 exactly when every row and column is monotone |
| `NTuple.SmoothZeroIff` | ntuple.py:121-130 | `smoothness` is at most 0, and 0 exactly when all neighbouring cells are equal |
| `NTuple.NTupleAgent.Monotonicity` | ntuple.py:97-119 | the loops compute `Mono`: minus the smaller of rise and fall, summed over rows then columns |
| `NTuple.Mono` | ntuple.py:97-119 | minus the smaller of rise and fall, summed over the rows and then the columns; `NTuple.MonoZeroIff` states its sign and zero case |
| `NTuple.Smooth` | ntuple.py:121-130 | minus every neighbour jump along the rows and then the columns; `NTuple.SmoothZeroIff` states its sign and zero case |
| `NTuple.NTupleAgent.Smoothness` | ntuple.py:121-130 | the loops compute `Smooth`: minus every neighbour jump along rows then columns |
| `NTuple.MaxOfRow` | ntuple.py:87 | the largest cell of a row, which is one of its cells |
| `NTuple.MaxTile` | ntuple.py:87 | `np.max`: at least every cell, and equal to some cell |
| `NTuple.EvaluateBound` | ntuple.py:85-95 | the reward is at most 2.5 × empty cells + the largest tile, with equality exactly on a board whose neighbouring cells are all equal |
| `NTuple.Evaluate` | ntuple.py:85-95 | the reward: 2.5 × the empty cells + 1.2 × `monotonicity` + 0.8 × `smoothness` + the largest tile; `NTuple.EvaluateBound` bounds it |
| `NTuple.OccurrencesPositive` | ntuple.py:140-143 | a key occurs in the key list exactly when it is one of them |
| `NTuple.TimesIsProduct` | ntuple.py:141-143 | adding a step once per occurrence is the step times the count |
| `NTuple.BumpedWeight` | ntuple.py:140-143 | after the update each key's weight has grown by the step once per pattern that yields that key |
| `NTuple.TdError` | ntuple.py:132-138 | reward + discount × the value of the next board − the value of the board |
| `NTuple.Bumped` | ntuple.py:140-143 | the table after adding the step to each key in turn; `NTuple.BumpedWeight` and `NTuple.BumpedElsewhere` state it key by key |
| `NTuple.BumpedElsewhere` | ntuple.py:140-143 | a key that is not among the trained board's keys keeps its entry (present or absent) and its weight |
| `NTuple.BumpedTupleSum` | ntuple.py:132-143 | the update moves the trained board's table score in the direction of the step: up for a positive step, down for a negative one |
| `NTuple.NTupleAgent.UpdateLookupTable` | ntuple.py:132-143 | the new table is the old one with every key of the untransformed board raised, in pattern order, by learning rate × (reward + discount × value of the next board − value of the board) |
| `NTuple.NTupleAgent.AddToKeys` | ntuple.py:140-143 | the loop adds the step to each key in turn |
| `NTuple.GreedyNoneIffGameOver` | ntuple.py:147-160 | with board-changing moves allowed, the greedy choice is `None` exactly when the game is over |
| `NTuple.NTupleAgent.Consider` | ntuple.py:150-158 | one pass of the loop: skip a move that leaves the board unchanged, otherwise take it when it is the first candidate or strictly better |
| `NTuple.NTupleAgent.GetBestMove` | ntuple.py:145-160 | the returned move is the greedy choice over board-changing moves by table value. With `Choice.GreedyChoice` and `NTuple.GreedyNoneIffGameOver`: `None` exactly when the game is over; otherwise a board-changing move of maximal value, the earliest among ties |
| `Expectimax.ExpectedAbove` | expectimax.py:31-37 | with non-negative probabilities, values of at least `lo` weigh in at least `lo` × the total probability |
| `Expectimax.ExpectedBelow` | expectimax.py:31-37 | with non-negative probabilities, values of at most `hi` weigh in at most `hi` × the total probability |
| `Expectimax.ExpectedBetween` | expectimax.py:31-37 | with probabilities adding up to 1, the weighted sum lies between any bounds of the values |
| `Expectimax.Search` | expectimax.py:12-37 | depth 0 is a leaf worth the score, and only a player turn with depth left returns a move. Its children (`Children`, `Chances`) are searched one level down with the turn handed over, and the depth is its termination measure |
| `Expectimax.Leaf` | expectimax.py:15-16 | at depth 0 or when the game is over, no move and the current score as the value |
| `Expectimax.Chances` | expectimax.py:33-35 | one player-turn value per chance outcome |
| `Expectimax.Children` | expectimax.py:21-25 | the value of each move: the move applied to the state, searched one level down as a chance turn |
| `Expectimax.MaxNodePicks` | expectimax.py:18-29 | on a live game with depth left, the max layer returns a move together with that move's child value |
| `Expectimax.MaxNodeIsMaximum` | expectimax.py:21-29 | every one of the four moves, no-op moves included, has a child value no greater than the max layer's value |
| `Expectimax.MaxNodeIsFirst` | expectimax.py:26-28 | every move before the chosen one in UP, DOWN, LEFT, RIGHT order has a strictly smaller child value |
| `Expectimax.ChanceNodeBetween` | expectimax.py:30-37 | the chance layer returns no move. With probabilities at least 0 that add up to 1, its value lies between any bounds of the outcomes' values |
| `Expectimax.NoGainPicksUp` | expectimax.py:21-29 | when no move scores, a one-level search on a live game picks UP, whether or not UP changes the board |
| `Expectimax.DepthOneMayChooseNoOp` | expectimax.py:21-29 | on `[[2,4,2,0],[4,2,4,0],[2,4,2,0],[4,2,4,0]]` RIGHT is the only legal move, yet a one-level search picks UP |
| `Expectimax.ExpectimaxAgent.constructor` | expectimax.py:5-6 | the agent keeps the given depth |
| `Expectimax.ExpectimaxAgent.GetAction` | expectimax.py:8-10 | the move component of a player-turn search at the agent's depth: `None` exactly at depth 0 or when the game is over, otherwise a move whose child value is the largest of the four |

## Left out

- The training and driver loop and all printing (ntuple.py:163-192, game.py:73-75). This is orchestration and I/O.
- Randomness. `random.choice` and `random.random` in `add_random_tile` become the parameters `pick` and `roll`. The 0.9/0.1 distribution itself is not modelled.
- Game.Game2048.constructor: models only `is_new_game=False` with an explicit board (the way the search builds children). The shared default board `np.zeros(...)` and the two random tiles of a new game are aliasing plus randomness, and are not modelled. An explicit board is aliased in the source (`self.board = board`) and copied here, so a later change to the caller's array does not reach the game.
- `is_game_over` as written raises, because it calls an undefined `move`. The model uses `Boards.IsGameOver`, which is true when no direction is legal; the defect is under Findings.
- `execute_player_move` (ntuple.py:151) is not part of this model. `get_best_move` is modelled as applying the intended `generate_move` (`Boards.Move`).
- `ExpectimaxAgent.evaluate` (expectimax.py:39-41) is an empty stub.
- `get_possible_tiles`, `add_tile_to_board` and `board` (expectimax.py:32-34) are not part of this model. The chance layer takes its (state, probability) outcomes from the `outcomes` parameter. It is modelled as intended: outcomes of the current state, each searched as a player turn one level down.
- Floating point. Weights, rates, averages and probabilities are exact `real`s, and `-inf` as the initial best value is modelled as "no move chosen yet".
- Integer width. Cells, scores and heuristics are unbounded integers; numpy's 64-bit overflow is not modelled.
- `defaultdict` inserting zero entries when a missing key is read. A missing key weighs 0 (`NTuple.Weight`) and reading leaves the table unchanged. Only the update adds entries.
- The default constructor arguments of `NTupleAgent` (0.1, 0.9, all flags off) are not modelled; the constructor takes them as parameters.
- A negative search depth, which never reaches depth 0 in the source. Depth is a `nat`.
- Direction names. `get_best_move` and `get_action` return a `Direction`, with `Boards.Name` giving the string the source uses.
- Game.GenerateMoveScoreAsWritten: models line 44 on its own; numpy's handling of the ragged list of tuples built at game.py:26-41 (an error on numpy 1.24 and later, an array of objects before) is not modelled. Game.ScoreNotAdvancedAsWritten states its example under the same reading.
- The search's child states use the intended `generate_move` score, so the score advances with the merges. As written, the returned score would never change (see Findings).

## Findings

| source | as written | input that shows it | evidently intended | confidence | as-written member | corrected member |
|---|---|---|---|---|---|---|
| game.py:26-41 | each comprehension keeps the whole `(row, score)` tuple as the new line; for RIGHT and DOWN, `[::-1]` reverses the tuple, not the row | RIGHT on a board whose first row is `[2,0,2,0]`: the line becomes `(4, [4,0,0,0])`. The list of such tuples never becomes a 4×4 board: numpy 1.24 and later raise `ValueError` on the ragged list, older numpy builds an array of objects | the line `[0,0,0,4]`, with the merge's 4 added to the score | high (not executed) | `Game.RightRowNotReversedAsWritten` | `Boards.ScenarioRight` |
| game.py:44 | returns `self.score`, discarding the scores `_compress_and_merge` computed | LEFT on `[[2,2,0,0],[0,0,0,0],[0,0,0,0],[0,0,0,0]]` with score 0 returns score 0. This shows only once the game.py:26-41 defect is fixed, or on numpy older than 1.24; on later numpy line 37 raises first | score 4: the base score plus the tiles the merges create | high (not executed) | `Game.ScoreNotAdvancedAsWritten` | `Boards.GenerateMove` |
| game.py:65 | `is_game_over` calls `temp_game.move(direction)`, which `Game2048` does not define | any board, e.g. the full board `[[2,4,2,4],[4,2,4,2],[2,4,2,4],[4,2,4,2]]` | true exactly when no direction changes the board; here the game is over | high (not executed) | `Game.GameOverAsWrittenRaises` | `Boards.FullBoardGameOverIff` |
