/**
 * The `Game2048` object of game.py: a 4x4 board buffer updated in place
 * and the score. Moves are computed on a snapshot of the board (module
 * Boards); only `AddRandomTile` writes to the buffer. The random draws
 * of `add_random_tile` are parameters: `pick`, the position of the
 * chosen cell in the list of empty cells, and `roll`, the uniform draw
 * in [0, 1) that decides between 2 and 4.
 */
module Game {
  import opened Wrappers
  import opened Rows
  import opened Boards

  class Game2048 {
    var board: array2<int>
    var score: int

    ghost predicate Valid()
      reads this
    {
      board.Length0 == 4 && board.Length1 == 4
    }

    function RowAt(i: nat): Row
      reads this, board
      requires Valid() && i < 4
    {
      [board[i, 0], board[i, 1], board[i, 2], board[i, 3]]
    }

    /** A snapshot of the board buffer. */
    function Cells(): Board
      reads this, board
      requires Valid()
    {
      [RowAt(0), RowAt(1), RowAt(2), RowAt(3)]
    }

    function State(): GameState
      reads this, board
      requires Valid()
    {
      GameState(Cells(), score)
    }

    /** `Game2048(board, score, is_new_game=False)`: a game holding a copy of `b`. */
    constructor (b: Board, s: int)
      ensures Valid() && fresh(board)
      ensures State() == GameState(b, s)
    {
      board := new int[4, 4]((i, j) => if 0 <= i < 4 && 0 <= j < 4 then b[i][j] else 0);
      score := s;
      new;
      assert RowAt(0) == b[0] && RowAt(1) == b[1] && RowAt(2) == b[2] && RowAt(3) == b[3];
    }

    /**
     * `_compress_and_merge`: the row rule with the score accumulated on
     * top of the game's score. Returns the row of module Rows' rule (the
     * merged tiles, then zeros) and the game's score plus the value of
     * every tile the merges create.
     */
    method CompressAndMerge(row: Row) returns (newRow: seq<int>, newScore: int)
      ensures newRow == SlideRow(row)
      ensures newScore == score + RowGain(row)
    {
      var tiles := NonZero(row);
      assert |tiles| <= 4;
      var merged: seq<int> := [];
      var i := 0;
      var base := score;
      newScore := base;
      while i < |tiles|
        invariant 0 <= i <= |tiles|
        invariant merged + MergeTiles(tiles[i..]) == MergeTiles(tiles)
        invariant newScore + Gain(tiles[i..]) == base + Gain(tiles)
      {
        if i < |tiles| - 1 && tiles[i] == tiles[i + 1] {
          ScanStep(tiles, i, merged);
          merged := merged + [tiles[i] * 2];
          newScore := newScore + tiles[i] * 2;
          i := i + 2;
        } else {
          ScanStep(tiles, i, merged);
          merged := merged + [tiles[i]];
          i := i + 1;
        }
      }
      assert tiles[i..] == [];
      assert merged == MergeTiles(tiles);
      newRow := Pad(merged, 4);
    }

    /**
     * `generate_move` as intended: works on a snapshot, so the board and
     * the score of the game are left as they were (no `modifies`).
     */
    method GenerateMove(direction: string) returns (r: Result<GameState, MoveError>)
      requires Valid()
      ensures r == Boards.GenerateMove(State(), direction)
      ensures r.Err? <==> forall d :: Name(d) != direction
    {
      r := Boards.GenerateMove(State(), direction);
    }

    /**
     * `add_random_tile`: when some cell is empty, the `pick`-th empty cell
     * in row-major order receives 2 (when `roll` < 0.9) or 4; with no
     * empty cell nothing changes.
     */
    method AddRandomTile(pick: nat, roll: real)
      requires Valid()
      requires EmptyCells(Cells()) != [] ==> pick < |EmptyCells(Cells())|
      modifies board
      ensures Valid() && score == old(score)
      ensures old(EmptyCells(Cells())) == [] ==> Cells() == old(Cells())
      ensures old(EmptyCells(Cells())) != [] ==>
                Cells() == PlaceTile(old(Cells()), old(EmptyCells(Cells()))[pick], SpawnValue(roll))
    {
      var empty := EmptyCells(Cells());
      if empty != [] {
        var value := if roll < 0.9 then 2 else 4;
        SetCell(empty[pick], value);
      }
    }

    /** Writes `v` into cell `c` of the buffer; the board read back is `PlaceTile` of the old one. */
    method SetCell(c: (nat, nat), v: int)
      requires Valid() && c.0 < 4 && c.1 < 4
      modifies board
      ensures Valid()
      ensures Cells() == PlaceTile(old(Cells()), c, v)
    {
      ghost var row0, row1, row2, row3 := RowAt(0), RowAt(1), RowAt(2), RowAt(3);
      board[c.0, c.1] := v;
      if c.0 == 0 {
        assert RowAt(1) == row1 && RowAt(2) == row2 && RowAt(3) == row3;
        assert RowAt(0) == row0[c.1 := v];
      } else if c.0 == 1 {
        assert RowAt(0) == row0 && RowAt(2) == row2 && RowAt(3) == row3;
        assert RowAt(1) == row1[c.1 := v];
      } else if c.0 == 2 {
        assert RowAt(0) == row0 && RowAt(1) == row1 && RowAt(3) == row3;
        assert RowAt(2) == row2[c.1 := v];
      } else {
        assert RowAt(0) == row0 && RowAt(1) == row1 && RowAt(2) == row2;
        assert RowAt(3) == row3[c.1 := v];
      }
    }

    /** `get_possible_moves`: the four direction names, in the order UP, DOWN, LEFT, RIGHT. */
    static function GetPossibleMoves(): (names: seq<string>)
      ensures |names| == 4
      ensures forall k :: 0 <= k < 4 ==> ParseDirection(names[k]) == Ok(Moves[k])
    {
      ["UP", "DOWN", "LEFT", "RIGHT"]
    }
  }

  /**
   * One step of the scan of `_compress_and_merge` at position `i`: what
   * remains to be scanned, appended to what was produced so far, is the
   * same before and after the step.
   */
  lemma ScanStep(tiles: seq<int>, i: nat, merged: seq<int>)
    requires i < |tiles|
    ensures i < |tiles| - 1 && tiles[i] == tiles[i + 1] ==>
              merged + MergeTiles(tiles[i..]) == (merged + [tiles[i] * 2]) + MergeTiles(tiles[i + 2..]) &&
              Gain(tiles[i..]) == tiles[i] * 2 + Gain(tiles[i + 2..])
    ensures !(i < |tiles| - 1 && tiles[i] == tiles[i + 1]) ==>
              merged + MergeTiles(tiles[i..]) == (merged + [tiles[i]]) + MergeTiles(tiles[i + 1..]) &&
              Gain(tiles[i..]) == Gain(tiles[i + 1..])
  {
    var rest := tiles[i..];
    if MergesHead(rest) {
      assert rest[2..] == tiles[i + 2..];
    } else {
      assert rest[1..] == tiles[i + 1..];
    }
  }

  // -----------------------------------------------------------------------
  // Defects of game.py as written, each beside the intended rule above.

  /** One entry of the tuple `_compress_and_merge` returns: the row, or the score. */
  datatype Component = RowPart(cells: seq<int>) | ScorePart(total: int)

  /** The `(row, score)` tuple `_compress_and_merge` returns for `row` on a game with score `score`. */
  function MergeTuple(row: Row, score: int): seq<Component>
  {
    [RowPart(SlideRow(row)), ScorePart(score + RowGain(row))]
  }

  /**
   * What the comprehensions of `generate_move` produce for one line, as
   * written: the whole tuple is taken for the new line, and for RIGHT and
   * DOWN `[::-1]` reverses the tuple instead of the row.
   */
  function LineAsWritten(row: Row, score: int, d: Direction): seq<Component>
  {
    match d
    case Left => MergeTuple(row, score)
    case Up => MergeTuple(row, score)
    case Right => var t := MergeTuple(Reverse(row), score); [t[1], t[0]]
    case Down => var t := MergeTuple(Reverse(row), score); [t[1], t[0]]
  }

  /**
   * As written, every line is a two-entry tuple rather than four cells,
   * and for RIGHT and DOWN its first entry is the score.
   */
  lemma LineAsWrittenIsTuple(row: Row, score: int, d: Direction)
    ensures |LineAsWritten(row, score, d)| == 2 != 4
    ensures d == Right || d == Down ==> LineAsWritten(row, score, d)[0].ScorePart?
  {
  }

  /**
   * On the row [2, 0, 2, 0] moved RIGHT, the row inside the as-written
   * tuple is [4, 0, 0, 0], never reversed back, while the intended rule
   * gives [0, 0, 0, 4].
   */
  lemma RightRowNotReversedAsWritten()
    ensures LineAsWritten([2, 0, 2, 0], 0, Right) == [ScorePart(4), RowPart([4, 0, 0, 0])]
    ensures SlideRowRight([2, 0, 2, 0]) == [0, 0, 0, 4]
  {
    SplitPairRow();
    assert Reverse([2, 0, 2, 0]) == [0, 2, 0, 2];
    assert Reverse([4, 0, 0, 0]) == [0, 0, 0, 4];
  }

  /**
   * The score line 44 of `generate_move` returns as written, taken on its
   * own (as if the lines above it had built a board): the game's score,
   * whatever the move merged.
   */
  function GenerateMoveScoreAsWritten(s: GameState, direction: string): Result<int, MoveError>
  {
    match ParseDirection(direction)
    case Ok(_) => Ok(s.score)
    case Err(e) => Err(e)
  }

  /**
   * Moving [[2, 2, 0, 0], 0...] LEFT merges a 4, but the score line 44
   * returns as written stays 0 while the intended move adds 4.
   */
  lemma ScoreNotAdvancedAsWritten()
    ensures var s := GameState([[2, 2, 0, 0], [0, 0, 0, 0], [0, 0, 0, 0], [0, 0, 0, 0]], 0);
            GenerateMoveScoreAsWritten(s, "LEFT") == Ok(0) &&
            GenerateMove(s, "LEFT").Ok? && GenerateMove(s, "LEFT").value.score == 4
  {
    ScenarioLeft();
  }

  /** The error `is_game_over` raises as written. */
  datatype GameError = MissingMethod(name: string)

  /**
   * `is_game_over` as written: the first iteration calls `move`, which
   * `Game2048` does not define, so it raises on every board.
   */
  function IsGameOverAsWritten(b: Board): Result<bool, GameError>
  {
    Err(MissingMethod("move"))
  }

  /**
   * A full board without equal neighbours is over under the intended
   * rule, while the as-written check raises instead of answering.
   */
  lemma GameOverAsWrittenRaises()
    ensures var b: Board := [[2, 4, 2, 4], [4, 2, 4, 2], [2, 4, 2, 4], [4, 2, 4, 2]];
            IsGameOverAsWritten(b).Err? && IsGameOver(b)
  {
    var b: Board := [[2, 4, 2, 4], [4, 2, 4, 2], [2, 4, 2, 4], [4, 2, 4, 2]];
    assert Full(b) && NoNeighbourPair(b);
    FullBoardGameOverIff(b);
  }
}
