/**
 * The 4x4 board of 2048 and the move rules of `Game2048` (game.py):
 * every direction is reduced to the single-row rule of module Rows by
 * reversing rows and transposing the board, a move is legal when it
 * changes the board, and the game is over when no move is legal.
 */
module Boards {
  import opened Wrappers
  import opened Rows

  /** Four rows of four cells; `b[i][j]` is row i, column j. */
  type Board = b: seq<Row> | |b| == 4
    witness var z: Row := [0, 0, 0, 0]; [z, z, z, z]

  datatype Direction = Up | Down | Left | Right

  /** The order in which moves are enumerated (`get_possible_moves`). */
  const Moves: seq<Direction> := [Up, Down, Left, Right]

  /** A board with the score earned so far. */
  datatype GameState = GameState(board: Board, score: int)

  /** The error `generate_move` raises for a direction it does not know. */
  datatype MoveError = InvalidDirection(direction: string)

  // ---------------------------------------------------------------------
  // Reversal and transposition

  function Reverse(r: Row): Row
  {
    [r[3], r[2], r[1], r[0]]
  }

  function Column(b: Board, j: nat): Row
    requires j < 4
  {
    [b[0][j], b[1][j], b[2][j], b[3][j]]
  }

  function Transpose(b: Board): Board
  {
    [Column(b, 0), Column(b, 1), Column(b, 2), Column(b, 3)]
  }

  lemma TransposeInvolution(b: Board)
    ensures Transpose(Transpose(b)) == b
  {
    var t := Transpose(Transpose(b));
    assert t[0] == b[0] && t[1] == b[1] && t[2] == b[2] && t[3] == b[3];
  }

  // ---------------------------------------------------------------------
  // The four directions

  /** Each row slid to the left. */
  function SlideLeft(b: Board): Board
  {
    [SlideRow(b[0]), SlideRow(b[1]), SlideRow(b[2]), SlideRow(b[3])]
  }

  /** The row rule applied to the reversed row, reversed back. */
  function SlideRowRight(r: Row): Row
  {
    Reverse(SlideRow(Reverse(r)))
  }

  /** Each row slid to the right. */
  function SlideRight(b: Board): Board
  {
    [SlideRowRight(b[0]), SlideRowRight(b[1]), SlideRowRight(b[2]), SlideRowRight(b[3])]
  }

  function GainLeft(b: Board): int
  {
    RowGain(b[0]) + RowGain(b[1]) + RowGain(b[2]) + RowGain(b[3])
  }

  function GainRight(b: Board): int
  {
    RowGain(Reverse(b[0])) + RowGain(Reverse(b[1])) + RowGain(Reverse(b[2])) + RowGain(Reverse(b[3]))
  }

  /**
   * The board a move in direction `d` leaves, and the score it earns:
   * LEFT is the row rule on every row, RIGHT the row rule on reversed
   * rows, UP and DOWN are LEFT and RIGHT on the transposed board.
   */
  function ApplyMove(b: Board, d: Direction): (Board, int)
  {
    match d
    case Left => (SlideLeft(b), GainLeft(b))
    case Right => (SlideRight(b), GainRight(b))
    case Up => (Transpose(SlideLeft(Transpose(b))), GainLeft(Transpose(b)))
    case Down => (Transpose(SlideRight(Transpose(b))), GainRight(Transpose(b)))
  }

  /** The state after a move: the moved board, the score plus what the move earned. */
  function Move(s: GameState, d: Direction): GameState
  {
    GameState(ApplyMove(s.board, d).0, s.score + ApplyMove(s.board, d).1)
  }

  /** The name `get_possible_moves` uses for a direction. */
  function Name(d: Direction): string
  {
    match d
    case Up => "UP"
    case Down => "DOWN"
    case Left => "LEFT"
    case Right => "RIGHT"
  }

  /** The direction a name stands for; any other name is an error. */
  function ParseDirection(name: string): (r: Result<Direction, MoveError>)
    ensures r.Ok? ==> Name(r.value) == name
    ensures r.Err? ==> r.error == InvalidDirection(name) && forall d :: Name(d) != name
  {
    if name == "UP" then Ok(Up)
    else if name == "DOWN" then Ok(Down)
    else if name == "LEFT" then Ok(Left)
    else if name == "RIGHT" then Ok(Right)
    else Err(InvalidDirection(name))
  }

  lemma ParseName(d: Direction)
    ensures ParseDirection(Name(d)) == Ok(d)
  {
  }

  /**
   * `generate_move` as intended: the state after moving in the named
   * direction, or an error for a name that is not a direction.
   */
  function GenerateMove(s: GameState, direction: string): (r: Result<GameState, MoveError>)
    ensures r.Err? <==> (forall d :: Name(d) != direction)
    ensures r.Err? ==> r.error == InvalidDirection(direction)
    ensures r.Ok? ==> exists d :: Name(d) == direction && r.value == Move(s, d)
  {
    match ParseDirection(direction)
    case Ok(d) => Ok(Move(s, d))
    case Err(e) => Err(e)
  }

  // ---------------------------------------------------------------------
  // Legality and the end of the game

  /** A move is legal when it changes the board. */
  predicate Legal(b: Board, d: Direction)
  {
    ApplyMove(b, d).0 != b
  }

  /** The game is over when no direction changes the board. */
  predicate IsGameOver(b: Board)
  {
    !Legal(b, Up) && !Legal(b, Down) && !Legal(b, Left) && !Legal(b, Right)
  }

  // ---------------------------------------------------------------------
  // Whole-board quantities

  function BoardSum(b: Board): int
  {
    Sum(b[0]) + Sum(b[1]) + Sum(b[2]) + Sum(b[3])
  }

  /** Every cell is at least 0. */
  predicate NonNegative(b: Board)
  {
    NonNegativeRow(b[0]) && NonNegativeRow(b[1]) && NonNegativeRow(b[2]) && NonNegativeRow(b[3])
  }

  /** Every cell is empty or a tile 2, 4, 8, ... */
  predicate WellFormed(b: Board)
  {
    TileRow(b[0]) && TileRow(b[1]) && TileRow(b[2]) && TileRow(b[3])
  }

  /** No cell is empty. */
  predicate Full(b: Board)
  {
    FullRow(b[0]) && FullRow(b[1]) && FullRow(b[2]) && FullRow(b[3])
  }

  /** No row has two equal neighbours. */
  predicate NoRowPair(b: Board)
  {
    NoPairRow(b[0]) && NoPairRow(b[1]) && NoPairRow(b[2]) && NoPairRow(b[3])
  }

  /** No row and no column has two equal neighbours. */
  predicate NoNeighbourPair(b: Board)
  {
    NoRowPair(b) && NoRowPair(Transpose(b))
  }

  lemma SumOf4(r: Row)
    ensures Sum(r) == r[0] + r[1] + r[2] + r[3]
  {
    assert r[1..][1..][1..][1..] == [];
    assert Sum(r[3..]) == r[3] + Sum(r[4..]);
    assert Sum(r[2..]) == r[2] + Sum(r[3..]);
    assert Sum(r[1..]) == r[1] + Sum(r[2..]);
  }

  lemma SumReverse(r: Row)
    ensures Sum(Reverse(r)) == Sum(r)
  {
    SumOf4(r);
    SumOf4(Reverse(r));
  }

  lemma BoardSumCells(b: Board)
    ensures BoardSum(b) == b[0][0] + b[0][1] + b[0][2] + b[0][3] + b[1][0] + b[1][1] + b[1][2] + b[1][3]
                         + b[2][0] + b[2][1] + b[2][2] + b[2][3] + b[3][0] + b[3][1] + b[3][2] + b[3][3]
  {
    SumOf4(b[0]); SumOf4(b[1]); SumOf4(b[2]); SumOf4(b[3]);
  }

  lemma TransposeSum(b: Board)
    ensures BoardSum(Transpose(b)) == BoardSum(b)
  {
    BoardSumCells(b);
    BoardSumCells(Transpose(b));
  }

  lemma SlideLeftSum(b: Board)
    ensures BoardSum(SlideLeft(b)) == BoardSum(b)
  {
    SlideRowShape(b[0]); SlideRowShape(b[1]); SlideRowShape(b[2]); SlideRowShape(b[3]);
  }

  lemma SlideRowRightSum(r: Row)
    ensures Sum(SlideRowRight(r)) == Sum(r)
  {
    SumReverse(r);
    SlideRowShape(Reverse(r));
    SumReverse(SlideRow(Reverse(r)));
  }

  lemma SlideRightSum(b: Board)
    ensures BoardSum(SlideRight(b)) == BoardSum(b)
  {
    SlideRowRightSum(b[0]); SlideRowRightSum(b[1]); SlideRowRightSum(b[2]); SlideRowRightSum(b[3]);
  }

  /** A move only slides and combines tiles: the total of the cells is unchanged. */
  lemma MovePreservesTileSum(b: Board, d: Direction)
    ensures BoardSum(ApplyMove(b, d).0) == BoardSum(b)
  {
    match d
    case Left => SlideLeftSum(b);
    case Right => SlideRightSum(b);
    case Up =>
      TransposeSum(b);
      SlideLeftSum(Transpose(b));
      TransposeSum(SlideLeft(Transpose(b)));
    case Down =>
      TransposeSum(b);
      SlideRightSum(Transpose(b));
      TransposeSum(SlideRight(Transpose(b)));
  }

  lemma SlideLeftNonNegative(b: Board)
    requires NonNegative(b)
    ensures NonNegative(SlideLeft(b)) && GainLeft(b) >= 0
  {
    SlideRowNonNegative(b[0]); SlideRowNonNegative(b[1]);
    SlideRowNonNegative(b[2]); SlideRowNonNegative(b[3]);
  }

  lemma SlideRightNonNegative(b: Board)
    requires NonNegative(b)
    ensures NonNegative(SlideRight(b)) && GainRight(b) >= 0
  {
    SlideRowNonNegative(Reverse(b[0])); SlideRowNonNegative(Reverse(b[1]));
    SlideRowNonNegative(Reverse(b[2])); SlideRowNonNegative(Reverse(b[3]));
  }

  /** On a board without negative cells a move keeps the cells non-negative and never lowers the score. */
  lemma MoveNonNegative(b: Board, d: Direction)
    requires NonNegative(b)
    ensures NonNegative(ApplyMove(b, d).0)
    ensures ApplyMove(b, d).1 >= 0
  {
    match d
    case Left => SlideLeftNonNegative(b);
    case Right => SlideRightNonNegative(b);
    case Up =>
      TransposeNonNegative(b);
      SlideLeftNonNegative(Transpose(b));
      TransposeNonNegative(SlideLeft(Transpose(b)));
    case Down =>
      TransposeNonNegative(b);
      SlideRightNonNegative(Transpose(b));
      TransposeNonNegative(SlideRight(Transpose(b)));
  }

  lemma TransposeNonNegative(b: Board)
    requires NonNegative(b)
    ensures NonNegative(Transpose(b))
  {
  }

  lemma SlideLeftKeepsTiles(b: Board)
    requires WellFormed(b)
    ensures WellFormed(SlideLeft(b))
  {
    SlideRowKeepsTiles(b[0]); SlideRowKeepsTiles(b[1]);
    SlideRowKeepsTiles(b[2]); SlideRowKeepsTiles(b[3]);
  }

  lemma SlideRightKeepsTiles(b: Board)
    requires WellFormed(b)
    ensures WellFormed(SlideRight(b))
  {
    SlideRowKeepsTiles(Reverse(b[0])); SlideRowKeepsTiles(Reverse(b[1]));
    SlideRowKeepsTiles(Reverse(b[2])); SlideRowKeepsTiles(Reverse(b[3]));
  }

  /** A move keeps every cell empty or a power of two. */
  lemma MoveKeepsTiles(b: Board, d: Direction)
    requires WellFormed(b)
    ensures WellFormed(ApplyMove(b, d).0)
  {
    match d
    case Left => SlideLeftKeepsTiles(b);
    case Right => SlideRightKeepsTiles(b);
    case Up => SlideLeftKeepsTiles(Transpose(b));
    case Down => SlideRightKeepsTiles(Transpose(b));
  }

  // ---------------------------------------------------------------------
  // The end of the game on a full board

  lemma FullRowRightUnchangedIff(r: Row)
    requires FullRow(r)
    ensures SlideRowRight(r) == r <==> NoPairRow(r)
  {
    var v := Reverse(r);
    FullRowUnchangedIff(v);
    assert Reverse(v) == r;
    if SlideRowRight(r) == r {
      assert SlideRow(v) == Reverse(SlideRowRight(r));
    }
  }

  lemma SlideLeftUnchangedIff(b: Board)
    requires Full(b)
    ensures SlideLeft(b) == b <==> NoRowPair(b)
  {
    FullRowUnchangedIff(b[0]); FullRowUnchangedIff(b[1]);
    FullRowUnchangedIff(b[2]); FullRowUnchangedIff(b[3]);
    if SlideLeft(b) == b {
      assert SlideLeft(b)[0] == SlideRow(b[0]) && SlideLeft(b)[1] == SlideRow(b[1]);
      assert SlideLeft(b)[2] == SlideRow(b[2]) && SlideLeft(b)[3] == SlideRow(b[3]);
    }
  }

  lemma SlideRightUnchangedIff(b: Board)
    requires Full(b)
    ensures SlideRight(b) == b <==> NoRowPair(b)
  {
    FullRowRightUnchangedIff(b[0]); FullRowRightUnchangedIff(b[1]);
    FullRowRightUnchangedIff(b[2]); FullRowRightUnchangedIff(b[3]);
    if SlideRight(b) == b {
      assert SlideRight(b)[0] == SlideRowRight(b[0]) && SlideRight(b)[1] == SlideRowRight(b[1]);
      assert SlideRight(b)[2] == SlideRowRight(b[2]) && SlideRight(b)[3] == SlideRowRight(b[3]);
    }
  }

  lemma TransposeInjective(a: Board, b: Board)
    ensures Transpose(a) == Transpose(b) <==> a == b
  {
    if Transpose(a) == Transpose(b) {
      TransposeInvolution(a);
      TransposeInvolution(b);
    }
  }

  /**
   * On a board with no empty cell, the game is over exactly when no row
   * and no column has two equal neighbours.
   */
  lemma FullBoardGameOverIff(b: Board)
    requires Full(b)
    ensures IsGameOver(b) <==> NoNeighbourPair(b)
  {
    var t := Transpose(b);
    assert Full(t);
    SlideLeftUnchangedIff(b);
    SlideRightUnchangedIff(b);
    SlideLeftUnchangedIff(t);
    SlideRightUnchangedIff(t);
    TransposeInvolution(b);
    TransposeInjective(SlideLeft(t), t);
    TransposeInjective(SlideRight(t), t);
  }

  // ---------------------------------------------------------------------
  // The end of the game on a board with an empty cell

  /** The row holds an empty cell and a tile. */
  predicate MixedRow(r: Row)
  {
    (exists k :: 0 <= k < 4 && r[k] == 0) && (exists k :: 0 <= k < 4 && r[k] != 0)
  }

  lemma OccupiedOf4(r: Row)
    ensures Occupied(r) == (if r[0] != 0 then 1 else 0) + (if r[1] != 0 then 1 else 0)
                         + (if r[2] != 0 then 1 else 0) + (if r[3] != 0 then 1 else 0)
  {
    assert r[1..][1..][1..][1..] == [];
    assert Occupied(r[3..]) == (if r[3] != 0 then 1 else 0) + Occupied(r[4..]);
    assert Occupied(r[2..]) == (if r[2] != 0 then 1 else 0) + Occupied(r[3..]);
    assert Occupied(r[1..]) == (if r[1] != 0 then 1 else 0) + Occupied(r[2..]);
  }

  /**
   * The row rule on a mixed row puts a tile in the first cell and leaves
   * the last cell empty.
   */
  lemma MixedRowSlides(r: Row)
    requires MixedRow(r)
    ensures SlideRow(r)[0] != 0 && SlideRow(r)[3] == 0
  {
    OccupiedOf4(r);
    assert 0 < Occupied(r) < 4;
    assert 2 * Merges(NonZero(r)) <= Occupied(r);
    SlideRowShape(r);
  }

  /** A row holding an empty cell and a tile is changed by LEFT or by RIGHT. */
  lemma MixedRowMoves(r: Row)
    requires MixedRow(r)
    ensures SlideRow(r) != r || SlideRowRight(r) != r
  {
    MixedRowSlides(r);
    var v := Reverse(r);
    assert MixedRow(v) by {
      var i :| 0 <= i < 4 && r[i] == 0;
      var j :| 0 <= j < 4 && r[j] != 0;
      assert v[3 - i] == 0 && v[3 - j] != 0;
    }
    MixedRowSlides(v);
    assert SlideRowRight(r)[3] == SlideRow(v)[0];
  }

  /** A mixed row makes LEFT or RIGHT legal. */
  lemma MixedRowLegal(b: Board, i: nat)
    requires i < 4 && MixedRow(b[i])
    ensures Legal(b, Left) || Legal(b, Right)
  {
    MixedRowMoves(b[i]);
    assert SlideLeft(b)[i] == SlideRow(b[i]) && SlideRight(b)[i] == SlideRowRight(b[i]);
  }

  /** A mixed column makes UP or DOWN legal. */
  lemma MixedColumnLegal(b: Board, j: nat)
    requires j < 4 && MixedRow(Column(b, j))
    ensures Legal(b, Up) || Legal(b, Down)
  {
    var t := Transpose(b);
    assert t[j] == Column(b, j);
    MixedRowLegal(t, j);
    TransposeInvolution(b);
    TransposeInjective(SlideLeft(t), t);
    TransposeInjective(SlideRight(t), t);
  }

  /**
   * A board with an empty cell and at least one tile is not over: the
   * empty cell's row, or the tile's column, holds both, so a horizontal
   * or a vertical move changes it.
   */
  lemma OpenBoardNotOver(b: Board)
    requires !Full(b)
    requires exists i, j :: 0 <= i < 4 && 0 <= j < 4 && b[i][j] != 0
    ensures !IsGameOver(b)
  {
    var i0: nat := if !FullRow(b[0]) then 0 else if !FullRow(b[1]) then 1 else if !FullRow(b[2]) then 2 else 3;
    var j0: nat := if b[i0][0] == 0 then 0 else if b[i0][1] == 0 then 1 else if b[i0][2] == 0 then 2 else 3;
    assert b[i0][j0] == 0;
    var i1, j1 :| 0 <= i1 < 4 && 0 <= j1 < 4 && b[i1][j1] != 0;
    if b[i0][j1] != 0 {
      assert MixedRow(b[i0]);
      MixedRowLegal(b, i0);
    } else {
      assert Column(b, j1)[i0] == 0 && Column(b, j1)[i1] != 0;
      MixedColumnLegal(b, j1);
    }
  }

  /** The all-empty board has no legal move although it is not full. */
  lemma EmptyBoardOver()
    ensures var z: Row := [0, 0, 0, 0];
            !Full([z, z, z, z]) && IsGameOver([z, z, z, z])
  {
    var z: Row := [0, 0, 0, 0];
    EmptyRow();
    assert Reverse(z) == z;
    assert Transpose([z, z, z, z]) == [z, z, z, z];
  }

  // ---------------------------------------------------------------------
  // Empty cells and tile placement

  /** Row-major position of a cell. */
  function Flat(c: (nat, nat)): nat
  {
    4 * c.0 + c.1
  }

  /** The empty cells of `b` at row-major positions `k` and later, in row-major order. */
  function EmptyFrom(b: Board, k: nat): (cells: seq<(nat, nat)>)
    requires k <= 16
    decreases 16 - k
    ensures forall n :: 0 <= n < |cells| ==> cells[n].0 < 4 && cells[n].1 < 4 && b[cells[n].0][cells[n].1] == 0
  {
    if k == 16 then []
    else
      var c: (nat, nat) := (k / 4, k % 4);
      if b[c.0][c.1] == 0 then [c] + EmptyFrom(b, k + 1) else EmptyFrom(b, k + 1)
  }

  /** Every cell `EmptyFrom(b, k)` lists lies at position `k` or later. */
  lemma {:induction false} EmptyFromAfter(b: Board, k: nat)
    requires k <= 16
    decreases 16 - k
    ensures forall n :: 0 <= n < |EmptyFrom(b, k)| ==> k <= Flat(EmptyFrom(b, k)[n])
  {
    if k < 16 {
      EmptyFromAfter(b, k + 1);
    }
  }

  /** Every zero cell at position `k` or later is listed by `EmptyFrom(b, k)`. */
  lemma {:induction false} EmptyFromComplete(b: Board, k: nat)
    requires k <= 16
    decreases 16 - k
    ensures forall i: nat, j: nat :: i < 4 && j < 4 && k <= 4 * i + j && b[i][j] == 0 ==> (i, j) in EmptyFrom(b, k)
  {
    if k < 16 {
      EmptyFromComplete(b, k + 1);
      forall i: nat, j: nat | i < 4 && j < 4 && k <= 4 * i + j && b[i][j] == 0
        ensures (i, j) in EmptyFrom(b, k)
      {
        if 4 * i + j == k {
          assert (i, j) == (k / 4, k % 4);
        }
      }
    }
  }

  /** `EmptyFrom(b, k)` is in strictly increasing row-major order. */
  lemma {:induction false} EmptyFromSorted(b: Board, k: nat)
    requires k <= 16
    decreases 16 - k
    ensures forall n, m :: 0 <= n < m < |EmptyFrom(b, k)| ==> Flat(EmptyFrom(b, k)[n]) < Flat(EmptyFrom(b, k)[m])
  {
    if k < 16 {
      EmptyFromSorted(b, k + 1);
      EmptyFromAfter(b, k + 1);
      assert Flat((k / 4, k % 4)) == k;
    }
  }

  /**
   * The empty cells of `b` in row-major order (`np.where(board == 0)`);
   * `EmptyCellsExact` states that they are exactly the zero cells, each once.
   */
  function EmptyCells(b: Board): (cells: seq<(nat, nat)>)
    ensures forall n :: 0 <= n < |cells| ==> cells[n].0 < 4 && cells[n].1 < 4 && b[cells[n].0][cells[n].1] == 0
  {
    EmptyFrom(b, 0)
  }

  /** The empty cells are exactly the zero cells of the board, each listed once. */
  lemma EmptyCellsExact(b: Board)
    ensures forall i: nat, j: nat :: i < 4 && j < 4 ==> (b[i][j] == 0 <==> (i, j) in EmptyCells(b))
    ensures forall n, m :: 0 <= n < m < |EmptyCells(b)| ==> EmptyCells(b)[n] != EmptyCells(b)[m]
  {
    EmptyFromComplete(b, 0);
    EmptyFromSorted(b, 0);
  }

  /** `b` with cell `c` set to `v`. */
  function PlaceTile(b: Board, c: (nat, nat), v: int): Board
    requires c.0 < 4 && c.1 < 4
  {
    b[c.0 := b[c.0][c.1 := v]]
  }

  /** Placing a tile sets cell `c` to `v` and keeps every other cell. */
  lemma PlaceTileCells(b: Board, c: (nat, nat), v: int)
    requires c.0 < 4 && c.1 < 4
    ensures PlaceTile(b, c, v)[c.0][c.1] == v
    ensures forall i, j :: 0 <= i < 4 && 0 <= j < 4 && (i, j) != c ==> PlaceTile(b, c, v)[i][j] == b[i][j]
  {
  }

  lemma {:induction false} PlaceTileEmptyFrom(b: Board, c: (nat, nat), v: int, k: nat)
    requires c.0 < 4 && c.1 < 4 && b[c.0][c.1] == 0 && v != 0
    requires k <= 16
    decreases 16 - k
    ensures |EmptyFrom(PlaceTile(b, c, v), k)| == |EmptyFrom(b, k)| - (if k <= Flat(c) then 1 else 0)
  {
    if k < 16 {
      PlaceTileEmptyFrom(b, c, v, k + 1);
      var p := PlaceTile(b, c, v);
      if k == Flat(c) {
        assert (k / 4, k % 4) == c;
        assert p[c.0][c.1] == v;
      } else {
        assert (k / 4, k % 4) != c;
        assert p[k / 4][k % 4] == b[k / 4][k % 4];
      }
    }
  }

  /**
   * Placing a tile on an empty cell fills exactly that cell: one empty
   * cell fewer, the tile's value added to the board, everything else kept.
   */
  lemma PlaceTileFillsOneCell(b: Board, c: (nat, nat), v: int)
    requires c in EmptyCells(b) && v != 0
    ensures |EmptyCells(PlaceTile(b, c, v))| == |EmptyCells(b)| - 1
    ensures BoardSum(PlaceTile(b, c, v)) == BoardSum(b) + v
  {
    PlaceTileEmptyFrom(b, c, v, 0);
    PlaceTileSum(b, c, v);
  }

  lemma PlaceTileSum(b: Board, c: (nat, nat), v: int)
    requires c.0 < 4 && c.1 < 4 && b[c.0][c.1] == 0
    ensures BoardSum(PlaceTile(b, c, v)) == BoardSum(b) + v
  {
    var r := PlaceTile(b, c, v);
    SumOf4(b[c.0]);
    SumOf4(r[c.0]);
    assert forall i :: 0 <= i < 4 && i != c.0 ==> r[i] == b[i];
  }

  /** The value `add_random_tile` writes for the uniform draw `roll`: 2 below 0.9, else 4. */
  function SpawnValue(roll: real): (v: int)
    ensures v == 2 || v == 4
    ensures v == 2 <==> roll < 0.9
  {
    if roll < 0.9 then 2 else 4
  }

  // ---------------------------------------------------------------------
  // Worked moves

  lemma ScenarioLeft()
    ensures var b: Board := [[2, 2, 0, 0], [0, 0, 0, 0], [0, 0, 0, 0], [0, 0, 0, 0]];
            ApplyMove(b, Left) == ([[4, 0, 0, 0], [0, 0, 0, 0], [0, 0, 0, 0], [0, 0, 0, 0]], 4)
  {
    EmptyRow();
    PairRow();
  }

  lemma ScenarioRight()
    ensures var b: Board := [[2, 0, 2, 0], [0, 0, 0, 0], [0, 0, 0, 0], [0, 0, 0, 0]];
            ApplyMove(b, Right) == ([[0, 0, 0, 4], [0, 0, 0, 0], [0, 0, 0, 0], [0, 0, 0, 0]], 4)
  {
    EmptyRow();
    SplitPairRow();
    var z: Row := [0, 0, 0, 0];
    assert Reverse(z) == z;
    assert Reverse([2, 0, 2, 0]) == [0, 2, 0, 2];
    assert Reverse([4, 0, 0, 0]) == [0, 0, 0, 4];
  }
}
