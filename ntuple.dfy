/**
 * The n-tuple agent: a lookup table of weights keyed by the tile values of
 * four fixed 6-cell patterns, averaged over optional symmetric views of the
 * board, trained by temporal-difference updates and used for a greedy
 * one-move look-ahead. The hand-written board heuristics (empty cells,
 * monotonicity, smoothness, largest tile) supply the reward.
 */
module NTuple {
  import opened Wrappers
  import opened Rows
  import opened Boards
  import opened Choice

  // ---------------------------------------------------------------------
  // Patterns

  /** The tile values read by one 6-cell pattern: a key of the lookup table. */
  type Key = seq<int>

  /** Weights of the keys seen so far; an absent key weighs 0. */
  type Table = map<Key, real>

  function Weight(t: Table, k: Key): real
  {
    if k in t then t[k] else 0.0
  }

  /** The board cells (row, column) each of the four patterns reads, in key order. */
  const Coordinates: seq<seq<(nat, nat)>> :=
    [[(0, 0), (0, 1), (0, 2), (0, 3), (1, 0), (1, 1)],
     [(0, 0), (0, 1), (0, 2), (0, 3), (1, 0), (1, 2)],
     [(0, 0), (0, 1), (0, 2), (1, 0), (1, 2), (1, 3)],
     [(0, 0), (0, 1), (0, 2), (1, 0), (1, 1), (1, 2)]]

  /** The four pattern keys of a board. */
  function ExtractTuples(b: Board): (keys: seq<Key>)
    ensures |keys| == 4
    ensures forall k :: 0 <= k < 4 ==> |keys[k]| == 6
  {
    [[b[0][0], b[0][1], b[0][2], b[0][3], b[1][0], b[1][1]],
     [b[0][0], b[0][1], b[0][2], b[0][3], b[1][0], b[1][2]],
     [b[0][0], b[0][1], b[0][2], b[1][0], b[1][2], b[1][3]],
     [b[0][0], b[0][1], b[0][2], b[1][0], b[1][1], b[1][2]]]
  }

  /** Entry `n` of key `k` is the cell `Coordinates[k][n]`, which lies in row 0 or 1. */
  lemma ExtractTuplesAtCoordinates(b: Board, k: nat, n: nat)
    requires k < 4 && n < 6
    ensures Coordinates[k][n].0 < 2 && Coordinates[k][n].1 < 4
    ensures ExtractTuples(b)[k][n] == b[Coordinates[k][n].0][Coordinates[k][n].1]
  {
  }

  /** The keys depend on the top two rows only. */
  lemma ExtractTuplesTopRows(b: Board, c: Board)
    requires b[0] == c[0] && b[1] == c[1]
    ensures ExtractTuples(b) == ExtractTuples(c)
  {
  }

  // ---------------------------------------------------------------------
  // Symmetric views

  /** `np.flip(board, axis=1)`: each row reversed. */
  function MirrorH(b: Board): Board
  {
    [Reverse(b[0]), Reverse(b[1]), Reverse(b[2]), Reverse(b[3])]
  }

  /** `np.flip(board, axis=0)`: the rows in reverse order. */
  function MirrorV(b: Board): Board
  {
    [b[3], b[2], b[1], b[0]]
  }

  /** `np.rot90(board)`: a quarter turn counter-clockwise, cell (i, j) taken from (j, 3 - i). */
  function Rot90(b: Board): Board
  {
    [[b[0][3], b[1][3], b[2][3], b[3][3]],
     [b[0][2], b[1][2], b[2][2], b[3][2]],
     [b[0][1], b[1][1], b[2][1], b[3][1]],
     [b[0][0], b[1][0], b[2][0], b[3][0]]]
  }

  /** `np.rot90(board, 3)`: a quarter turn clockwise, cell (i, j) taken from (3 - j, i). */
  function Rot270(b: Board): Board
  {
    [[b[3][0], b[2][0], b[1][0], b[0][0]],
     [b[3][1], b[2][1], b[1][1], b[0][1]],
     [b[3][2], b[2][2], b[1][2], b[0][2]],
     [b[3][3], b[2][3], b[1][3], b[0][3]]]
  }

  /** The rotations follow numpy's index formulas cell by cell. */
  lemma RotationCells(b: Board, i: nat, j: nat)
    requires i < 4 && j < 4
    ensures Rot90(b)[i][j] == b[j][3 - i]
    ensures Rot270(b)[i][j] == b[3 - j][i]
    ensures MirrorH(b)[i][j] == b[i][3 - j]
    ensures MirrorV(b)[i][j] == b[3 - i][j]
  {
  }

  lemma MirrorHInvolution(b: Board)
    ensures MirrorH(MirrorH(b)) == b
  {
    var m := MirrorH(MirrorH(b));
    assert m[0] == b[0] && m[1] == b[1] && m[2] == b[2] && m[3] == b[3];
  }

  lemma MirrorVInvolution(b: Board)
    ensures MirrorV(MirrorV(b)) == b
  {
  }

  /** A quarter turn each way cancels out, in either order. */
  lemma RotationsInverse(b: Board)
    ensures Rot90(Rot270(b)) == b
    ensures Rot270(Rot90(b)) == b
  {
    var p := Rot90(Rot270(b));
    assert p[0] == b[0] && p[1] == b[1] && p[2] == b[2] && p[3] == b[3];
    var q := Rot270(Rot90(b));
    assert q[0] == b[0] && q[1] == b[1] && q[2] == b[2] && q[3] == b[3];
  }

  /** `np.rot90(board, 3)` is three counter-clockwise quarter turns. */
  lemma Rot270IsThreeTurns(b: Board)
    ensures Rot270(b) == Rot90(Rot90(Rot90(b)))
  {
    var p := Rot90(Rot90(Rot90(b)));
    var r := Rot270(b);
    assert p[0] == r[0] && p[1] == r[1] && p[2] == r[2] && p[3] == r[3];
  }

  /** Which symmetric views the agent adds to the identity view. */
  datatype Symmetries = Symmetries(mirrorHorizontal: bool, mirrorVertical: bool, rotate90: bool, rotate270: bool)

  const NoSymmetries := Symmetries(false, false, false, false)

  function Enabled(f: Symmetries): nat
  {
    (if f.mirrorHorizontal then 1 else 0) + (if f.mirrorVertical then 1 else 0)
    + (if f.rotate90 then 1 else 0) + (if f.rotate270 then 1 else 0)
  }

  /** The views the agent averages over: the board itself, then each enabled transform in flag order. */
  function RotatedBoards(f: Symmetries, b: Board): seq<Board>
  {
    [b] + (if f.mirrorHorizontal then [MirrorH(b)] else [])
        + (if f.mirrorVertical then [MirrorV(b)] else [])
        + (if f.rotate90 then [Rot90(b)] else [])
        + (if f.rotate270 then [Rot270(b)] else [])
  }

  /**
   * The identity view comes first and one view follows per enabled flag;
   * every view is the board or one of the four transforms of it.
   */
  lemma RotatedBoardsShape(f: Symmetries, b: Board)
    ensures |RotatedBoards(f, b)| == 1 + Enabled(f)
    ensures RotatedBoards(f, b)[0] == b
    ensures forall v :: v in RotatedBoards(f, b) ==>
              v == b || (f.mirrorHorizontal && v == MirrorH(b)) || (f.mirrorVertical && v == MirrorV(b))
              || (f.rotate90 && v == Rot90(b)) || (f.rotate270 && v == Rot270(b))
  {
  }

  // ---------------------------------------------------------------------
  // Table evaluation

  /** The total weight of a list of keys, summed front to back. */
  function WeightSum(t: Table, keys: seq<Key>): real
  {
    if keys == [] then 0.0 else WeightSum(t, keys[..|keys| - 1]) + Weight(t, keys[|keys| - 1])
  }

  lemma WeightSumOfFour(t: Table, keys: seq<Key>)
    requires |keys| == 4
    ensures WeightSum(t, keys) == Weight(t, keys[0]) + Weight(t, keys[1]) + Weight(t, keys[2]) + Weight(t, keys[3])
  {
    var k3, k2, k1 := keys[..3], keys[..2], keys[..1];
    assert k3[..2] == k2 && k2[..1] == k1 && k1[..0] == [];
    assert WeightSum(t, k1) == Weight(t, keys[0]);
    assert WeightSum(t, k2) == WeightSum(t, k1) + Weight(t, keys[1]);
    assert WeightSum(t, k3) == WeightSum(t, k2) + Weight(t, keys[2]);
  }

  /** The table's score for one view: the weights of its four pattern keys. */
  function TupleSum(t: Table, b: Board): real
  {
    WeightSum(t, ExtractTuples(b))
  }

  /** The per-view scores of a list of views, in order. */
  function Scores(t: Table, views: seq<Board>): (s: seq<real>)
    ensures |s| == |views|
  {
    if views == [] then [] else Scores(t, views[..|views| - 1]) + [TupleSum(t, views[|views| - 1])]
  }

  function RealSum(xs: seq<real>): real
  {
    if xs == [] then 0.0 else RealSum(xs[..|xs| - 1]) + xs[|xs| - 1]
  }

  /** The estimated value of a board: the mean of the per-view scores. */
  function BoardValue(t: Table, f: Symmetries, b: Board): real
  {
    var views := RotatedBoards(f, b);
    RealSum(Scores(t, views)) / (|views| as real)
  }

  lemma ScoresOfTwo(t: Table, u: Board, v: Board)
    ensures Scores(t, [u]) == [TupleSum(t, u)]
    ensures RealSum(Scores(t, [u])) == TupleSum(t, u)
    ensures RealSum(Scores(t, [u, v])) == TupleSum(t, u) + TupleSum(t, v)
  {
    assert [u][..0] == [] && [u, v][..1] == [u];
    var s1 := [TupleSum(t, u)];
    assert s1[..0] == [];
    var s2 := [TupleSum(t, u), TupleSum(t, v)];
    assert Scores(t, [u, v]) == s2;
    assert s2[..1] == s1;
  }

  /** Without symmetries the value is the plain sum of the four pattern weights. */
  lemma BoardValueNoSymmetries(t: Table, b: Board)
    ensures var keys := ExtractTuples(b);
            BoardValue(t, NoSymmetries, b) == Weight(t, keys[0]) + Weight(t, keys[1]) + Weight(t, keys[2]) + Weight(t, keys[3])
  {
    WeightSumOfFour(t, ExtractTuples(b));
    assert RotatedBoards(NoSymmetries, b) == [b];
    ScoresOfTwo(t, b, b);
  }

  lemma {:induction false} ScoresEmptyTable(views: seq<Board>)
    ensures RealSum(Scores(map[], views)) == 0.0
  {
    if views != [] {
      ScoresEmptyTable(views[..|views| - 1]);
      WeightSumOfFour(map[], ExtractTuples(views[|views| - 1]));
      var s := Scores(map[], views);
      assert s[..|s| - 1] == Scores(map[], views[..|views| - 1]);
    }
  }

  /** An empty table values every board at 0. */
  lemma BoardValueEmptyTable(f: Symmetries, b: Board)
    ensures BoardValue(map[], f, b) == 0.0
  {
    ScoresEmptyTable(RotatedBoards(f, b));
  }

  /**
   * With only the horizontal mirror enabled, averaging over the board and
   * its mirror makes the value blind to that mirror: a board and its
   * mirror image are valued alike.
   */
  lemma MirrorHValueInvariant(t: Table, b: Board)
    ensures var f := Symmetries(true, false, false, false);
            BoardValue(t, f, MirrorH(b)) == BoardValue(t, f, b)
  {
    var f := Symmetries(true, false, false, false);
    MirrorHInvolution(b);
    var m := MirrorH(b);
    assert RotatedBoards(f, b) == [b, m];
    assert RotatedBoards(f, m) == [m, b];
    ScoresOfTwo(t, b, m);
    ScoresOfTwo(t, m, b);
  }

  // ---------------------------------------------------------------------
  // Heuristics

  function Abs(x: int): nat
  {
    if x < 0 then -x else x
  }

  function Min(x: int, y: int): int
  {
    if x <= y then x else y
  }

  function Max(x: int, y: int): int
  {
    if x >= y then x else y
  }

  /** The upward steps among the first `n` neighbour pairs of a line. */
  function Rise(l: Row, n: nat): int
    requires n <= 3
  {
    if n == 0 then 0 else Rise(l, n - 1) + Max(0, l[n] - l[n - 1])
  }

  /** The downward steps among the first `n` neighbour pairs of a line. */
  function Fall(l: Row, n: nat): int
    requires n <= 3
  {
    if n == 0 then 0 else Fall(l, n - 1) + Max(0, l[n - 1] - l[n])
  }

  /** The jumps between the first `n` neighbour pairs of a line. */
  function Jumps(l: Row, n: nat): int
    requires n <= 3
  {
    if n == 0 then 0 else Jumps(l, n - 1) + Abs(l[n - 1] - l[n])
  }

  /** A line's monotonicity penalty: the smaller of its total rise and total fall. */
  function Penalty(l: Row): int
  {
    Min(Rise(l, 3), Fall(l, 3))
  }

  function Roughness(l: Row): int
  {
    Jumps(l, 3)
  }

  /** The sum of `g` over the first `n` rows of `b`. */
  function LinesTotal(g: Row -> int, b: Board, n: nat): int
    requires n <= 4
  {
    if n == 0 then 0 else LinesTotal(g, b, n - 1) + g(b[n - 1])
  }

  /** `monotonicity`: minus the penalties of all rows and all columns. */
  function Mono(b: Board): int
  {
    -(LinesTotal(Penalty, b, 4) + LinesTotal(Penalty, Transpose(b), 4))
  }

  /** `smoothness`: minus the jumps along all rows and all columns. */
  function Smooth(b: Board): int
  {
    -(LinesTotal(Roughness, b, 4) + LinesTotal(Roughness, Transpose(b), 4))
  }

  predicate Monotone(l: Row)
  {
    (l[0] <= l[1] && l[1] <= l[2] && l[2] <= l[3]) || (l[0] >= l[1] && l[1] >= l[2] && l[2] >= l[3])
  }

  predicate Even(l: Row)
  {
    l[0] == l[1] && l[1] == l[2] && l[2] == l[3]
  }

  /** Every row and every column is non-decreasing or non-increasing. */
  predicate AllMonotone(b: Board)
  {
    var t := Transpose(b);
    Monotone(b[0]) && Monotone(b[1]) && Monotone(b[2]) && Monotone(b[3])
    && Monotone(t[0]) && Monotone(t[1]) && Monotone(t[2]) && Monotone(t[3])
  }

  /** Every pair of neighbouring cells, in every row and every column, is equal. */
  predicate Level(b: Board)
  {
    var t := Transpose(b);
    Even(b[0]) && Even(b[1]) && Even(b[2]) && Even(b[3])
    && Even(t[0]) && Even(t[1]) && Even(t[2]) && Even(t[3])
  }

  /** The three neighbour pairs of a line, written out. */
  lemma LineSteps(l: Row)
    ensures Rise(l, 3) == Max(0, l[1] - l[0]) + Max(0, l[2] - l[1]) + Max(0, l[3] - l[2])
    ensures Fall(l, 3) == Max(0, l[0] - l[1]) + Max(0, l[1] - l[2]) + Max(0, l[2] - l[3])
    ensures Jumps(l, 3) == Abs(l[0] - l[1]) + Abs(l[1] - l[2]) + Abs(l[2] - l[3])
  {
    assert Rise(l, 1) == Max(0, l[1] - l[0]);
    assert Fall(l, 1) == Max(0, l[0] - l[1]);
    assert Jumps(l, 1) == Abs(l[0] - l[1]);
  }

  lemma PenaltyZeroIff(l: Row)
    ensures Penalty(l) >= 0
    ensures Penalty(l) == 0 <==> Monotone(l)
  {
    LineSteps(l);
  }

  lemma RoughnessZeroIff(l: Row)
    ensures Roughness(l) >= 0
    ensures Roughness(l) == 0 <==> Even(l)
  {
    LineSteps(l);
  }

  /** A sum of four non-negative line scores is zero exactly when each one is. */
  lemma TotalOfFour(g: Row -> int, b: Board)
    requires g(b[0]) >= 0 && g(b[1]) >= 0 && g(b[2]) >= 0 && g(b[3]) >= 0
    ensures LinesTotal(g, b, 4) >= 0
    ensures LinesTotal(g, b, 4) == 0 <==> g(b[0]) == 0 && g(b[1]) == 0 && g(b[2]) == 0 && g(b[3]) == 0
  {
    assert LinesTotal(g, b, 1) == g(b[0]);
    assert LinesTotal(g, b, 2) == g(b[0]) + g(b[1]);
    assert LinesTotal(g, b, 3) == g(b[0]) + g(b[1]) + g(b[2]);
  }

  /** `monotonicity` never rewards: it is at most 0, and 0 exactly when every line is monotone. */
  lemma MonoZeroIff(b: Board)
    ensures Mono(b) <= 0
    ensures Mono(b) == 0 <==> AllMonotone(b)
  {
    var t := Transpose(b);
    PenaltyZeroIff(b[0]); PenaltyZeroIff(b[1]); PenaltyZeroIff(b[2]); PenaltyZeroIff(b[3]);
    PenaltyZeroIff(t[0]); PenaltyZeroIff(t[1]); PenaltyZeroIff(t[2]); PenaltyZeroIff(t[3]);
    TotalOfFour(Penalty, b);
    TotalOfFour(Penalty, t);
  }

  /** `smoothness` is at most 0, and 0 exactly when all neighbouring cells are equal. */
  lemma SmoothZeroIff(b: Board)
    ensures Smooth(b) <= 0
    ensures Smooth(b) == 0 <==> Level(b)
  {
    var t := Transpose(b);
    RoughnessZeroIff(b[0]); RoughnessZeroIff(b[1]); RoughnessZeroIff(b[2]); RoughnessZeroIff(b[3]);
    RoughnessZeroIff(t[0]); RoughnessZeroIff(t[1]); RoughnessZeroIff(t[2]); RoughnessZeroIff(t[3]);
    TotalOfFour(Roughness, b);
    TotalOfFour(Roughness, t);
  }

  function MaxOfRow(r: Row): (m: int)
    ensures m == r[0] || m == r[1] || m == r[2] || m == r[3]
    ensures r[0] <= m && r[1] <= m && r[2] <= m && r[3] <= m
  {
    Max(Max(r[0], r[1]), Max(r[2], r[3]))
  }

  /** `np.max(board)`: the largest cell. */
  function MaxTile(b: Board): (m: int)
    ensures forall i, j :: 0 <= i < 4 && 0 <= j < 4 ==> b[i][j] <= m
    ensures exists i, j :: 0 <= i < 4 && 0 <= j < 4 && b[i][j] == m
  {
    var m := Max(Max(MaxOfRow(b[0]), MaxOfRow(b[1])), Max(MaxOfRow(b[2]), MaxOfRow(b[3])));
    assert m == MaxOfRow(b[0]) || m == MaxOfRow(b[1]) || m == MaxOfRow(b[2]) || m == MaxOfRow(b[3]);
    m
  }

  /** The number of empty cells, `len(np.where(board == 0)[0])`. */
  function EmptyCount(b: Board): nat
  {
    |EmptyCells(b)|
  }

  /** The hand-written reward of a board (`evaluate`). */
  function Evaluate(b: Board): real
  {
    2.5 * (EmptyCount(b) as real) + 1.2 * (Mono(b) as real) + 0.8 * (Smooth(b) as real) + (MaxTile(b) as real)
  }

  /**
   * The reward is bounded by its two positive terms, the empty cells and
   * the largest tile, and reaches that bound exactly on a level board.
   */
  lemma EvaluateBound(b: Board)
    ensures Evaluate(b) <= 2.5 * (EmptyCount(b) as real) + (MaxTile(b) as real)
    ensures Evaluate(b) == 2.5 * (EmptyCount(b) as real) + (MaxTile(b) as real) <==> Level(b)
  {
    MonoZeroIff(b);
    SmoothZeroIff(b);
    if Level(b) {
      var t := Transpose(b);
      assert Monotone(b[0]) && Monotone(b[1]) && Monotone(b[2]) && Monotone(b[3]);
      assert Monotone(t[0]) && Monotone(t[1]) && Monotone(t[2]) && Monotone(t[3]);
    }
  }

  // ---------------------------------------------------------------------
  // Heuristic loops

  /** `monotonicity`, accumulated row by row and then column by column. */
  method Monotonicity(b: Board) returns (m: int)
    ensures m == Mono(b)
  {
    var total := 0;
    for r := 0 to 4
      invariant total == LinesTotal(Penalty, b, r)
    {
      var row := b[r];
      var increasing, decreasing := 0, 0;
      for i := 0 to 3
        invariant increasing == Rise(row, i) && decreasing == Fall(row, i)
      {
        increasing := increasing + Max(0, row[i + 1] - row[i]);
        decreasing := decreasing + Max(0, row[i] - row[i + 1]);
      }
      total := total + Min(increasing, decreasing);
    }
    var columns := Transpose(b);
    for c := 0 to 4
      invariant total == LinesTotal(Penalty, b, 4) + LinesTotal(Penalty, columns, c)
    {
      var col := columns[c];
      var increasing, decreasing := 0, 0;
      for i := 0 to 3
        invariant increasing == Rise(col, i) && decreasing == Fall(col, i)
      {
        increasing := increasing + Max(0, col[i + 1] - col[i]);
        decreasing := decreasing + Max(0, col[i] - col[i + 1]);
      }
      total := total + Min(increasing, decreasing);
    }
    m := -total;
  }

  /** `smoothness`, decreased by every jump along the rows and then the columns. */
  method Smoothness(b: Board) returns (score: int)
    ensures score == Smooth(b)
  {
    score := 0;
    for r := 0 to 4
      invariant score == -LinesTotal(Roughness, b, r)
    {
      var row := b[r];
      for i := 0 to 3
        invariant score == -LinesTotal(Roughness, b, r) - Jumps(row, i)
      {
        score := score - Abs(row[i] - row[i + 1]);
      }
    }
    var columns := Transpose(b);
    for c := 0 to 4
      invariant score == -LinesTotal(Roughness, b, 4) - LinesTotal(Roughness, columns, c)
    {
      var col := columns[c];
      for i := 0 to 3
        invariant score == -LinesTotal(Roughness, b, 4) - LinesTotal(Roughness, columns, c) - Jumps(col, i)
      {
        score := score - Abs(col[i] - col[i + 1]);
      }
    }
  }

  // ---------------------------------------------------------------------
  // Temporal-difference update

  /** The temporal-difference error of the step from `b` to `next`. */
  function TdError(t: Table, f: Symmetries, discount: real, b: Board, next: Board): real
  {
    (Evaluate(b) + discount * BoardValue(t, f, next)) - BoardValue(t, f, b)
  }

  /** The change `update_lookup_table` makes to each trained weight: the learning rate times the TD error. */
  function TdStep(t: Table, f: Symmetries, rate: real, discount: real, b: Board, next: Board): real
  {
    rate * TdError(t, f, discount, b, next)
  }

  /** `t` after adding `delta` to the weight of each key in turn (a repeated key gains it repeatedly). */
  function Bumped(t: Table, keys: seq<Key>, delta: real): Table
  {
    if keys == [] then t
    else
      var before := Bumped(t, keys[..|keys| - 1], delta);
      var k := keys[|keys| - 1];
      before[k := Weight(before, k) + delta]
  }

  /** How many times `k` occurs in `keys`. */
  function Occurrences(keys: seq<Key>, k: Key): nat
  {
    if keys == [] then 0
    else Occurrences(keys[..|keys| - 1], k) + (if keys[|keys| - 1] == k then 1 else 0)
  }

  /** A key occurs at least once exactly when it is one of `keys`. */
  lemma {:induction false} OccurrencesPositive(keys: seq<Key>, k: Key)
    ensures Occurrences(keys, k) > 0 <==> k in keys
  {
    if keys != [] {
      var init, last := keys[..|keys| - 1], keys[|keys| - 1];
      OccurrencesPositive(init, k);
      assert keys == init + [last];
    }
  }

  /** `n` copies of `x` added up. */
  function Times(n: nat, x: real): real
  {
    if n == 0 then 0.0 else Times(n - 1, x) + x
  }

  /** Repeated addition is multiplication. */
  lemma {:induction false} TimesIsProduct(n: nat, x: real)
    ensures Times(n, x) == (n as real) * x
  {
    if n > 0 {
      TimesIsProduct(n - 1, x);
      assert (n as real) * x == ((n - 1) as real) * x + x;
    }
  }

  /** At least one copy of `x` has the sign of `x`. */
  lemma {:induction false} TimesSign(n: nat, x: real)
    requires n > 0
    ensures x > 0.0 ==> Times(n, x) > 0.0
    ensures x < 0.0 ==> Times(n, x) < 0.0
    ensures x == 0.0 ==> Times(n, x) == 0.0
  {
    if n > 1 {
      TimesSign(n - 1, x);
    }
  }

  /** Copies add up. */
  lemma {:induction false} TimesAdd(m: nat, n: nat, x: real)
    ensures Times(m + n, x) == Times(m, x) + Times(n, x)
    decreases n
  {
    if n > 0 {
      TimesAdd(m, n - 1, x);
    }
  }

  /** Each key gains `delta` once per occurrence in `keys`. */
  lemma {:induction false} BumpedWeight(t: Table, keys: seq<Key>, delta: real, k: Key)
    ensures Weight(Bumped(t, keys, delta), k) == Weight(t, k) + Times(Occurrences(keys, k), delta)
  {
    if keys != [] {
      var init, last := keys[..|keys| - 1], keys[|keys| - 1];
      BumpedWeight(t, init, delta, k);
      var before := Bumped(t, init, delta);
      var after := before[last := Weight(before, last) + delta];
      assert Bumped(t, keys, delta) == after;
    }
  }

  /** A key outside `keys` keeps its entry, present or absent, and its weight. */
  lemma {:induction false} BumpedElsewhere(t: Table, keys: seq<Key>, delta: real, k: Key)
    requires k !in keys
    ensures k in Bumped(t, keys, delta) <==> k in t
    ensures k in t ==> Bumped(t, keys, delta)[k] == t[k]
  {
    if keys != [] {
      var init, last := keys[..|keys| - 1], keys[|keys| - 1];
      assert keys == init + [last];
      BumpedElsewhere(t, init, delta, k);
    }
  }

  /** The number of times the keys of `probe`, taken one by one, occur in `keys`. */
  function Hits(probe: seq<Key>, keys: seq<Key>): nat
  {
    if probe == [] then 0
    else Hits(probe[..|probe| - 1], keys) + Occurrences(keys, probe[|probe| - 1])
  }

  /** Summing over `probe` after the update adds `delta` once per hit. */
  lemma {:induction false} BumpedWeightSum(t: Table, keys: seq<Key>, delta: real, probe: seq<Key>)
    ensures WeightSum(Bumped(t, keys, delta), probe) == WeightSum(t, probe) + Times(Hits(probe, keys), delta)
  {
    if probe != [] {
      var init, last := probe[..|probe| - 1], probe[|probe| - 1];
      BumpedWeightSum(t, keys, delta, init);
      BumpedWeight(t, keys, delta, last);
      TimesAdd(Hits(init, keys), Occurrences(keys, last), delta);
    }
  }

  /** Every key of `keys` hits itself, so `keys` scores at least one hit per entry. */
  lemma {:induction false} HitsSelf(probe: seq<Key>, keys: seq<Key>)
    requires forall n :: 0 <= n < |probe| ==> probe[n] in keys
    ensures Hits(probe, keys) >= |probe|
  {
    if probe != [] {
      var init, last := probe[..|probe| - 1], probe[|probe| - 1];
      HitsSelf(init, keys);
      OccurrencesPositive(keys, last);
    }
  }

  /**
   * The update moves the table's score of the trained board in the
   * direction of the step: up for a positive step, down for a negative one.
   */
  lemma BumpedTupleSum(t: Table, b: Board, delta: real)
    ensures var after := Bumped(t, ExtractTuples(b), delta);
            (delta > 0.0 ==> TupleSum(after, b) > TupleSum(t, b))
            && (delta < 0.0 ==> TupleSum(after, b) < TupleSum(t, b))
            && (delta == 0.0 ==> TupleSum(after, b) == TupleSum(t, b))
  {
    var keys := ExtractTuples(b);
    BumpedWeightSum(t, keys, delta, keys);
    HitsSelf(keys, keys);
    TimesSign(Hits(keys, keys), delta);
  }

  // ---------------------------------------------------------------------
  // Greedy move choice

  /** Whether each move changes `b`: the moves `get_best_move` considers. */
  function Moving(b: Board): Direction -> bool
  {
    d => Legal(b, d)
  }

  /** The table's value of the board each move leads to. */
  function Lookahead(t: Table, f: Symmetries, b: Board): Direction -> real
  {
    d => BoardValue(t, f, ApplyMove(b, d).0)
  }

  /** With the board-changing moves allowed, the greedy move is `None` exactly when the game is over. */
  lemma GreedyNoneIffGameOver(value: Direction -> real, b: Board)
    ensures Greedy(Moving(b), value) == None <==> IsGameOver(b)
  {
    GreedyChoice(Moving(b), value);
    var allowed := Moving(b);
    assert IsGameOver(b) <==> !allowed(Up) && !allowed(Down) && !allowed(Left) && !allowed(Right);
  }

  // ---------------------------------------------------------------------
  // The agent

  class NTupleAgent {
    const learningRate: real
    const discountFactor: real
    const symmetries: Symmetries
    var table: Table

    /** A fresh agent: every weight 0. */
    constructor (learningRate: real, discountFactor: real, symmetries: Symmetries)
      ensures this.learningRate == learningRate && this.discountFactor == discountFactor
      ensures this.symmetries == symmetries
      ensures table == map[]
    {
      this.learningRate := learningRate;
      this.discountFactor := discountFactor;
      this.symmetries := symmetries;
      table := map[];
    }

    /** The views to average over, built by appending one per enabled flag. */
    method GetRotatedBoards(b: Board) returns (views: seq<Board>)
      ensures |views| == 1 + Enabled(symmetries) && views[0] == b
      ensures views == RotatedBoards(symmetries, b)
    {
      views := [b];
      if symmetries.mirrorHorizontal {
        views := views + [MirrorH(b)];
      }
      if symmetries.mirrorVertical {
        views := views + [MirrorV(b)];
      }
      if symmetries.rotate90 {
        views := views + [Rot90(b)];
      }
      if symmetries.rotate270 {
        views := views + [Rot270(b)];
      }
    }

    /** `evaluate_board`: the per-view pattern weights summed, then averaged over the views. */
    method EvaluateBoard(b: Board) returns (value: real)
      ensures value == BoardValue(table, symmetries, b)
    {
      var views := GetRotatedBoards(b);
      var summed: seq<real> := [];
      for v := 0 to |views|
        invariant summed == Scores(table, views[..v])
      {
        var keys := ExtractTuples(views[v]);
        var acc := 0.0;
        for k := 0 to |keys|
          invariant acc == WeightSum(table, keys[..k])
        {
          assert keys[..k + 1][..k] == keys[..k];
          acc := acc + Weight(table, keys[k]);
        }
        assert keys[..|keys|] == keys;
        assert views[..v + 1][..v] == views[..v];
        summed := summed + [acc];
      }
      assert views[..|views|] == views;
      value := RealSum(summed) / (|summed| as real);
    }

    /**
     * `update_lookup_table`: one TD(0) step. Every pattern key of `b`
     * gains the learning rate times the TD error, once per pattern.
     */
    method UpdateLookupTable(b: Board, next: Board)
      modifies this
      ensures table == Bumped(old(table), ExtractTuples(b), TdStep(old(table), symmetries, learningRate, discountFactor, b, next))
    {
      var currentValue := EvaluateBoard(b);
      var nextValue := EvaluateBoard(next);
      var reward := Evaluate(b);
      var tdError := (reward + discountFactor * nextValue) - currentValue;
      assert learningRate * tdError == TdStep(table, symmetries, learningRate, discountFactor, b, next);
      AddToKeys(ExtractTuples(b), learningRate * tdError);
    }

    /** The loop of `update_lookup_table`: each key in turn gains `delta`. */
    method AddToKeys(keys: seq<Key>, delta: real)
      modifies this
      ensures table == Bumped(old(table), keys, delta)
    {
      for n := 0 to |keys|
        invariant table == Bumped(old(table), keys[..n], delta)
      {
        assert keys[..n + 1][..n] == keys[..n];
        table := table[keys[n] := Weight(table, keys[n]) + delta];
      }
      assert keys[..|keys|] == keys;
    }

    /**
     * One pass of the loop in `get_best_move`: the move `Moves[k]` replaces
     * the current choice when it changes the board and the table values the
     * board it leads to strictly higher than the current best.
     */
    method Consider(game: GameState, k: nat, best: Option<Direction>, bestValue: real)
      returns (best': Option<Direction>, bestValue': real)
      requires k < 4
      requires Pick(best, bestValue) == Scan(Moving(game.board), Lookahead(table, symmetries, game.board), k)
      ensures Pick(best', bestValue') == Scan(Moving(game.board), Lookahead(table, symmetries, game.board), k + 1)
    {
      var d := Moves[k];
      var newBoard := Move(game, d).board;
      best', bestValue' := best, bestValue;
      if newBoard != game.board {
        var value := EvaluateBoard(newBoard);
        if best == None || value > bestValue {
          best', bestValue' := Some(d), value;
        }
      }
    }

    /**
     * `get_best_move`: among the moves that change the board, the first
     * one whose resulting board the table values highest; `None` when no
     * move changes the board.
     */
    method GetBestMove(game: GameState) returns (best: Option<Direction>)
      ensures best == Greedy(Moving(game.board), Lookahead(table, symmetries, game.board))
    {
      best := None;
      var bestValue := 0.0;
      for k := 0 to 4
        invariant Pick(best, bestValue) == Scan(Moving(game.board), Lookahead(table, symmetries, game.board), k)
      {
        best, bestValue := Consider(game, k, best, bestValue);
      }
    }
  }
}
