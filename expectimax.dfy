/**
 * The expectimax agent: a depth-bounded search that alternates a max layer,
 * where the player tries all four moves, and a chance layer, where a tile
 * appears. The leaf value is the game score. The chance layer's outcomes
 * (which tiles may appear where, and how likely each is) are a parameter:
 * a function from a state to its list of (state, probability) outcomes.
 */
module Expectimax {
  import opened Wrappers
  import opened Boards
  import opened Choice
  import opened Rows

  /** One outcome of the chance layer: the state after a tile appears, and its probability. */
  datatype Outcome = Outcome(state: GameState, prob: real)

  /** The chance layer's outcomes for each state. */
  type Outcomes = GameState -> seq<Outcome>

  /** The max layer tries every move, including moves that leave the board unchanged. */
  predicate AnyMove(d: Direction)
  {
    true
  }

  // ---------------------------------------------------------------------
  // Probability-weighted sums

  /** The probabilities of `outs` added up. */
  function ProbSum(outs: seq<Outcome>): real
  {
    if outs == [] then 0.0 else ProbSum(outs[..|outs| - 1]) + outs[|outs| - 1].prob
  }

  /** The sum of probability times value, accumulated in list order from 0. */
  function Expected(outs: seq<Outcome>, vals: seq<real>): real
    requires |outs| == |vals|
  {
    if outs == [] then 0.0
    else Expected(outs[..|outs| - 1], vals[..|vals| - 1]) + outs[|outs| - 1].prob * vals[|vals| - 1]
  }

  /** Every probability is at least 0. */
  predicate NonNegativeProbs(outs: seq<Outcome>)
  {
    forall i :: 0 <= i < |outs| ==> outs[i].prob >= 0.0
  }

  /** With non-negative probabilities, values of at least `lo` weigh in at least `lo` times the total probability. */
  lemma {:induction false} ExpectedAbove(outs: seq<Outcome>, vals: seq<real>, lo: real)
    requires |outs| == |vals| && NonNegativeProbs(outs)
    requires forall i :: 0 <= i < |vals| ==> lo <= vals[i]
    ensures lo * ProbSum(outs) <= Expected(outs, vals)
  {
    if outs != [] {
      var n := |outs| - 1;
      var p, v := outs[n].prob, vals[n];
      ExpectedAbove(outs[..n], vals[..n], lo);
      assert p >= 0.0 && lo <= v;
      assert p * (v - lo) >= 0.0;
      assert lo * (ProbSum(outs[..n]) + p) == lo * ProbSum(outs[..n]) + lo * p;
    }
  }

  /** With non-negative probabilities, values of at most `hi` weigh in at most `hi` times the total probability. */
  lemma {:induction false} ExpectedBelow(outs: seq<Outcome>, vals: seq<real>, hi: real)
    requires |outs| == |vals| && NonNegativeProbs(outs)
    requires forall i :: 0 <= i < |vals| ==> vals[i] <= hi
    ensures Expected(outs, vals) <= hi * ProbSum(outs)
  {
    if outs != [] {
      var n := |outs| - 1;
      var p, v := outs[n].prob, vals[n];
      ExpectedBelow(outs[..n], vals[..n], hi);
      assert p >= 0.0 && v <= hi;
      assert p * (hi - v) >= 0.0;
      assert hi * (ProbSum(outs[..n]) + p) == hi * ProbSum(outs[..n]) + hi * p;
    }
  }

  /**
   * When the probabilities are non-negative and add up to 1, the expected
   * value lies between any lower and upper bound of the values.
   */
  lemma ExpectedBetween(outs: seq<Outcome>, vals: seq<real>, lo: real, hi: real)
    requires |outs| == |vals| && NonNegativeProbs(outs) && ProbSum(outs) == 1.0
    requires forall i :: 0 <= i < |vals| ==> lo <= vals[i] <= hi
    ensures lo <= Expected(outs, vals) <= hi
  {
    ExpectedAbove(outs, vals, lo);
    ExpectedBelow(outs, vals, hi);
  }

  // ---------------------------------------------------------------------
  // The search

  /**
   * `expectimax(game, depth, is_player_turn)`: the chosen move (none on a
   * chance turn or at a leaf) and the value. A leaf is depth 0 or a game
   * that is over; its value is the score. A player turn takes the first
   * strictly best of the four moves; a chance turn is the
   * probability-weighted sum over its outcomes. Each level lowers the depth
   * by one and hands the turn over.
   */
  function Search(s: GameState, depth: nat, playerTurn: bool, outcomes: Outcomes): (r: Pick)
    decreases depth, 1
    ensures depth == 0 ==> r == Pick(None, s.score as real)
    ensures r.move.Some? ==> playerTurn && depth > 0
  {
    if depth == 0 || IsGameOver(s.board) then Pick(None, s.score as real)
    else if playerTurn then Scan(AnyMove, Children(s, depth, outcomes), 4)
    else Pick(None, Expected(outcomes(s), Chances(s, depth, outcomes)))
  }

  /** A leaf, depth 0 or a game that is over, is worth its score, not a heuristic, and has no move. */
  lemma Leaf(s: GameState, depth: nat, playerTurn: bool, outcomes: Outcomes)
    requires depth == 0 || IsGameOver(s.board)
    ensures Search(s, depth, playerTurn, outcomes) == Pick(None, s.score as real)
  {
  }

  /** The value of the chance turn after each move from `s`, one level down. */
  function Children(s: GameState, depth: nat, outcomes: Outcomes): Direction -> real
    requires depth > 0
    decreases depth, 0
  {
    d => Search(Move(s, d), depth - 1, false, outcomes).value
  }

  /** The value of the player turn after each chance outcome of `s`, one level down. */
  function Chances(s: GameState, depth: nat, outcomes: Outcomes): (vals: seq<real>)
    requires depth > 0
    decreases depth, 0
    ensures |vals| == |outcomes(s)|
  {
    var outs := outcomes(s);
    seq(|outs|, i requires 0 <= i < |outs| => Search(outs[i].state, depth - 1, true, outcomes).value)
  }

  /**
   * The max layer: on a live game with depth left, the search picks a move
   * and takes that move's child value.
   */
  lemma MaxNodePicks(s: GameState, depth: nat, outcomes: Outcomes)
    requires depth > 0 && !IsGameOver(s.board)
    ensures var r := Search(s, depth, true, outcomes);
            r.move.Some? && r.value == Children(s, depth, outcomes)(r.move.value)
  {
    var child := Children(s, depth, outcomes);
    ScanPrefix(AnyMove, child, 4);
    assert AnyMove(Up);
  }

  /** The max layer's value is at least every move's child value, no-op moves included. */
  lemma MaxNodeIsMaximum(s: GameState, depth: nat, outcomes: Outcomes, d: Direction)
    requires depth > 0 && !IsGameOver(s.board)
    ensures Children(s, depth, outcomes)(d) <= Search(s, depth, true, outcomes).value
  {
    var child := Children(s, depth, outcomes);
    ScanPrefix(AnyMove, child, 4);
    assert AnyMove(Moves[Rank(d)]);
  }

  /** Every move before the max layer's pick in UP, DOWN, LEFT, RIGHT order has a strictly smaller child value. */
  lemma MaxNodeIsFirst(s: GameState, depth: nat, outcomes: Outcomes, d: Direction)
    requires depth > 0 && !IsGameOver(s.board)
    requires var r := Search(s, depth, true, outcomes); r.move.Some? && Rank(d) < Rank(r.move.value)
    ensures Children(s, depth, outcomes)(d) < Search(s, depth, true, outcomes).value
  {
    var child := Children(s, depth, outcomes);
    ScanPrefix(AnyMove, child, 4);
    assert AnyMove(Moves[Rank(d)]);
  }

  /**
   * The chance layer: no move, and when the outcome probabilities are
   * non-negative and add up to 1, a value between any bounds of the
   * outcomes' values.
   */
  lemma ChanceNodeBetween(s: GameState, depth: nat, outcomes: Outcomes, lo: real, hi: real)
    requires depth > 0 && !IsGameOver(s.board)
    requires NonNegativeProbs(outcomes(s)) && ProbSum(outcomes(s)) == 1.0
    requires forall o :: o in outcomes(s) ==> lo <= Search(o.state, depth - 1, true, outcomes).value <= hi
    ensures Search(s, depth, false, outcomes).move == None
    ensures lo <= Search(s, depth, false, outcomes).value <= hi
  {
    var outs, vals := outcomes(s), Chances(s, depth, outcomes);
    forall i | 0 <= i < |vals|
      ensures lo <= vals[i] <= hi
    {
      assert outs[i] in outs;
    }
    ExpectedBetween(outs, vals, lo, hi);
  }

  /** Three distinct-neighbour tiles slide to the left edge from either end of a row, without merging. */
  lemma PackedRow(x: int, y: int, z: int)
    requires x != 0 && y != 0 && z != 0 && x != y && y != z
    ensures SlideRow([x, y, z, 0]) == [x, y, z, 0] && RowGain([x, y, z, 0]) == 0
    ensures SlideRow([0, x, y, z]) == [x, y, z, 0] && RowGain([0, x, y, z]) == 0
  {
    var t := [x, y, z];
    assert Pad(t, 4) == [x, y, z, 0];
    NonZeroPadded(t, 4);
    NonZeroOfTiles(t);
    assert [0, x, y, z][1..] == t;
    assert Stable(t);
    MergeTilesStable(t);
  }

  /** A full row with distinct neighbours stays as it is and earns nothing. */
  lemma FullQuietRow(r: Row)
    requires FullRow(r) && NoPairRow(r)
    ensures SlideRow(r) == r && RowGain(r) == 0
  {
    FullRowUnchangedIff(r);
    NonZeroOfTiles(r);
    assert Stable(r);
    MergeTilesStable(r);
  }

  /** LEFT on the board of `DepthOneMayChooseNoOp`: every row is already packed, nothing merges. */
  lemma QuietLeft(b: Board)
    requires b == [[2, 4, 2, 0], [4, 2, 4, 0], [2, 4, 2, 0], [4, 2, 4, 0]]
    ensures ApplyMove(b, Left) == (b, 0)
  {
    PackedRow(2, 4, 2);
    PackedRow(4, 2, 4);
    assert SlideLeft(b) == b;
    assert GainLeft(b) == 0;
  }

  /** RIGHT on the board of `DepthOneMayChooseNoOp`: every row moves one cell right, nothing merges. */
  lemma QuietRight(b: Board)
    requires b == [[2, 4, 2, 0], [4, 2, 4, 0], [2, 4, 2, 0], [4, 2, 4, 0]]
    ensures ApplyMove(b, Right).0 != b && ApplyMove(b, Right).1 == 0
  {
    RightFirstRow(b);
    RightGain(b);
  }

  /** None of the reversed rows of that board merges. */
  lemma RightGain(b: Board)
    requires b == [[2, 4, 2, 0], [4, 2, 4, 0], [2, 4, 2, 0], [4, 2, 4, 0]]
    ensures GainRight(b) == 0
  {
    PackedRow(2, 4, 2);
    PackedRow(4, 2, 4);
    assert Reverse(b[0]) == [0, 2, 4, 2] && Reverse(b[2]) == [0, 2, 4, 2];
    assert Reverse(b[1]) == [0, 4, 2, 4] && Reverse(b[3]) == [0, 4, 2, 4];
  }

  /** The first row of that board, slid right, is no longer the same row. */
  lemma RightFirstRow(b: Board)
    requires b[0] == [2, 4, 2, 0]
    ensures SlideRight(b)[0] != b[0]
  {
    PackedRow(2, 4, 2);
    assert Reverse(b[0]) == [0, 2, 4, 2];
    assert SlideRowRight(b[0]) == Reverse([2, 4, 2, 0]) == [0, 2, 4, 2];
  }

  /** The columns of the board of `DepthOneMayChooseNoOp`. */
  lemma QuietColumns(b: Board)
    requires b == [[2, 4, 2, 0], [4, 2, 4, 0], [2, 4, 2, 0], [4, 2, 4, 0]]
    ensures Transpose(b) == [[2, 4, 2, 4], [4, 2, 4, 2], [2, 4, 2, 4], [0, 0, 0, 0]]
  {
  }

  /** UP on the board of `DepthOneMayChooseNoOp`: every column is full with distinct neighbours, or empty. */
  lemma QuietUp(b: Board)
    requires b == [[2, 4, 2, 0], [4, 2, 4, 0], [2, 4, 2, 0], [4, 2, 4, 0]]
    ensures ApplyMove(b, Up) == (b, 0)
  {
    var t := Transpose(b);
    QuietColumns(b);
    FullQuietRow(t[0]);
    FullQuietRow(t[1]);
    EmptyRow();
    assert SlideLeft(t) == t;
    assert GainLeft(t) == 0;
    TransposeInvolution(b);
  }

  /** DOWN on the board of `DepthOneMayChooseNoOp`: the reversed columns do not move or merge either. */
  lemma QuietDown(b: Board)
    requires b == [[2, 4, 2, 0], [4, 2, 4, 0], [2, 4, 2, 0], [4, 2, 4, 0]]
    ensures ApplyMove(b, Down) == (b, 0)
  {
    var t := Transpose(b);
    QuietColumns(b);
    assert Reverse(t[0]) == t[1] && Reverse(t[1]) == t[0] && Reverse(t[3]) == t[3];
    FullQuietRow(t[0]);
    FullQuietRow(t[1]);
    EmptyRow();
    assert SlideRight(t) == t;
    assert GainRight(t) == 0;
    TransposeInvolution(b);
  }

  /** The four moves on the board of `DepthOneMayChooseNoOp`: only RIGHT changes it, and none scores. */
  lemma QuietBoard(b: Board, d: Direction)
    requires b == [[2, 4, 2, 0], [4, 2, 4, 0], [2, 4, 2, 0], [4, 2, 4, 0]]
    ensures ApplyMove(b, d).1 == 0
    ensures ApplyMove(b, d).0 == b <==> d != Right
  {
    match d
    case Left => QuietLeft(b);
    case Right => QuietRight(b);
    case Up => QuietUp(b);
    case Down => QuietDown(b);
  }

  /** The board of `DepthOneMayChooseNoOp` is still in play. */
  lemma QuietNotOver(b: Board)
    requires b == [[2, 4, 2, 0], [4, 2, 4, 0], [2, 4, 2, 0], [4, 2, 4, 0]]
    ensures !IsGameOver(b)
  {
    QuietRight(b);
  }

  /**
   * A one-level search on a live game where no move scores: every child is
   * worth the current score, so the tie goes to the first move, UP, whether
   * or not UP changes the board.
   */
  lemma NoGainPicksUp(s: GameState, outcomes: Outcomes)
    requires !IsGameOver(s.board)
    requires forall d :: Move(s, d).score == s.score
    ensures Search(s, 1, true, outcomes).move == Some(Up)
  {
    var child := Children(s, 1, outcomes);
    forall d
      ensures child(d) == child(Up)
    {
      LeafChild(s, outcomes, d);
      LeafChild(s, outcomes, Up);
    }
    TieGoesToUp(AnyMove, child);
  }

  /** One level down from a player turn, a child is a leaf worth the score after the move. */
  lemma LeafChild(s: GameState, outcomes: Outcomes, d: Direction)
    ensures Children(s, 1, outcomes)(d) == Move(s, d).score as real
  {
  }

  /**
   * The max layer tries no-op moves too: on this board RIGHT is the only
   * move that changes anything and no move merges, yet a one-level search
   * chooses UP, which leaves the board as it is.
   */
  lemma DepthOneMayChooseNoOp(s: GameState, outcomes: Outcomes)
    requires s.board == [[2, 4, 2, 0], [4, 2, 4, 0], [2, 4, 2, 0], [4, 2, 4, 0]]
    ensures forall d :: Legal(s.board, d) <==> d == Right
    ensures Search(s, 1, true, outcomes).move == Some(Up)
  {
    forall d
      ensures Move(s, d).score == s.score
      ensures Legal(s.board, d) <==> d == Right
    {
      QuietBoard(s.board, d);
    }
    QuietNotOver(s.board);
    NoGainPicksUp(s, outcomes);
  }

  /** `ExpectimaxAgent`: the search depth is fixed when the agent is made. */
  class ExpectimaxAgent {
    const depth: nat

    constructor (depth: nat)
      ensures this.depth == depth
    {
      this.depth := depth;
    }

    /**
     * `get_action`: a player-turn search at the agent's depth, keeping only
     * the move. No move at depth 0 or when the game is over; otherwise a
     * move whose child value is the largest of the four.
     */
    method GetAction(game: GameState, outcomes: Outcomes) returns (action: Option<Direction>)
      ensures action == Search(game, depth, true, outcomes).move
      ensures action == None <==> depth == 0 || IsGameOver(game.board)
      ensures action.Some? ==> forall d ::
                Children(game, depth, outcomes)(d) <= Children(game, depth, outcomes)(action.value)
    {
      var r := Search(game, depth, true, outcomes);
      if depth > 0 && !IsGameOver(game.board) {
        MaxNodePicks(game, depth, outcomes);
        forall d
          ensures Children(game, depth, outcomes)(d) <= Children(game, depth, outcomes)(r.move.value)
        {
          MaxNodeIsMaximum(game, depth, outcomes, d);
        }
      }
      action := r.move;
    }
  }
}
