/**
 * The choice loop shared by the n-tuple agent's `get_best_move` and the max
 * layer of expectimax: walk the moves in UP, DOWN, LEFT, RIGHT order, skip
 * the ones not allowed, and keep a move only when its value is strictly
 * greater than the best so far (the best so far starts at minus infinity,
 * here "no move yet").
 */
module Choice {
  import opened Wrappers
  import opened Boards

  /** The position of a direction in `Moves` (the order of `get_possible_moves`). */
  function Rank(d: Direction): (k: nat)
    ensures k < 4 && Moves[k] == d
  {
    match d
    case Up => 0
    case Down => 1
    case Left => 2
    case Right => 3
  }

  /** The running choice: the best move so far (`None` before any is kept) and its value. */
  datatype Pick = Pick(move: Option<Direction>, value: real)

  /**
   * The choice after the first `k` moves of `Moves`: a move that is not
   * allowed is skipped, and a later move replaces the current pick only
   * with a strictly greater value.
   */
  function Scan(allowed: Direction -> bool, value: Direction -> real, k: nat): (p: Pick)
    requires k <= 4
    ensures p.move.Some? ==> Rank(p.move.value) < k
  {
    if k == 0 then Pick(None, 0.0)
    else
      var p := Scan(allowed, value, k - 1);
      var d := Moves[k - 1];
      if !allowed(d) then p
      else if p.move == None || value(d) > p.value then Pick(Some(d), value(d))
      else p
  }

  /**
   * After the first `k` moves the scan has picked nothing exactly when none
   * of them is allowed; otherwise it has picked an allowed move with its
   * value, no allowed move among them has a greater value, and every
   * allowed move before the pick has a strictly smaller one.
   */
  lemma {:induction false} ScanPrefix(allowed: Direction -> bool, value: Direction -> real, k: nat)
    requires k <= 4
    ensures var p := Scan(allowed, value, k);
            (p.move == None <==> forall m :: 0 <= m < k ==> !allowed(Moves[m]))
            && (p.move.Some? ==> allowed(p.move.value) && p.value == value(p.move.value))
            && (p.move.Some? ==> forall m :: 0 <= m < k && allowed(Moves[m]) ==> value(Moves[m]) <= p.value)
            && (p.move.Some? ==> forall m :: 0 <= m < Rank(p.move.value) && allowed(Moves[m]) ==> value(Moves[m]) < p.value)
  {
    if k > 0 {
      ScanPrefix(allowed, value, k - 1);
    }
  }

  /** The move the loop returns: the scan over all four moves. */
  function Greedy(allowed: Direction -> bool, value: Direction -> real): Option<Direction>
  {
    Scan(allowed, value, 4).move
  }

  /**
   * The greedy move is `None` exactly when no move is allowed; otherwise it
   * is allowed, no allowed move has a greater value, and every allowed move
   * before it in UP, DOWN, LEFT, RIGHT order has a strictly smaller value.
   */
  lemma GreedyChoice(allowed: Direction -> bool, value: Direction -> real)
    ensures Greedy(allowed, value) == None <==> forall d :: !allowed(d)
    ensures Greedy(allowed, value).Some? ==> allowed(Greedy(allowed, value).value)
    ensures Greedy(allowed, value).Some? ==> forall d :: allowed(d) ==> value(d) <= value(Greedy(allowed, value).value)
    ensures Greedy(allowed, value).Some? ==> forall d :: allowed(d) && Rank(d) < Rank(Greedy(allowed, value).value) ==>
              value(d) < value(Greedy(allowed, value).value)
  {
    ScanPrefix(allowed, value, 4);
    var g := Greedy(allowed, value);
    if g == None {
      forall d
        ensures !allowed(d)
      {
        assert !allowed(Moves[Rank(d)]);
      }
    } else {
      assert allowed(Moves[Rank(g.value)]);
      forall d | allowed(d)
        ensures value(d) <= value(g.value)
      {
        assert allowed(Moves[Rank(d)]);
      }
      forall d | allowed(d) && Rank(d) < Rank(g.value)
        ensures value(d) < value(g.value)
      {
        assert allowed(Moves[Rank(d)]);
      }
    }
  }

  /** When UP is allowed and every allowed move ties with it, the choice is UP: ties go to the earliest move. */
  lemma TieGoesToUp(allowed: Direction -> bool, value: Direction -> real)
    requires allowed(Up)
    requires forall d :: allowed(d) ==> value(d) == value(Up)
    ensures Greedy(allowed, value) == Some(Up)
  {
    GreedyChoice(allowed, value);
  }
}
