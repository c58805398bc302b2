/**
 * The single-row rule of 2048 (`_compress_and_merge`): drop the empty
 * cells, scan left to right merging the first pair of equal neighbours
 * once and skipping past it, then pad with empty cells to width four.
 * Every direction of a move is reduced to this rule.
 */
module Rows {

  /** One line of the board: four cells, 0 meaning empty. */
  type Row = r: seq<int> | |r| == 4 witness [0, 0, 0, 0]

  function Sum(s: seq<int>): int
  {
    if s == [] then 0 else s[0] + Sum(s[1..])
  }

  /** Number of non-empty cells of `s`. */
  function Occupied(s: seq<int>): (n: nat)
    ensures n <= |s|
  {
    if s == [] then 0 else (if s[0] != 0 then 1 else 0) + Occupied(s[1..])
  }

  /** The non-empty cells of `s`, in order (`row[row != 0]`). */
  function NonZero(s: seq<int>): (t: seq<int>)
    ensures |t| == Occupied(s)
  {
    if s == [] then []
    else if s[0] == 0 then NonZero(s[1..])
    else [s[0]] + NonZero(s[1..])
  }

  /** Dropping the empty cells keeps every tile and the sum, and leaves no empty cell. */
  lemma {:induction false} NonZeroTiles(s: seq<int>)
    ensures forall k :: 0 <= k < |NonZero(s)| ==> NonZero(s)[k] != 0
    ensures Sum(NonZero(s)) == Sum(s)
    ensures (forall k :: 0 <= k < |s| ==> s[k] >= 0) ==> forall k :: 0 <= k < |NonZero(s)| ==> NonZero(s)[k] > 0
  {
    if s != [] {
      NonZeroTiles(s[1..]);
      if s[0] != 0 {
        assert ([s[0]] + NonZero(s[1..]))[1..] == NonZero(s[1..]);
      }
    }
  }

  /** Merging tiles that are all non-empty (or all at least 0) leaves tiles that are so too. */
  lemma {:induction false} MergeTilesSign(t: seq<int>)
    ensures (forall k :: 0 <= k < |t| ==> t[k] != 0) ==> forall k :: 0 <= k < |MergeTiles(t)| ==> MergeTiles(t)[k] != 0
    ensures (forall k :: 0 <= k < |t| ==> t[k] >= 0) ==> forall k :: 0 <= k < |MergeTiles(t)| ==> MergeTiles(t)[k] >= 0
  {
    if t == [] {
    } else if MergesHead(t) {
      MergeTilesSign(t[2..]);
    } else {
      MergeTilesSign(t[1..]);
    }
  }

  /** Does the scan merge the first two tiles of `t`? */
  predicate MergesHead(t: seq<int>)
  {
    |t| >= 2 && t[0] == t[1]
  }

  /**
   * Number of merges the scan performs on `t`; every merge consumes two
   * tiles of the input, so a merged tile is never merged again.
   */
  function Merges(t: seq<int>): (n: nat)
    ensures 2 * n <= |t|
  {
    if t == [] then 0
    else if MergesHead(t) then 1 + Merges(t[2..])
    else Merges(t[1..])
  }

  /** The tiles left by the scan over `t` (before padding). */
  function MergeTiles(t: seq<int>): (m: seq<int>)
    ensures |m| == |t| - Merges(t)
  {
    if t == [] then []
    else if MergesHead(t) then [2 * t[0]] + MergeTiles(t[2..])
    else [t[0]] + MergeTiles(t[1..])
  }

  /** The score the scan earns on `t`: the sum of the tiles its merges create. */
  function Gain(t: seq<int>): int
  {
    if t == [] then 0
    else if MergesHead(t) then 2 * t[0] + Gain(t[2..])
    else Gain(t[1..])
  }

  /** `m` followed by empty cells up to width `n`. */
  function Pad(m: seq<int>, n: nat): (r: seq<int>)
    requires |m| <= n
    ensures |r| == n
  {
    m + seq(n - |m|, _ => 0)
  }

  /** The row rule: the row a LEFT move makes of `r`. */
  function SlideRow(r: Row): Row
  {
    Pad(MergeTiles(NonZero(r)), 4)
  }

  /** The score a LEFT move earns on `r`. */
  function RowGain(r: Row): int
  {
    Gain(NonZero(r))
  }

  /** Every cell of the row is at least 0. */
  predicate NonNegativeRow(r: Row)
  {
    r[0] >= 0 && r[1] >= 0 && r[2] >= 0 && r[3] >= 0
  }

  /** No cell of the row is empty. */
  predicate FullRow(r: Row)
  {
    r[0] != 0 && r[1] != 0 && r[2] != 0 && r[3] != 0
  }

  /** No two neighbouring cells of the row are equal. */
  predicate NoPairRow(r: Row)
  {
    r[0] != r[1] && r[1] != r[2] && r[2] != r[3]
  }

  /** No two neighbouring tiles of `t` are equal. */
  predicate Stable(t: seq<int>)
  {
    forall k :: 0 <= k < |t| - 1 ==> t[k] != t[k + 1]
  }

  // ---------------------------------------------------------------------
  // Sums

  lemma {:induction false} SumAppend(a: seq<int>, b: seq<int>)
    ensures Sum(a + b) == Sum(a) + Sum(b)
  {
    if a == [] {
      assert a + b == b;
    } else {
      assert (a + b)[1..] == a[1..] + b;
      SumAppend(a[1..], b);
    }
  }

  lemma {:induction false} SumZeros(n: nat)
    ensures Sum(seq(n, _ => 0)) == 0
  {
    if n > 0 {
      assert seq(n, _ => 0)[1..] == seq(n - 1, _ => 0);
      SumZeros(n - 1);
    }
  }

  lemma {:induction false} OccupiedAppend(a: seq<int>, b: seq<int>)
    ensures Occupied(a + b) == Occupied(a) + Occupied(b)
  {
    if a == [] {
      assert a + b == b;
    } else {
      assert (a + b)[1..] == a[1..] + b;
      OccupiedAppend(a[1..], b);
    }
  }

  lemma {:induction false} OccupiedZeros(n: nat)
    ensures Occupied(seq(n, _ => 0)) == 0
  {
    if n > 0 {
      assert seq(n, _ => 0)[1..] == seq(n - 1, _ => 0);
      OccupiedZeros(n - 1);
    }
  }

  lemma {:induction false} OccupiedAllNonZero(t: seq<int>)
    requires forall k :: 0 <= k < |t| ==> t[k] != 0
    ensures Occupied(t) == |t|
  {
    if t != [] {
      OccupiedAllNonZero(t[1..]);
    }
  }

  // ---------------------------------------------------------------------
  // Properties of the scan

  /** Merging moves value around but never creates or destroys it. */
  lemma {:induction false} MergeTilesSum(t: seq<int>)
    ensures Sum(MergeTiles(t)) == Sum(t)
  {
    if t == [] {
    } else if MergesHead(t) {
      MergeTilesSum(t[2..]);
      assert ([2 * t[0]] + MergeTiles(t[2..]))[1..] == MergeTiles(t[2..]);
      assert t[1..][1..] == t[2..];
    } else {
      MergeTilesSum(t[1..]);
      assert ([t[0]] + MergeTiles(t[1..]))[1..] == MergeTiles(t[1..]);
    }
  }

  /** The scan earns nothing exactly when it merges nothing, and never loses score on tiles >= 0. */
  lemma {:induction false} GainSign(t: seq<int>)
    requires forall k :: 0 <= k < |t| ==> t[k] > 0
    ensures Gain(t) >= 0
    ensures Gain(t) == 0 <==> Merges(t) == 0
  {
    if t == [] {
    } else if MergesHead(t) {
      GainSign(t[2..]);
    } else {
      GainSign(t[1..]);
    }
  }

  /** The scan merges something exactly when two neighbouring tiles are equal. */
  lemma {:induction false} MergesIffPair(t: seq<int>)
    ensures Merges(t) == 0 <==> Stable(t)
  {
    if t == [] {
    } else if MergesHead(t) {
    } else {
      MergesIffPair(t[1..]);
      if Stable(t[1..]) && |t| >= 2 {
        forall k | 0 <= k < |t| - 1 ensures t[k] != t[k + 1] {
          if k > 0 { assert t[k] == t[1..][k - 1] && t[k + 1] == t[1..][k]; }
        }
      }
      if Stable(t) {
        forall k | 0 <= k < |t[1..]| - 1 ensures t[1..][k] != t[1..][k + 1] {
          assert t[1..][k] == t[k + 1] && t[1..][k + 1] == t[k + 2];
        }
      }
    }
  }

  /** A scan over tiles with no equal neighbours leaves them as they are. */
  lemma {:induction false} MergeTilesStable(t: seq<int>)
    requires Stable(t)
    ensures MergeTiles(t) == t && Gain(t) == 0
  {
    if t != [] {
      assert !MergesHead(t);
      assert Stable(t[1..]) by {
        forall k | 0 <= k < |t[1..]| - 1 ensures t[1..][k] != t[1..][k + 1] {
          assert t[1..][k] == t[k + 1] && t[1..][k + 1] == t[k + 2];
        }
      }
      MergeTilesStable(t[1..]);
      assert [t[0]] + t[1..] == t;
    }
  }

  /** How many input tiles each output tile of the scan consumed: 1, or 2 for a merge. */
  function Groups(t: seq<int>): (g: seq<nat>)
    ensures |g| == |MergeTiles(t)|
  {
    if t == [] then []
    else if MergesHead(t) then [2] + Groups(t[2..])
    else [1] + Groups(t[1..])
  }

  function Total(g: seq<nat>): nat
  {
    if g == [] then 0 else g[0] + Total(g[1..])
  }

  /** The input tiles consumed before output position `k`. */
  function Start(t: seq<int>, k: nat): nat
    requires k <= |Groups(t)|
  {
    Total(Groups(t)[..k])
  }

  /**
   * Output tile `k` of the scan over `t` is either the single input tile
   * at `Start(t, k)`, which differs from its right neighbour, or the sum
   * of the equal pair starting there.
   */
  predicate GroupOk(t: seq<int>, k: nat)
    requires k < |Groups(t)|
  {
    var s, g := Start(t, k), Groups(t)[k];
    && (g == 1 || g == 2)
    && s + g <= |t|
    && (g == 1 ==> MergeTiles(t)[k] == t[s] && (s + 1 < |t| ==> t[s] != t[s + 1]))
    && (g == 2 ==> t[s] == t[s + 1] && MergeTiles(t)[k] == t[s] + t[s + 1])
  }

  lemma {:induction false} GroupsTotal(t: seq<int>)
    ensures Total(Groups(t)) == |t|
  {
    if t == [] {
    } else if MergesHead(t) {
      GroupsTotal(t[2..]);
      assert ([2] + Groups(t[2..]))[1..] == Groups(t[2..]);
    } else {
      GroupsTotal(t[1..]);
      assert ([1] + Groups(t[1..]))[1..] == Groups(t[1..]);
    }
  }

  lemma {:induction false} GroupAt(t: seq<int>, k: nat)
    requires k < |Groups(t)|
    ensures GroupOk(t, k)
  {
    var g0: nat := if MergesHead(t) then 2 else 1;
    var rest := t[g0..];
    assert Groups(t) == [g0] + Groups(rest);
    assert MergeTiles(t) == [if g0 == 2 then 2 * t[0] else t[0]] + MergeTiles(rest);
    if k == 0 {
      assert Groups(t)[..0] == [];
    } else {
      GroupAt(rest, k - 1);
      assert Groups(t)[..k] == [g0] + Groups(rest)[..k - 1];
      assert (Groups(t)[..k])[1..] == Groups(rest)[..k - 1];
      assert Start(t, k) == g0 + Start(rest, k - 1);
      GroupsTotal(rest);
    }
  }

  /**
   * The scan is single-pass and greedy from the left: its output tiles
   * consume the input tiles in order, one or two at a time (`GroupOk`).
   * No output tile is made of more than two input tiles, so a tile
   * produced by a merge is never merged again within the same pass.
   */
  lemma MergeTilesGroups(t: seq<int>)
    ensures Total(Groups(t)) == |t|
    ensures forall k :: 0 <= k < |Groups(t)| ==> GroupOk(t, k)
  {
    GroupsTotal(t);
    forall k | 0 <= k < |Groups(t)| ensures GroupOk(t, k) {
      GroupAt(t, k);
    }
  }

  /** The score the scan earns is the sum of the output tiles created by merges. */
  function CreatedSum(m: seq<int>, g: seq<nat>): int
    requires |m| == |g|
  {
    if m == [] then 0 else (if g[0] == 2 then m[0] else 0) + CreatedSum(m[1..], g[1..])
  }

  lemma {:induction false} GainIsCreatedTiles(t: seq<int>)
    ensures Gain(t) == CreatedSum(MergeTiles(t), Groups(t))
  {
    if t == [] {
    } else if MergesHead(t) {
      GainIsCreatedTiles(t[2..]);
      assert ([2 * t[0]] + MergeTiles(t[2..]))[1..] == MergeTiles(t[2..]);
      assert ([2] + Groups(t[2..]))[1..] == Groups(t[2..]);
    } else {
      GainIsCreatedTiles(t[1..]);
      assert ([t[0]] + MergeTiles(t[1..]))[1..] == MergeTiles(t[1..]);
      assert ([1] + Groups(t[1..]))[1..] == Groups(t[1..]);
    }
  }

  // ---------------------------------------------------------------------
  // Properties of the row rule

  /**
   * The row rule keeps the four cells: the merged tiles first, all
   * non-empty, then only empty cells; it preserves the sum of the row and
   * leaves one tile fewer per merge.
   */
  lemma SlideRowShape(r: Row)
    ensures var n := Occupied(r) - Merges(NonZero(r));
            forall k :: 0 <= k < 4 ==> (SlideRow(r)[k] != 0 <==> k < n)
    ensures Sum(SlideRow(r)) == Sum(r)
    ensures Occupied(SlideRow(r)) == Occupied(r) - Merges(NonZero(r))
  {
    var m := MergeTiles(NonZero(r));
    NonZeroTiles(r);
    MergeTilesSign(NonZero(r));
    MergeTilesSum(NonZero(r));
    SumAppend(m, seq(4 - |m|, _ => 0));
    SumZeros(4 - |m|);
    OccupiedAppend(m, seq(4 - |m|, _ => 0));
    OccupiedZeros(4 - |m|);
    OccupiedAllNonZero(m);
  }

  /** On a row with no empty cell the rule changes the row exactly when two neighbours are equal. */
  lemma FullRowUnchangedIff(r: Row)
    requires FullRow(r)
    ensures SlideRow(r) == r <==> NoPairRow(r)
  {
    assert Stable(r) <==> NoPairRow(r);
    OccupiedAllNonZero(r);
    NonZeroOfTiles(r);
    MergesIffPair(r);
    if Stable(r) {
      MergeTilesStable(r);
    } else {
      assert |MergeTiles(r)| < 4;
      assert SlideRow(r)[3] == 0;
    }
  }

  /**
   * Sliding twice in the same direction changes nothing more once the
   * first slide left no equal neighbours.
   */
  lemma SlideRowIdempotent(r: Row)
    requires Stable(MergeTiles(NonZero(r)))
    ensures SlideRow(SlideRow(r)) == SlideRow(r)
  {
    var m := MergeTiles(NonZero(r));
    NonZeroTiles(r);
    MergeTilesSign(NonZero(r));
    NonZeroPadded(m, 4);
    MergeTilesStable(m);
  }

  lemma {:induction false} NonZeroPadded(m: seq<int>, n: nat)
    requires |m| <= n
    requires forall k :: 0 <= k < |m| ==> m[k] != 0
    ensures NonZero(Pad(m, n)) == m
  {
    if m == [] {
      assert Pad(m, n) == seq(n, _ => 0);
      NonZeroZeros(n);
    } else {
      assert Pad(m, n)[1..] == Pad(m[1..], n - 1);
      NonZeroPadded(m[1..], n - 1);
      assert [m[0]] + m[1..] == m;
    }
  }

  lemma {:induction false} NonZeroOfTiles(t: seq<int>)
    requires forall k :: 0 <= k < |t| ==> t[k] != 0
    ensures NonZero(t) == t
  {
    if t != [] {
      NonZeroOfTiles(t[1..]);
      assert [t[0]] + t[1..] == t;
    }
  }

  lemma {:induction false} NonZeroZeros(n: nat)
    ensures NonZero(seq(n, _ => 0)) == []
  {
    if n > 0 {
      assert seq(n, _ => 0)[1..] == seq(n - 1, _ => 0);
      NonZeroZeros(n - 1);
    }
  }

  // ---------------------------------------------------------------------
  // Tile values

  /** `n` is a power of two (1, 2, 4, ...). */
  predicate PowerOfTwo(n: int)
    decreases n
  {
    if n < 1 then false else if n == 1 then true else n % 2 == 0 && PowerOfTwo(n / 2)
  }

  /** A legal cell value: empty, or a tile 2, 4, 8, ... */
  predicate IsTile(v: int)
  {
    v == 0 || (v >= 2 && PowerOfTwo(v))
  }

  /** Merging keeps every value a tile: twice a tile is a tile. */
  lemma {:induction false} MergeTilesKeepTiles(t: seq<int>)
    requires forall k :: 0 <= k < |t| ==> IsTile(t[k])
    ensures forall k :: 0 <= k < |MergeTiles(t)| ==> IsTile(MergeTiles(t)[k])
  {
    if t == [] {
    } else if MergesHead(t) {
      MergeTilesKeepTiles(t[2..]);
      var v := 2 * t[0];
      assert v / 2 == t[0] && v % 2 == 0;
      assert IsTile(v);
    } else {
      MergeTilesKeepTiles(t[1..]);
    }
  }

  /** Every cell of the row is empty or a tile. */
  predicate TileRow(r: Row)
  {
    IsTile(r[0]) && IsTile(r[1]) && IsTile(r[2]) && IsTile(r[3])
  }

  /** The row rule maps rows of tiles to rows of tiles. */
  lemma SlideRowKeepsTiles(r: Row)
    requires TileRow(r)
    ensures TileRow(SlideRow(r))
  {
    NonZeroKeepsTiles(r);
    MergeTilesKeepTiles(NonZero(r));
    var s := SlideRow(r);
    assert forall k :: 0 <= k < 4 ==> IsTile(s[k]);
  }

  /** On cells that are at least 0 the row rule keeps them so and earns a score of at least 0. */
  lemma SlideRowNonNegative(r: Row)
    requires NonNegativeRow(r)
    ensures NonNegativeRow(SlideRow(r))
    ensures RowGain(r) >= 0
  {
    NonZeroTiles(r);
    MergeTilesSign(NonZero(r));
    GainSign(NonZero(r));
    var s := SlideRow(r);
    assert forall k :: 0 <= k < 4 ==> s[k] >= 0;
  }

  lemma {:induction false} NonZeroKeepsTiles(s: seq<int>)
    requires forall k :: 0 <= k < |s| ==> IsTile(s[k])
    ensures forall k :: 0 <= k < |NonZero(s)| ==> IsTile(NonZero(s)[k])
  {
    if s != [] {
      NonZeroKeepsTiles(s[1..]);
    }
  }

  // ---------------------------------------------------------------------
  // Worked rows: a merged tile is not merged again

  lemma FourEqualTiles()
    ensures SlideRow([2, 2, 2, 2]) == [4, 4, 0, 0] && RowGain([2, 2, 2, 2]) == 8
  {
    assert NonZero([2, 2, 2, 2]) == [2, 2, 2, 2];
    var t: seq<int> := [2, 2, 2, 2];
    assert t[2..] == [2, 2];
    assert MergeTiles([2, 2]) == [4];
  }

  lemma PairThenDouble()
    ensures SlideRow([2, 2, 4, 0]) == [4, 4, 0, 0] && RowGain([2, 2, 4, 0]) == 4
  {
    var t: seq<int> := [2, 2, 4, 0];
    assert NonZero([0]) == [];
    assert NonZero([4, 0]) == [4];
    assert NonZero(t) == [2, 2, 4];
    var u: seq<int> := [2, 2, 4];
    assert u[2..] == [4];
  }

  lemma EmptyRow()
    ensures SlideRow([0, 0, 0, 0]) == [0, 0, 0, 0] && RowGain([0, 0, 0, 0]) == 0
  {
    NonZeroZeros(4);
    assert [0, 0, 0, 0] == seq(4, _ => 0);
  }

  lemma PairRow()
    ensures SlideRow([2, 2, 0, 0]) == [4, 0, 0, 0] && RowGain([2, 2, 0, 0]) == 4
  {
    var r: seq<int> := [2, 2, 0, 0];
    assert r[2..] == [0, 0] && NonZero([0, 0]) == [];
    assert NonZero(r) == [2, 2];
    var t: seq<int> := [2, 2];
    assert t[2..] == [];
  }

  lemma SplitPairRow()
    ensures SlideRow([0, 2, 0, 2]) == [4, 0, 0, 0] && RowGain([0, 2, 0, 2]) == 4
  {
    assert NonZero([2]) == [2];
    assert NonZero([0, 2]) == [2];
    assert NonZero([2, 0, 2]) == [2, 2];
    assert NonZero([0, 2, 0, 2]) == [2, 2];
    var t: seq<int> := [2, 2];
    assert t[2..] == [];
  }
}
