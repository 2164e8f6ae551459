/** Grid helpers shared by the parser, the validator and the tile map: the
    possibly ragged tile grid read the way the source reads it
    (`tiles[r]?.[c]`), and counting over the fixed ROWS x COLS window that
    every nested row/column loop in those files walks. */
module Grid {
  import opened Types

  /** `tiles[r]?.[c]`: the tile, or None where the source reads `undefined`. */
  function TileAt(tiles: seq<seq<Tile>>, c: int, r: int): Option<Tile>
  {
    if 0 <= r < |tiles| && 0 <= c < |tiles[r]| then Some(tiles[r][c]) else None
  }

  predicate InWindow(c: int, r: int)
  {
    0 <= c < COLS && 0 <= r < ROWS
  }

  /** Exactly ROWS rows of exactly COLS tiles. */
  predicate Shaped<T>(g: seq<seq<T>>)
  {
    |g| == ROWS && forall r :: 0 <= r < |g| ==> |g[r]| == COLS
  }

  predicate IsDotTile(t: Tile)
  {
    t == Dot || t == Power
  }

  /** Which cells a count or a sum looks at. */
  datatype Cells =
    | Dots                                  // DOT or POWER tiles
    | OfKind(kind: Tile)                    // tiles of one kind
    | DotsOutside(reach: set<TilePos>)      // DOT or POWER tiles missing from `reach`

  /** Cell (c, r) of `tiles` is one that `s` selects. */
  predicate Hit(tiles: seq<seq<Tile>>, s: Cells, c: int, r: int)
  {
    var t := TileAt(tiles, c, r);
    match s
    case Dots => t.Some? && IsDotTile(t.value)
    case OfKind(k) => t == Some(k)
    case DotsOutside(reach) => t.Some? && IsDotTile(t.value) && TilePos(c, r) !in reach
  }

  // ---- counting over the window, in the order of the nested loops ----------------

  // The counts keep the default decreases clause, which names the grid: the
  // verifier then unfolds them cell by cell only for a grid that is a constant.

  /** Number of columns c in [0, n) of row r that s selects. */
  function CountRow(tiles: seq<seq<Tile>>, s: Cells, r: int, n: nat): nat
  {
    if n == 0 then 0 else CountRow(tiles, s, r, n - 1) + (if Hit(tiles, s, n - 1, r) then 1 else 0)
  }

  /** Number of window cells in rows [0, m) that s selects. */
  function CountRows(tiles: seq<seq<Tile>>, s: Cells, m: nat): nat
  {
    if m == 0 then 0 else CountRows(tiles, s, m - 1) + CountRow(tiles, s, m - 1, COLS)
  }

  /** Number of cells of the ROWS x COLS window that s selects. */
  function Count(tiles: seq<seq<Tile>>, s: Cells): nat
  {
    CountRows(tiles, s, ROWS)
  }

  lemma {:induction false} CountRowZero(tiles: seq<seq<Tile>>, s: Cells, r: int, n: nat)
    ensures CountRow(tiles, s, r, n) == 0 <==> forall c :: 0 <= c < n ==> !Hit(tiles, s, c, r)
  {
    if n > 0 {
      CountRowZero(tiles, s, r, n - 1);
    }
  }

  lemma {:induction false} CountRowsZero(tiles: seq<seq<Tile>>, s: Cells, m: nat)
    ensures CountRows(tiles, s, m) == 0 <==> forall c, r :: 0 <= r < m && 0 <= c < COLS ==> !Hit(tiles, s, c, r)
  {
    if m > 0 {
      CountRowsZero(tiles, s, m - 1);
      CountRowZero(tiles, s, m - 1, COLS);
    }
  }

  /** A window count is zero exactly when no window cell is selected. */
  lemma CountZero(tiles: seq<seq<Tile>>, s: Cells)
    ensures Count(tiles, s) == 0 <==> forall c, r :: InWindow(c, r) ==> !Hit(tiles, s, c, r)
  {
    CountRowsZero(tiles, s, ROWS);
  }

  lemma {:induction false} CountRowExt(t1: seq<seq<Tile>>, s1: Cells, t2: seq<seq<Tile>>, s2: Cells, r: int, n: nat)
    requires forall c :: 0 <= c < n ==> Hit(t1, s1, c, r) == Hit(t2, s2, c, r)
    ensures CountRow(t1, s1, r, n) == CountRow(t2, s2, r, n)
  {
    if n > 0 {
      CountRowExt(t1, s1, t2, s2, r, n - 1);
    }
  }

  lemma {:induction false} CountRowsExt(t1: seq<seq<Tile>>, s1: Cells, t2: seq<seq<Tile>>, s2: Cells, m: nat)
    requires forall c, r :: 0 <= r < m && 0 <= c < COLS ==> Hit(t1, s1, c, r) == Hit(t2, s2, c, r)
    ensures CountRows(t1, s1, m) == CountRows(t2, s2, m)
  {
    if m > 0 {
      CountRowsExt(t1, s1, t2, s2, m - 1);
      CountRowExt(t1, s1, t2, s2, m - 1, COLS);
    }
  }

  /** Counts depend only on the window: selections that agree there count alike. */
  lemma CountExt(t1: seq<seq<Tile>>, s1: Cells, t2: seq<seq<Tile>>, s2: Cells)
    requires forall c, r :: InWindow(c, r) ==> Hit(t1, s1, c, r) == Hit(t2, s2, c, r)
    ensures Count(t1, s1) == Count(t2, s2)
  {
    CountRowsExt(t1, s1, t2, s2, ROWS);
  }

  lemma {:induction false} CountRowDrop(t1: seq<seq<Tile>>, s1: Cells, t2: seq<seq<Tile>>, s2: Cells, r: int, n: nat, c0: int)
    requires 0 <= c0 < n && Hit(t1, s1, c0, r) && !Hit(t2, s2, c0, r)
    requires forall c :: 0 <= c < n && c != c0 ==> Hit(t1, s1, c, r) == Hit(t2, s2, c, r)
    ensures CountRow(t2, s2, r, n) + 1 == CountRow(t1, s1, r, n)
  {
    if c0 == n - 1 {
      CountRowExt(t1, s1, t2, s2, r, n - 1);
    } else {
      CountRowDrop(t1, s1, t2, s2, r, n - 1, c0);
    }
  }

  lemma {:induction false} CountRowsDrop(t1: seq<seq<Tile>>, s1: Cells, t2: seq<seq<Tile>>, s2: Cells, m: nat, c0: int, r0: int)
    requires 0 <= r0 < m && 0 <= c0 < COLS && Hit(t1, s1, c0, r0) && !Hit(t2, s2, c0, r0)
    requires forall c, r :: 0 <= r < m && 0 <= c < COLS && (c != c0 || r != r0) ==> Hit(t1, s1, c, r) == Hit(t2, s2, c, r)
    ensures CountRows(t2, s2, m) + 1 == CountRows(t1, s1, m)
  {
    if r0 == m - 1 {
      CountRowsExt(t1, s1, t2, s2, m - 1);
      CountRowDrop(t1, s1, t2, s2, r0, COLS, c0);
    } else {
      CountRowsDrop(t1, s1, t2, s2, m - 1, c0, r0);
      CountRowExt(t1, s1, t2, s2, m - 1, COLS);
    }
  }

  /** Deselecting exactly one window cell lowers the count by exactly one. */
  lemma CountDrop(t1: seq<seq<Tile>>, s1: Cells, t2: seq<seq<Tile>>, s2: Cells, c0: int, r0: int)
    requires InWindow(c0, r0) && Hit(t1, s1, c0, r0) && !Hit(t2, s2, c0, r0)
    requires forall c, r :: InWindow(c, r) && (c != c0 || r != r0) ==> Hit(t1, s1, c, r) == Hit(t2, s2, c, r)
    ensures Count(t2, s2) + 1 == Count(t1, s1)
  {
    CountRowsDrop(t1, s1, t2, s2, ROWS, c0, r0);
  }

  /** Overwriting one in-window DOT/POWER cell with EMPTY removes exactly one dot. */
  lemma EatOneDot(tiles: seq<seq<Tile>>, c0: int, r0: int)
    requires Shaped(tiles) && InWindow(c0, r0) && IsDotTile(tiles[r0][c0])
    ensures Count(tiles[r0 := tiles[r0][c0 := Empty]], Dots) + 1 == Count(tiles, Dots)
  {
    var after := tiles[r0 := tiles[r0][c0 := Empty]];
    forall c, r | InWindow(c, r) && (c != c0 || r != r0)
      ensures Hit(tiles, Dots, c, r) == Hit(after, Dots, c, r)
    {
      OtherCellsKept(tiles, c0, r0, c, r);
    }
    assert TileAt(after, c0, r0) == Some(Empty);
    CountDrop(tiles, Dots, after, Dots, c0, r0);
  }

  lemma OtherCellsKept(tiles: seq<seq<Tile>>, c0: int, r0: int, c: int, r: int)
    requires Shaped(tiles) && InWindow(c0, r0) && InWindow(c, r) && (c != c0 || r != r0)
    ensures TileAt(tiles[r0 := tiles[r0][c0 := Empty]], c, r) == TileAt(tiles, c, r)
  {
  }

  /** The head of a non-empty sequence is one of its elements (called where the
      non-emptiness is not yet known, so the call itself checks nothing). */
  lemma HeadIsMember<T>(s: seq<T>)
    ensures s != [] ==> s[0] in s
  {
  }
}
