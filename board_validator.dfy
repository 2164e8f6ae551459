/** Structural and reachability checks of a parsed board: the error and
    warning lists of `validateBoard` and the breadth-first search it runs
    from Pac-Man's spawn. Messages are modelled by their kind and the
    numbers they quote; logging is not modelled. */
module BoardValidator {
  import opened Types
  import opened Grid

  datatype BoardError =
    | RowCount(rows: nat)
    | ColCount(row: nat, cols: nat)
    | SpawnBlocked(spawn: TilePos)
    | SmallHouse(houseTiles: nat)
    | NoGate
    | UnreachableDots(dots: nat)
    | NoDots

  datatype BoardWarning =
    | WarpUnreachableA(id: char, at: TilePos)
    | WarpUnreachableB(id: char, at: TilePos)
    | FewDots(dots: int)

  datatype ValidationResult = ValidationResult(valid: bool, errors: seq<BoardError>, warnings: seq<BoardWarning>)

  // ---- the search graph ------------------------------------------------------------------

  /** The four probes of the search, in order: up, down, left, right. */
  const DELTAS: seq<(int, int)> := [(0, -1), (0, 1), (-1, 0), (1, 0)]

  /** Probe k from v: the column wraps, -1 to COLS - 1 and COLS or more to 0; the row does not. */
  function Neighbour(v: TilePos, k: nat): (n: TilePos)
    requires k < 4
    ensures 0 <= n.col < COLS
  {
    var nc := v.col + DELTAS[k].0;
    var nc := if nc < 0 then COLS - 1 else nc;
    var nc := if nc >= COLS then 0 else nc;
    TilePos(nc, v.row + DELTAS[k].1)
  }

  /** Pac-Man may stand on anything but WALL, GATE and GHOST_HOUSE; a cell
      missing from a ragged grid counts as open. */
  predicate Passable(tiles: seq<seq<Tile>>, p: TilePos)
  {
    var t := TileAt(tiles, p.col, p.row);
    !(t == Some(Wall) || t == Some(Gate) || t == Some(GhostHouse))
  }

  /** Probe k from v lands on a row of the board and on a passable cell. */
  predicate Open(tiles: seq<seq<Tile>>, v: TilePos, k: nat)
    requires k < 4
  {
    var n := Neighbour(v, k);
    0 <= n.row < ROWS && Passable(tiles, n)
  }

  ghost predicate Step(tiles: seq<seq<Tile>>, u: TilePos, v: TilePos)
  {
    exists k :: 0 <= k < 4 && Open(tiles, u, k) && Neighbour(u, k) == v
  }

  ghost predicate IsPath(tiles: seq<seq<Tile>>, start: TilePos, p: seq<TilePos>)
  {
    && |p| > 0 && p[0] == start
    && forall i :: 0 <= i < |p| - 1 ==> Step(tiles, p[i], p[i + 1])
  }

  /** v is the end of a walk from start through open probes. */
  ghost predicate Reachable(tiles: seq<seq<Tile>>, start: TilePos, v: TilePos)
  {
    exists p :: IsPath(tiles, start, p) && p[|p| - 1] == v
  }

  function WindowCells(): set<TilePos>
  {
    set c, r | 0 <= c < COLS && 0 <= r < ROWS :: TilePos(c, r)
  }

  /** The cells a search from `start` can ever visit. */
  function Cells(start: TilePos): set<TilePos>
  {
    WindowCells() + {start}
  }

  /** The cells reachable from `start`. */
  ghost function ReachSet(tiles: seq<seq<Tile>>, start: TilePos): set<TilePos>
  {
    set v | v in Cells(start) && Reachable(tiles, start, v)
  }

  // ---- facts about reachability ------------------------------------------------------------

  lemma StartReachable(tiles: seq<seq<Tile>>, start: TilePos)
    ensures Reachable(tiles, start, start)
  {
    assert IsPath(tiles, start, [start]);
  }

  /** An open probe from a reachable cell reaches its neighbour. */
  lemma ExtendReach(tiles: seq<seq<Tile>>, start: TilePos, x: TilePos, k: nat)
    requires k < 4 && Reachable(tiles, start, x) && Open(tiles, x, k)
    ensures Reachable(tiles, start, Neighbour(x, k))
  {
    var p :| IsPath(tiles, start, p) && p[|p| - 1] == x;
    var q := p + [Neighbour(x, k)];
    assert Step(tiles, x, Neighbour(x, k));
    forall i | 0 <= i < |q| - 1
      ensures Step(tiles, q[i], q[i + 1])
    {
      if i + 1 < |p| {
        assert q[i] == p[i] && q[i + 1] == p[i + 1];
      }
    }
    assert IsPath(tiles, start, q);
  }

  /** Every cell reached in at least one step is an in-window passable cell. */
  lemma ReachedIsOpenCell(tiles: seq<seq<Tile>>, start: TilePos, v: TilePos)
    requires Reachable(tiles, start, v) && v != start
    ensures InWindow(v.col, v.row) && Passable(tiles, v)
  {
    var p :| IsPath(tiles, start, p) && p[|p| - 1] == v;
    assert |p| >= 2;
    assert Step(tiles, p[|p| - 2], p[|p| - 1]);
  }

  /** A set holding the start and closed under open probes holds the end of every path. */
  lemma {:induction false} ClosedHoldsPath(tiles: seq<seq<Tile>>, start: TilePos, s: set<TilePos>, p: seq<TilePos>)
    requires start in s
    requires forall v, k :: v in s && 0 <= k < 4 && Open(tiles, v, k) ==> Neighbour(v, k) in s
    requires IsPath(tiles, start, p)
    ensures p[|p| - 1] in s
  {
    if |p| > 1 {
      var q := p[..|p| - 1];
      forall i | 0 <= i < |q| - 1
        ensures Step(tiles, q[i], q[i + 1])
      {
        assert q[i] == p[i] && q[i + 1] == p[i + 1];
      }
      ClosedHoldsPath(tiles, start, s, q);
      assert Step(tiles, p[|p| - 2], p[|p| - 1]);
    }
  }

  /** What the search result is: it holds the start, every other member is an
      in-window cell Pac-Man may stand on, it is closed under the four wrapped
      probes, and it is exactly the set of reachable cells. */
  lemma ReachSetMeaning(tiles: seq<seq<Tile>>, start: TilePos)
    ensures start in ReachSet(tiles, start)
    ensures forall v :: v in ReachSet(tiles, start) && v != start ==> InWindow(v.col, v.row) && Passable(tiles, v)
    ensures forall v, k :: v in ReachSet(tiles, start) && 0 <= k < 4 && Open(tiles, v, k) ==> Neighbour(v, k) in ReachSet(tiles, start)
    ensures forall v :: v in ReachSet(tiles, start) <==> Reachable(tiles, start, v)
  {
    var s := ReachSet(tiles, start);
    StartReachable(tiles, start);
    forall v | v in s && v != start
      ensures InWindow(v.col, v.row) && Passable(tiles, v)
    {
      ReachedIsOpenCell(tiles, start, v);
    }
    forall v, k | v in s && 0 <= k < 4 && Open(tiles, v, k)
      ensures Neighbour(v, k) in s
    {
      ExtendReach(tiles, start, v, k);
      var n := Neighbour(v, k);
      assert n in WindowCells() by {
        assert 0 <= n.col < COLS && 0 <= n.row < ROWS;
      }
    }
    forall v | Reachable(tiles, start, v)
      ensures v in s
    {
      if v != start {
        ReachedIsOpenCell(tiles, start, v);
        assert v in WindowCells() by {
          assert v == TilePos(v.col, v.row);
        }
      }
    }
  }

  // ---- the search --------------------------------------------------------------------------

  predicate Distinct(q: seq<TilePos>)
  {
    forall i, j :: 0 <= i < j < |q| ==> q[i] != q[j]
  }

  /** Breadth-first search from (startCol, startRow) with a queue and a visited set. */
  method BfsReachable(tiles: seq<seq<Tile>>, startCol: int, startRow: int) returns (visited: set<TilePos>)
    ensures visited == ReachSet(tiles, TilePos(startCol, startRow))
  {
    var start := TilePos(startCol, startRow);
    var queue := [start];
    visited := {start};
    ghost var done: set<TilePos> := {};
    StartReachable(tiles, start);
    while |queue| > 0
      invariant visited <= Cells(start) && start in visited
      invariant forall v :: v in visited ==> Reachable(tiles, start, v)
      invariant forall v :: v in visited <==> v in done || v in queue
      invariant forall i :: 0 <= i < |queue| ==> queue[i] !in done
      invariant Distinct(queue)
      invariant forall v, k :: v in done && 0 <= k < 4 && Open(tiles, v, k) ==> Neighbour(v, k) in visited
      decreases Cells(start) - visited, |queue|
    {
      var x := queue[0];
      visited, queue := Expand(tiles, start, x, visited, queue[1..], done);
      done := done + {x};
    }
    ghost var reach := ReachSet(tiles, start);
    forall v | v in reach
      ensures v in visited
    {
      var p :| IsPath(tiles, start, p) && p[|p| - 1] == v;
      ClosedHoldsPath(tiles, start, visited, p);
    }
  }

  /** The probe loop for the dequeued cell x: each open probe landing on an
      unvisited cell marks it visited and enqueues it. */
  method Expand(tiles: seq<seq<Tile>>, ghost start: TilePos, x: TilePos, visited0: set<TilePos>, queue0: seq<TilePos>,
                ghost done: set<TilePos>)
    returns (visited: set<TilePos>, queue: seq<TilePos>)
    requires visited0 <= Cells(start)
    requires forall v :: v in visited0 ==> Reachable(tiles, start, v)
    requires forall v :: v in visited0 <==> v in done || v == x || v in queue0
    requires forall i :: 0 <= i < |queue0| ==> queue0[i] !in done && queue0[i] != x
    requires Distinct(queue0)
    ensures visited0 <= visited <= Cells(start)
    ensures visited == visited0 ==> queue == queue0
    ensures forall v :: v in visited ==> Reachable(tiles, start, v)
    ensures forall v :: v in visited <==> v in done || v == x || v in queue
    ensures forall i :: 0 <= i < |queue| ==> queue[i] !in done && queue[i] != x
    ensures Distinct(queue)
    ensures forall j :: 0 <= j < 4 && Open(tiles, x, j) ==> Neighbour(x, j) in visited
  {
    visited, queue := visited0, queue0;
    for k := 0 to 4
      invariant visited0 <= visited <= Cells(start)
      invariant visited == visited0 ==> queue == queue0
      invariant forall v :: v in visited ==> Reachable(tiles, start, v)
      invariant forall v :: v in visited <==> v in done || v == x || v in queue
      invariant forall i :: 0 <= i < |queue| ==> queue[i] !in done && queue[i] != x
      invariant Distinct(queue)
      invariant forall j :: 0 <= j < k && Open(tiles, x, j) ==> Neighbour(x, j) in visited
    {
      var n := Neighbour(x, k);
      if n.row < 0 || n.row >= ROWS {
        continue;
      }
      if n in visited {
        continue;
      }
      var t := TileAt(tiles, n.col, n.row);
      if t == Some(Wall) || t == Some(Gate) || t == Some(GhostHouse) {
        continue;
      }
      ExtendReach(tiles, start, x, k);
      assert n in WindowCells() by {
        assert 0 <= n.col < COLS && 0 <= n.row < ROWS;
      }
      visited := visited + {n};
      queue := queue + [n];
    }
  }

  // ---- the report --------------------------------------------------------------------------

  /** One error per row, among the first n, whose width is not COLS. */
  function ColErrors(tiles: seq<seq<Tile>>, n: nat): seq<BoardError>
    requires n <= |tiles|
  {
    if n == 0 then []
    else ColErrors(tiles, n - 1) + (if |tiles[n - 1]| != COLS then [ColCount(n - 1, |tiles[n - 1]|)] else [])
  }

  /** The dimension errors: the row count, then each row of the wrong width. */
  function ShapeErrors(tiles: seq<seq<Tile>>): seq<BoardError>
  {
    (if |tiles| != ROWS then [RowCount(|tiles|)] else []) + ColErrors(tiles, |tiles|)
  }

  /** The spawn cell is missing or a WALL; every other tile kind is accepted. */
  predicate SpawnBad(tiles: seq<seq<Tile>>, p: TilePos)
  {
    var t := TileAt(tiles, p.col, p.row);
    t == None || t == Some(Wall)
  }

  /** The one-error list for a check that fails, the empty list otherwise. */
  function When(failed: bool, e: BoardError): seq<BoardError>
  {
    if failed then [e] else []
  }

  /** Warnings for warp endpoints missing from `reach`, pair by pair, A before B. */
  function WarpWarnings(ps: seq<WarpPair>, reach: set<TilePos>): seq<BoardWarning>
  {
    if ps == [] then []
    else
      var w := ps[|ps| - 1];
      WarpWarnings(ps[..|ps| - 1], reach)
        + (if w.a !in reach then [WarpUnreachableA(w.id, w.a)] else [])
        + (if w.b !in reach then [WarpUnreachableB(w.id, w.b)] else [])
  }

  function DotWarnings(dotCount: int): seq<BoardWarning>
  {
    if dotCount != 0 && dotCount < 50 then [FewDots(dotCount)] else []
  }

  /** The errors found before the search: dimensions, spawn, ghost house and gate. */
  function StructureErrors(board: BoardData): seq<BoardError>
  {
    ShapeErrors(board.tiles)
    + When(SpawnBad(board.tiles, board.pacmanSpawn), SpawnBlocked(board.pacmanSpawn))
    + When(Count(board.tiles, OfKind(GhostHouse)) < 6, SmallHouse(Count(board.tiles, OfKind(GhostHouse))))
    + When(Count(board.tiles, OfKind(Gate)) < 1, NoGate)
  }

  /** The errors `validateBoard` reports for a board whose reachable set is `reach`, in order. */
  function Errors(board: BoardData, reach: set<TilePos>): seq<BoardError>
  {
    StructureErrors(board)
    + When(Count(board.tiles, DotsOutside(reach)) > 0, UnreachableDots(Count(board.tiles, DotsOutside(reach))))
    + When(board.dotCount == 0, NoDots)
  }

  /** The warnings `validateBoard` reports for a board whose reachable set is `reach`, in order. */
  function Warnings(board: BoardData, reach: set<TilePos>): seq<BoardWarning>
  {
    WarpWarnings(board.warpPairs, reach) + DotWarnings(board.dotCount)
  }

  /** The whole result: valid exactly when there is no error. */
  function Report(board: BoardData, reach: set<TilePos>): ValidationResult
  {
    var errors := Errors(board, reach);
    ValidationResult(errors == [], errors, Warnings(board, reach))
  }

  // ---- what the report says --------------------------------------------------------------------

  lemma {:induction false} ColErrorsMeaning(tiles: seq<seq<Tile>>, n: nat)
    requires n <= |tiles|
    ensures forall e :: e in ColErrors(tiles, n) <==> e.ColCount? && e.row < n && |tiles[e.row]| != COLS && e.cols == |tiles[e.row]|
  {
    if n > 0 {
      ColErrorsMeaning(tiles, n - 1);
    }
  }

  /** Dimension errors: the row count when it is not ROWS, and each row whose width is not COLS. */
  lemma ShapeErrorsMeaning(tiles: seq<seq<Tile>>)
    ensures forall e :: e in ShapeErrors(tiles) <==>
      || (e == RowCount(|tiles|) && |tiles| != ROWS)
      || (e.ColCount? && e.row < |tiles| && |tiles[e.row]| != COLS && e.cols == |tiles[e.row]|)
    ensures ShapeErrors(tiles) == [] <==> Shaped(tiles)
  {
    ColErrorsMeaning(tiles, |tiles|);
    if !Shaped(tiles) && |tiles| == ROWS {
      var r :| 0 <= r < |tiles| && |tiles[r]| != COLS;
      assert ColCount(r, |tiles[r]|) in ShapeErrors(tiles);
    }
    if Shaped(tiles) {
      HeadIsMember(ShapeErrors(tiles));
    }
  }

  lemma {:induction false} WarpWarningsMeaning(ps: seq<WarpPair>, reach: set<TilePos>)
    ensures forall x :: x in WarpWarnings(ps, reach) ==> !x.FewDots?
    ensures forall id, p :: WarpUnreachableA(id, p) in WarpWarnings(ps, reach) <==>
              p !in reach && exists w :: w in ps && w.id == id && w.a == p
    ensures forall id, p :: WarpUnreachableB(id, p) in WarpWarnings(ps, reach) <==>
              p !in reach && exists w :: w in ps && w.id == id && w.b == p
  {
    if ps != [] {
      var init := ps[..|ps| - 1];
      WarpWarningsMeaning(init, reach);
      assert forall w :: w in ps <==> w in init || w == ps[|ps| - 1];
    }
  }

  lemma StructureErrorsMeaning(board: BoardData)
    ensures forall e :: e in StructureErrors(board) <==>
      || (e == RowCount(|board.tiles|) && |board.tiles| != ROWS)
      || (e.ColCount? && e.row < |board.tiles| && |board.tiles[e.row]| != COLS && e.cols == |board.tiles[e.row]|)
      || (e == SpawnBlocked(board.pacmanSpawn) && SpawnBad(board.tiles, board.pacmanSpawn))
      || (e == SmallHouse(Count(board.tiles, OfKind(GhostHouse))) && Count(board.tiles, OfKind(GhostHouse)) < 6)
      || (e == NoGate && Count(board.tiles, OfKind(Gate)) == 0)
  {
    ShapeErrorsMeaning(board.tiles);
  }

  /** Each error is reported exactly when its condition holds, with the numbers it quotes. */
  lemma ReportErrors(board: BoardData, reach: set<TilePos>)
    ensures forall e :: e in Errors(board, reach) <==>
      || (e == RowCount(|board.tiles|) && |board.tiles| != ROWS)
      || (e.ColCount? && e.row < |board.tiles| && |board.tiles[e.row]| != COLS && e.cols == |board.tiles[e.row]|)
      || (e == SpawnBlocked(board.pacmanSpawn) && SpawnBad(board.tiles, board.pacmanSpawn))
      || (e == SmallHouse(Count(board.tiles, OfKind(GhostHouse))) && Count(board.tiles, OfKind(GhostHouse)) < 6)
      || (e == NoGate && Count(board.tiles, OfKind(Gate)) == 0)
      || (e == UnreachableDots(Count(board.tiles, DotsOutside(reach))) && Count(board.tiles, DotsOutside(reach)) > 0)
      || (e == NoDots && board.dotCount == 0)
  {
    StructureErrorsMeaning(board);
  }

  /** A board is valid exactly when it has 31 rows of 28 tiles, a spawn on a
      present non-WALL cell, at least 6 GHOST_HOUSE tiles, a GATE tile, every
      DOT and POWER tile in `reach`, and a non-zero dot count. */
  lemma ReportValid(board: BoardData, reach: set<TilePos>)
    ensures Report(board, reach).valid <==>
      && Shaped(board.tiles)
      && !SpawnBad(board.tiles, board.pacmanSpawn)
      && Count(board.tiles, OfKind(GhostHouse)) >= 6
      && (exists c, r :: InWindow(c, r) && TileAt(board.tiles, c, r) == Some(Gate))
      && (forall c, r :: InWindow(c, r) && Hit(board.tiles, Dots, c, r) ==> TilePos(c, r) in reach)
      && board.dotCount != 0
  {
    var tiles := board.tiles;
    ShapeErrorsMeaning(tiles);
    CountZero(tiles, OfKind(Gate));
    CountZero(tiles, DotsOutside(reach));
  }

  /** An unreachable warp endpoint gives a warning, one per endpoint, and a
      small non-zero dot count gives a warning; nothing else does. */
  lemma ReportWarnings(board: BoardData, reach: set<TilePos>)
    ensures forall id, p :: WarpUnreachableA(id, p) in Warnings(board, reach) <==>
              p !in reach && exists w :: w in board.warpPairs && w.id == id && w.a == p
    ensures forall id, p :: WarpUnreachableB(id, p) in Warnings(board, reach) <==>
              p !in reach && exists w :: w in board.warpPairs && w.id == id && w.b == p
    ensures forall n :: FewDots(n) in Warnings(board, reach) <==> n == board.dotCount && board.dotCount != 0 && board.dotCount < 50
  {
    WarpWarningsMeaning(board.warpPairs, reach);
  }

  /** Validity does not depend on the warp pairs, whose only effect is warnings. */
  lemma WarpsNeverInvalidate(board: BoardData, reach: set<TilePos>, pairs: seq<WarpPair>)
    ensures Report(board.(warpPairs := pairs), reach).valid == Report(board, reach).valid
  {
  }

  /** On a valid board every DOT and POWER tile can be walked to from the spawn. */
  lemma ValidBoardDotsReachable(board: BoardData)
    requires Report(board, ReachSet(board.tiles, board.pacmanSpawn)).valid
    ensures forall c, r :: InWindow(c, r) && Hit(board.tiles, Dots, c, r) ==> Reachable(board.tiles, board.pacmanSpawn, TilePos(c, r))
  {
    ReportValid(board, ReachSet(board.tiles, board.pacmanSpawn));
    ReachSetMeaning(board.tiles, board.pacmanSpawn);
  }

  // ---- the validation, as the source runs it ---------------------------------------------------

  /** A nested row/column loop counting the window cells of `tiles` that `s` selects. */
  method CountCells(tiles: seq<seq<Tile>>, s: Cells) returns (n: nat)
    ensures n == Count(tiles, s)
  {
    n := 0;
    for r := 0 to ROWS
      invariant n == CountRows(tiles, s, r)
    {
      for c := 0 to COLS
        invariant n == CountRows(tiles, s, r) + CountRow(tiles, s, r, c)
      {
        if Hit(tiles, s, c, r) {
          n := n + 1;
        }
      }
    }
  }

  /** The dimension checks: the row count, then the width of each row. */
  method CheckShape(tiles: seq<seq<Tile>>) returns (errors: seq<BoardError>)
    ensures errors == ShapeErrors(tiles)
  {
    errors := [];
    if |tiles| != ROWS {
      errors := errors + [RowCount(|tiles|)];
    }
    ghost var head := errors;
    for r := 0 to |tiles|
      invariant errors == head + ColErrors(tiles, r)
    {
      if |tiles[r]| != COLS {
        errors := errors + [ColCount(r, |tiles[r]|)];
      }
    }
  }

  /** The warp-pair loop: a warning per endpoint missing from `reachable`. */
  method CheckWarps(pairs: seq<WarpPair>, reachable: set<TilePos>) returns (warnings: seq<BoardWarning>)
    ensures warnings == WarpWarnings(pairs, reachable)
  {
    warnings := [];
    for i := 0 to |pairs|
      invariant warnings == WarpWarnings(pairs[..i], reachable)
    {
      var wp := pairs[i];
      assert pairs[..i + 1][..i] == pairs[..i];
      if wp.a !in reachable {
        warnings := warnings + [WarpUnreachableA(wp.id, wp.a)];
      }
      if wp.b !in reachable {
        warnings := warnings + [WarpUnreachableB(wp.id, wp.b)];
      }
    }
    assert pairs[..|pairs|] == pairs;
  }

  /** The checks before the search. */
  method CheckStructure(board: BoardData) returns (errors: seq<BoardError>)
    ensures errors == StructureErrors(board)
  {
    var tiles := board.tiles;
    errors := CheckShape(tiles);

    var ps := board.pacmanSpawn;
    var spawnTile := TileAt(tiles, ps.col, ps.row);
    if spawnTile == None || spawnTile == Some(Wall) {
      errors := errors + [SpawnBlocked(ps)];
    }
    ghost var e1 := errors;
    assert e1 == ShapeErrors(tiles) + When(SpawnBad(tiles, ps), SpawnBlocked(ps));

    var ghostHouseCount := CountCells(tiles, OfKind(GhostHouse));
    if ghostHouseCount < 6 {
      errors := errors + [SmallHouse(ghostHouseCount)];
    }
    ghost var e2 := errors;
    assert e2 == e1 + When(ghostHouseCount < 6, SmallHouse(ghostHouseCount));

    var gateCount := CountCells(tiles, OfKind(Gate));
    if gateCount < 1 {
      errors := errors + [NoGate];
    }
    assert errors == e2 + When(gateCount < 1, NoGate);
  }

  /** The checks after the search: unreached dots, warp endpoints and the dot count. */
  method CheckReach(board: BoardData, errors0: seq<BoardError>, reachable: set<TilePos>)
    returns (errors: seq<BoardError>, warnings: seq<BoardWarning>)
    ensures errors == errors0
      + When(Count(board.tiles, DotsOutside(reachable)) > 0, UnreachableDots(Count(board.tiles, DotsOutside(reachable))))
      + When(board.dotCount == 0, NoDots)
    ensures warnings == Warnings(board, reachable)
  {
    errors := errors0;
    var unreachableDots := CountCells(board.tiles, DotsOutside(reachable));
    if unreachableDots > 0 {
      errors := errors + [UnreachableDots(unreachableDots)];
    }
    ghost var e1 := errors;
    assert e1 == errors0 + When(unreachableDots > 0, UnreachableDots(unreachableDots));

    warnings := CheckWarps(board.warpPairs, reachable);

    if board.dotCount == 0 {
      errors := errors + [NoDots];
    } else if board.dotCount < 50 {
      warnings := warnings + [FewDots(board.dotCount)];
    }
    assert errors == e1 + When(board.dotCount == 0, NoDots);
  }

  method ValidateBoard(board: BoardData) returns (result: ValidationResult)
    ensures result == Report(board, ReachSet(board.tiles, board.pacmanSpawn))
  {
    var errors := CheckStructure(board);
    var reachable := BfsReachable(board.tiles, board.pacmanSpawn.col, board.pacmanSpawn.row);
    var warnings;
    errors, warnings := CheckReach(board, errors, reachable);
    result := ValidationResult(|errors| == 0, errors, warnings);
  }
}
