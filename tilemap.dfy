/** The runtime grid of one level: a copy of the board's tiles that the game
    eats dots from, a dot counter kept equal to the DOT/POWER tiles left, the
    walkability rules, warp lookup and the periodic gate clock. */
module TileMaps {
  import opened Types
  import opened Grid

  // ---- the copy made by a rebuild ------------------------------------------------

  /** `tiles[r]?.[c] ?? EMPTY` */
  function OrEmpty(t: Option<Tile>): Tile
  {
    if t.Some? then t.value else Empty
  }

  function CopyRow(b: seq<seq<Tile>>, r: int): seq<Tile>
  {
    seq(COLS, c => OrEmpty(TileAt(b, c, r)))
  }

  /** The ROWS x COLS grid a rebuild produces from a board's (possibly ragged) tiles. */
  function Copied(b: seq<seq<Tile>>): (g: seq<seq<Tile>>)
    ensures Shaped(g)
  {
    seq(ROWS, r => CopyRow(b, r))
  }

  /** The copy keeps every in-window tile the board has and fills the gaps with EMPTY;
      a board that is already ROWS x COLS is copied unchanged. */
  lemma CopiedMeaning(b: seq<seq<Tile>>)
    ensures forall c, r :: InWindow(c, r) ==>
      Copied(b)[r][c] == (if TileAt(b, c, r).Some? then TileAt(b, c, r).value else Empty)
    ensures Shaped(b) ==> Copied(b) == b
  {
    if Shaped(b) {
      forall r | 0 <= r < ROWS
        ensures Copied(b)[r] == b[r]
      {
      }
    }
  }

  lemma CopiedPrefix(b: seq<seq<Tile>>, r: int)
    requires 0 <= r < ROWS
    ensures Copied(b)[..r + 1] == Copied(b)[..r] + [CopyRow(b, r)]
  {
  }

  /** The copy holds as many dots as the board: missing cells become EMPTY, never DOT. */
  lemma CopiedDots(b: seq<seq<Tile>>)
    ensures Count(Copied(b), Dots) == Count(b, Dots)
  {
    forall c, r | InWindow(c, r)
      ensures Hit(Copied(b), Dots, c, r) == Hit(b, Dots, c, r)
    {
    }
    CountExt(Copied(b), Dots, b, Dots);
  }

  // ---- lookups ----------------------------------------------------------------------

  /** What the tile queries see of a map: its tiles and its warp pairs. */
  datatype MapView = MapView(tiles: seq<seq<Tile>>, warpPairs: seq<WarpPair>)

  /** The queries below read the grid only inside the window, where a loaded map is
      ROWS x COLS; outside the window nothing is read. */
  predicate Readable(m: MapView, col: int, row: int)
  {
    InWindow(col, row) ==> Shaped(m.tiles)
  }

  /** `getTile`: the tile at (col, row), and WALL anywhere off the grid. */
  function GetTile(m: MapView, col: int, row: int): (t: Tile)
    requires Readable(m, col, row)
    ensures !InWindow(col, row) ==> t == Wall
    ensures InWindow(col, row) ==> Some(t) == TileAt(m.tiles, col, row)
  {
    if col < 0 || col >= COLS || row < 0 || row >= ROWS then Wall else m.tiles[row][col]
  }

  /** `isWalkable`: walls block everyone, gates and the ghost house block only
      Pac-Man, whatever the gate clock says; the last argument is ignored. */
  function IsWalkable(m: MapView, col: int, row: int, isGhost: bool, isEaten: bool): (ok: bool)
    requires Readable(m, col, row)
    ensures ok <==> GetTile(m, col, row) != Wall
                    && (GetTile(m, col, row) in {Gate, GhostHouse} ==> isGhost)
    ensures !InWindow(col, row) ==> !ok
  {
    var t := GetTile(m, col, row);
    if t == Wall then false
    else if t == Gate then isGhost
    else if t == GhostHouse then isGhost
    else true
  }

  /** Whatever Pac-Man can walk on, a ghost can too; and a ghost's walkability does
      not depend on whether it has been eaten. */
  lemma GhostWalksWherePacManWalks(m: MapView, col: int, row: int, e1: bool, e2: bool)
    requires Readable(m, col, row)
    ensures IsWalkable(m, col, row, false, e1) ==> IsWalkable(m, col, row, true, e2)
    ensures IsWalkable(m, col, row, true, e1) == IsWalkable(m, col, row, true, e2)
  {
  }

  /** `isSpeedPad` */
  function IsSpeedPad(m: MapView, col: int, row: int): (pad: bool)
    requires Readable(m, col, row)
    ensures pad <==> InWindow(col, row) && m.tiles[row][col] == SpeedPad
  {
    GetTile(m, col, row) == SpeedPad
  }

  predicate HasEnd(w: WarpPair, p: TilePos)
  {
    w.a == p || w.b == p
  }

  /** The other end of a pair that has `p` as an end. */
  function Partner(w: WarpPair, p: TilePos): TilePos
  {
    if w.a == p then w.b else w.a
  }

  /** `getWarpDestination`: scanning the pairs in order, the partner of `p` in the
      first pair that has `p` as an end, or None. */
  function WarpDestination(pairs: seq<WarpPair>, p: TilePos): Option<TilePos>
  {
    if pairs == [] then None
    else if pairs[0].a == p then Some(pairs[0].b)
    else if pairs[0].b == p then Some(pairs[0].a)
    else WarpDestination(pairs[1..], p)
  }

  /** A destination exists exactly when some pair has `p` as an end, and it is the
      partner of `p` in the first such pair. */
  lemma {:induction false} WarpDestinationMeaning(pairs: seq<WarpPair>, p: TilePos)
    ensures WarpDestination(pairs, p).Some? <==> exists i :: 0 <= i < |pairs| && HasEnd(pairs[i], p)
    ensures forall i :: 0 <= i < |pairs| && HasEnd(pairs[i], p)
                        && (forall j :: 0 <= j < i ==> !HasEnd(pairs[j], p))
                    ==> WarpDestination(pairs, p) == Some(Partner(pairs[i], p))
  {
    if pairs != [] {
      WarpDestinationMeaning(pairs[1..], p);
      if !HasEnd(pairs[0], p) {
        forall i | 1 <= i < |pairs| && HasEnd(pairs[i], p)
          ensures HasEnd(pairs[1..][i - 1], p)
        {
        }
      }
    }
  }

  /** No two ends of the pair list coincide. */
  predicate DistinctEnds(pairs: seq<WarpPair>)
  {
    && (forall i :: 0 <= i < |pairs| ==> pairs[i].a != pairs[i].b)
    && (forall i, j :: 0 <= i < j < |pairs| ==>
          !HasEnd(pairs[j], pairs[i].a) && !HasEnd(pairs[j], pairs[i].b))
  }

  /** With distinct ends, warping is symmetric: the destination of the destination is
      where one started. */
  lemma {:induction false} WarpRoundTrip(pairs: seq<WarpPair>, p: TilePos)
    requires DistinctEnds(pairs)
    requires WarpDestination(pairs, p).Some?
    ensures WarpDestination(pairs, WarpDestination(pairs, p).value) == Some(p)
    ensures WarpDestination(pairs, p).value != p
  {
    if pairs[0].a == p || pairs[0].b == p {
    } else {
      assert DistinctEnds(pairs[1..]) by {
        forall i, j | 0 <= i < j < |pairs[1..]|
          ensures !HasEnd(pairs[1..][j], pairs[1..][i].a) && !HasEnd(pairs[1..][j], pairs[1..][i].b)
        {
          assert pairs[1..][j] == pairs[j + 1] && pairs[1..][i] == pairs[i + 1];
        }
      }
      WarpRoundTrip(pairs[1..], p);
      var q := WarpDestination(pairs, p).value;
      WarpDestinationMeaning(pairs[1..], p);
      var k :| 0 <= k < |pairs[1..]| && HasEnd(pairs[1..][k], p);
      assert HasEnd(pairs[k + 1], q);
      assert !HasEnd(pairs[0], q);
    }
  }

  // ---- pixel / tile conversion ------------------------------------------------------

  /** `toPixel`: the centre of a tile. */
  function ToPixel(col: int, row: int): (p: Position)
    ensures TileIndex(p.x) == col && TileIndex(p.y) == row
  {
    TileIndexOfCentre(col);
    TileIndexOfCentre(row);
    Position(Centre(col), Centre(row))
  }

  /** `toTile`: the tile holding a pixel. */
  function ToTile(x: real, y: real): (t: TilePos)
    ensures (t.col * 16) as real <= x < ((t.col + 1) * 16) as real
    ensures (t.row * 16) as real <= y < ((t.row + 1) * 16) as real
  {
    TilePos(TileIndex(x), TileIndex(y))
  }

  /** toTile undoes toPixel, and toPixel of toTile is within half a tile of the pixel. */
  lemma TileRoundTrip(col: int, row: int, x: real, y: real)
    ensures ToTile(ToPixel(col, row).x, ToPixel(col, row).y) == TilePos(col, row)
    ensures var c := ToPixel(ToTile(x, y).col, ToTile(x, y).row);
            -8.0 <= x - c.x < 8.0 && -8.0 <= y - c.y < 8.0
  {
  }

  // ---- the gate clock -----------------------------------------------------------------

  /** JavaScript's `x % GATE_TOGGLE_INTERVAL`: the remainder takes the sign of x. */
  function GateRem(x: real): (r: real)
    ensures x >= 0.0 ==> 0.0 <= r < GATE_TOGGLE_INTERVAL
    ensures x < 0.0 ==> -GATE_TOGGLE_INTERVAL < r <= 0.0
  {
    if x >= 0.0 then x - GATE_TOGGLE_INTERVAL * (x / GATE_TOGGLE_INTERVAL).Floor as real
    else -((-x) - GATE_TOGGLE_INTERVAL * ((-x) / GATE_TOGGLE_INTERVAL).Floor as real)
  }

  /** The gate fields that `updateGate` advances. */
  datatype GateClock = GateClock(open: bool, timer: real, telegraph: real, flashing: bool)

  /** `updateGate(dt)` on the gate fields. */
  function GateStep(g: GateClock, dt: real): GateClock
  {
    var t := g.timer + dt;
    var flashing := GATE_TOGGLE_INTERVAL - GateRem(t) <= GATE_TELEGRAPH_DURATION;
    if t >= GATE_TOGGLE_INTERVAL then GateClock(!g.open, t - GATE_TOGGLE_INTERVAL, g.telegraph + dt, flashing)
    else GateClock(g.open, t, g.telegraph + dt, flashing)
  }

  /** From a timer in [0, 15000) and a step in [0, 15000): the timer stays in range,
      the gate flips exactly when the sum reaches 15000, and it flashes exactly when
      the sum lies in the last 3000 ms of a period. */
  lemma GateStepMeaning(g: GateClock, dt: real)
    requires 0.0 <= g.timer < GATE_TOGGLE_INTERVAL && 0.0 <= dt < GATE_TOGGLE_INTERVAL
    ensures var g' := GateStep(g, dt);
      && 0.0 <= g'.timer < GATE_TOGGLE_INTERVAL
      && (g'.open != g.open <==> g.timer + dt >= GATE_TOGGLE_INTERVAL)
      && g'.timer + (if g'.open != g.open then GATE_TOGGLE_INTERVAL else 0.0) == g.timer + dt
      && (g'.flashing <==> 12000.0 <= g.timer + dt < 15000.0 || 27000.0 <= g.timer + dt)
      && g'.telegraph == g.telegraph + dt
  {
    var t := g.timer + dt;
    if t >= GATE_TOGGLE_INTERVAL {
      assert (t / GATE_TOGGLE_INTERVAL).Floor == 1;
    } else {
      assert (t / GATE_TOGGLE_INTERVAL).Floor == 0;
    }
  }

  function Sum(dts: seq<real>): real
  {
    if dts == [] then 0.0 else Sum(dts[..|dts| - 1]) + dts[|dts| - 1]
  }

  function Run(g: GateClock, dts: seq<real>): GateClock
  {
    if dts == [] then g else GateStep(Run(g, dts[..|dts| - 1]), dts[|dts| - 1])
  }

  /** How many times the gate changed over a run. */
  function Flips(g: GateClock, dts: seq<real>): nat
  {
    if dts == [] then 0
    else
      var before := Run(g, dts[..|dts| - 1]);
      Flips(g, dts[..|dts| - 1]) + (if GateStep(before, dts[|dts| - 1]).open != before.open then 1 else 0)
  }

  /** Over any run of steps shorter than a period, the gate is a clock of period
      15000 ms: the flips account for the elapsed time in whole periods, the timer
      keeps the rest, and the gate is as it started after an even number of flips. */
  lemma {:induction false} GateRun(g: GateClock, dts: seq<real>)
    requires 0.0 <= g.timer < GATE_TOGGLE_INTERVAL
    requires forall i :: 0 <= i < |dts| ==> 0.0 <= dts[i] < GATE_TOGGLE_INTERVAL
    ensures 0.0 <= Run(g, dts).timer < GATE_TOGGLE_INTERVAL
    ensures Run(g, dts).timer + Flips(g, dts) as real * GATE_TOGGLE_INTERVAL == g.timer + Sum(dts)
    ensures Run(g, dts).open <==> (g.open <==> Flips(g, dts) % 2 == 0)
  {
    if dts != [] {
      var init := dts[..|dts| - 1];
      GateRun(g, init);
      GateStepMeaning(Run(g, init), dts[|dts| - 1]);
      var k := Flips(g, init);
      assert (k + 1) % 2 == 0 <==> k % 2 != 0;
      if Run(g, dts).open != Run(g, init).open {
        assert Flips(g, dts) == k + 1;
      } else {
        assert Flips(g, dts) == k;
      }
    }
  }

  // ---- the tile map object ----------------------------------------------------------------

  class TileMap {
    var tiles: seq<seq<Tile>>
    var dotsRemaining: int
    var totalDots: int
    var gatesOpen: bool
    var gateTimer: real
    var gateTelegraphTimer: real
    var gateFlashing: bool
    var board: Option<BoardData>
    var warpPairs: seq<WarpPair>

    /** The dot counter equals the DOT/POWER tiles left; the grid is empty before the
        first load and ROWS x COLS after it. */
    predicate Valid()
      reads this
    {
      || (tiles == [] && dotsRemaining == 0)
      || (Shaped(tiles) && dotsRemaining == Count(tiles, Dots))
    }

    function View(): MapView
      reads this
    {
      MapView(tiles, warpPairs)
    }

    function Gate(): GateClock
      reads this
    {
      GateClock(gatesOpen, gateTimer, gateTelegraphTimer, gateFlashing)
    }

    /** The state a rebuild from `b` leaves behind. */
    predicate Rebuilt(b: BoardData)
      reads this
    {
      && tiles == Copied(b.tiles)
      && dotsRemaining == Count(b.tiles, Dots)
      && totalDots == dotsRemaining
      && Gate() == GateClock(true, 0.0, 0.0, false)
    }

    constructor()
      ensures Valid()
      ensures tiles == [] && dotsRemaining == 0 && totalDots == 0
      ensures Gate() == GateClock(true, 0.0, 0.0, false)
      ensures board == None && warpPairs == []
    {
      tiles := [];
      dotsRemaining := 0;
      totalDots := 0;
      gatesOpen := true;
      gateTimer := 0.0;
      gateTelegraphTimer := 0.0;
      gateFlashing := false;
      board := None;
      warpPairs := [];
    }

    /** `loadBoard`: remember the board and its warp pairs, then rebuild. */
    method LoadBoard(b: BoardData)
      requires Valid()
      modifies this
      ensures Valid() && Rebuilt(b)
      ensures board == Some(b) && warpPairs == b.warpPairs
    {
      board := Some(b);
      warpPairs := b.warpPairs;
      Rebuild();
    }

    /** `rebuildFromBoard`: copy the remembered board and recount its dots; without a
        board nothing happens. */
    method Rebuild()
      requires Valid()
      modifies this
      ensures Valid()
      ensures board == old(board) && warpPairs == old(warpPairs)
      ensures old(board).Some? ==> Rebuilt(old(board).value)
      ensures old(board).None? ==> tiles == old(tiles) && dotsRemaining == old(dotsRemaining)
                                   && totalDots == old(totalDots) && Gate() == old(Gate())
    {
      if board.None? {
        return;
      }
      var b := board.value.tiles;
      CopyTiles(b);
      totalDots := dotsRemaining;
      gatesOpen := true;
      gateTimer := 0.0;
      gateTelegraphTimer := 0.0;
      gateFlashing := false;
      CopiedDots(b);
    }

    /** The nested loops of `rebuildFromBoard`: refill the grid row by row from `b`
        and count its dots. */
    method CopyTiles(b: seq<seq<Tile>>)
      modifies this
      ensures tiles == Copied(b) && dotsRemaining == Count(b, Dots)
      ensures board == old(board) && warpPairs == old(warpPairs)
      ensures totalDots == old(totalDots) && Gate() == old(Gate())
    {
      dotsRemaining := 0;
      tiles := [];
      for r := 0 to ROWS
        invariant board == old(board) && warpPairs == old(warpPairs)
        invariant totalDots == old(totalDots) && Gate() == old(Gate())
        invariant tiles == Copied(b)[..r]
        invariant dotsRemaining == CountRows(b, Dots, r)
      {
        FillRow(b, r);
        CopiedPrefix(b, r);
      }
    }

    /** One pass of the outer loop of `rebuildFromBoard`: append row r of the copy and
        count its dots. */
    method FillRow(b: seq<seq<Tile>>, r: int)
      modifies this
      ensures tiles == old(tiles) + [CopyRow(b, r)]
      ensures dotsRemaining == old(dotsRemaining) + CountRow(b, Dots, r, COLS)
      ensures board == old(board) && warpPairs == old(warpPairs)
      ensures totalDots == old(totalDots) && Gate() == old(Gate())
    {
      var row: seq<Tile> := [];
      ghost var d0 := dotsRemaining;
      for c := 0 to COLS
        invariant board == old(board) && warpPairs == old(warpPairs) && tiles == old(tiles)
        invariant totalDots == old(totalDots) && Gate() == old(Gate())
        invariant row == CopyRow(b, r)[..c]
        invariant dotsRemaining == d0 + CountRow(b, Dots, r, c)
      {
        var t := OrEmpty(TileAt(b, c, r));
        row := row + [t];
        if IsDotTile(t) {
          dotsRemaining := dotsRemaining + 1;
        }
      }
      assert row == CopyRow(b, r);
      tiles := tiles + [row];
    }

    /** `reset`: rebuild from the remembered board. */
    method Reset()
      requires Valid()
      modifies this
      ensures Valid()
      ensures board == old(board) && warpPairs == old(warpPairs)
      ensures old(board).Some? ==> Rebuilt(old(board).value)
    {
      Rebuild();
    }

    /** `eatDot`: a DOT or POWER tile becomes EMPTY, the counter drops by one and the
        old kind is returned; anything else returns EMPTY and changes nothing. */
    method EatDot(col: int, row: int) returns (eaten: Tile)
      requires Valid()
      modifies this
      ensures Valid()
      ensures var was := TileAt(old(tiles), col, row);
        if was.Some? && IsDotTile(was.value) then
          && eaten == was.value
          && tiles == old(tiles)[row := old(tiles)[row][col := Empty]]
          && dotsRemaining == old(dotsRemaining) - 1
        else
          eaten == Empty && tiles == old(tiles) && dotsRemaining == old(dotsRemaining)
      ensures totalDots == old(totalDots) && Gate() == old(Gate())
      ensures board == old(board) && warpPairs == old(warpPairs)
    {
      var t := TileAt(tiles, col, row);
      if t.Some? && IsDotTile(t.value) {
        EatOneDot(tiles, col, row);
        tiles := tiles[row := tiles[row][col := Empty]];
        dotsRemaining := dotsRemaining - 1;
        eaten := t.value;
      } else {
        eaten := Empty;
      }
    }

    /** `getWarpDestination`: the pair list scanned in order, as WarpDestination
        specifies it. */
    method GetWarpDestination(col: int, row: int) returns (dest: Option<TilePos>)
      ensures dest == WarpDestination(warpPairs, TilePos(col, row))
    {
      var p := TilePos(col, row);
      var i := 0;
      while i < |warpPairs|
        invariant 0 <= i <= |warpPairs|
        invariant WarpDestination(warpPairs[i..], p) == WarpDestination(warpPairs, p)
      {
        var wp := warpPairs[i];
        if wp.a == p {
          return Some(wp.b);
        }
        if wp.b == p {
          return Some(wp.a);
        }
        assert warpPairs[i..][1..] == warpPairs[i + 1..];
        i := i + 1;
      }
      return None;
    }

    /** `updateGate(dt)`: advance the gate clock by dt milliseconds. */
    method UpdateGate(dt: real)
      modifies this
      ensures Gate() == GateStep(old(Gate()), dt)
      ensures tiles == old(tiles) && dotsRemaining == old(dotsRemaining) && totalDots == old(totalDots)
      ensures board == old(board) && warpPairs == old(warpPairs)
    {
      gateTimer := gateTimer + dt;
      var timeUntilToggle := GATE_TOGGLE_INTERVAL - GateRem(gateTimer);
      gateFlashing := timeUntilToggle <= GATE_TELEGRAPH_DURATION;
      gateTelegraphTimer := gateTelegraphTimer + dt;
      if gateTimer >= GATE_TOGGLE_INTERVAL {
        gateTimer := gateTimer - GATE_TOGGLE_INTERVAL;
        gatesOpen := !gatesOpen;
      }
    }
  }
}
