/** Pac-Man: a buffered turn, a move along the current direction at the base
    speed (half as fast again on a speed pad), the horizontal tunnel wrap, the
    warp-tunnel teleport with its anti-bounce memory, and the short trail.
    `Step` is the whole of one update as a function of the state before it; the
    class's `Update` is proved to perform exactly that step. */
module PacManEntity {
  import opened Types
  import opened Grid
  import opened TileMaps

  const MAX_TRAIL: nat := 8
  /** How far ahead of the centre a move is probed: half a tile less one pixel,
      plus two pixels of lookahead. */
  const PROBE: real := 9.0
  /** The tile coordinates of "no warp remembered". */
  const NO_WARP: TilePos := TilePos(-1, -1)

  /** Everything an update reads or writes. */
  datatype PacState = PacState(
    x: real, y: real,
    dir: Direction, nextDir: Direction,
    alive: bool, deathTimer: real,
    trail: seq<Position>,
    lastWarp: TilePos)

  /** The point `d` pixels from (x, y) in direction `dir`; NoDir stays put. */
  function Shift(x: real, y: real, dir: Direction, d: real): (p: Position)
    ensures dir == Up ==> p == Position(x, y - d)
    ensures dir == Down ==> p == Position(x, y + d)
    ensures dir == Left ==> p == Position(x - d, y)
    ensures dir == Right ==> p == Position(x + d, y)
    ensures dir == NoDir ==> p == Position(x, y)
  {
    match dir
    case Up => Position(x, y - d)
    case Down => Position(x, y + d)
    case Left => Position(x - d, y)
    case Right => Position(x + d, y)
    case NoDir => Position(x, y)
  }

  /** The tunnel wrap: add one board width below zero, then subtract one at or
      beyond the right edge. */
  function WrapX(x: real): (w: real)
    ensures -BOARD_W <= x < 2.0 * BOARD_W ==> 0.0 <= w < BOARD_W
    ensures 0.0 <= x < BOARD_W ==> w == x
    ensures w == x || w == x + BOARD_W || w == x - BOARD_W
  {
    var x1 := if x < 0.0 then x + BOARD_W else x;
    if x1 >= BOARD_W then x1 - BOARD_W else x1
  }

  /** `canMove`: the tile PROBE pixels ahead (wrapped horizontally) is walkable
      for Pac-Man. */
  function CanMoveAt(m: MapView, x: real, y: real, dir: Direction): (ok: bool)
    requires Shaped(m.tiles)
    ensures var p := Shift(x, y, dir, PROBE);
            var t := ToTile(WrapX(p.x), p.y);
            ok <==> InWindow(t.col, t.row) && m.tiles[t.row][t.col] !in {Wall, Gate, GhostHouse}
  {
    var p := Shift(x, y, dir, PROBE);
    var t := ToTile(WrapX(p.x), p.y);
    IsWalkable(m, t.col, t.row, false, false)
  }

  predicate Vertical(dir: Direction)
  {
    dir == Up || dir == Down
  }

  /** `snapToGrid`: centre the coordinate across the direction of travel. */
  function Snap(x: real, y: real, dir: Direction): (p: Position)
    ensures Vertical(dir) ==> p == Position(Centre(TileIndex(x)), y)
    ensures !Vertical(dir) ==> p == Position(x, Centre(TileIndex(y)))
  {
    if Vertical(dir) then Position(Centre(TileIndex(x)), y) else Position(x, Centre(TileIndex(y)))
  }

  /** Append a point and drop the oldest while more than `max` are kept. */
  function PushTrail(trail: seq<Position>, p: Position, max: nat): (t: seq<Position>)
    requires max > 0
    ensures |trail| <= max ==> |t| <= max
    ensures |t| > 0 && t[|t| - 1] == p
    ensures t == trail + [p] || t == (trail + [p])[1..]
  {
    var t := trail + [p];
    if |t| > max then t[1..] else t
  }

  /** The direction after the buffered turn is tried. */
  function Turned(s: PacState, m: MapView): Direction
    requires Shaped(m.tiles)
  {
    if s.nextDir != s.dir && CanMoveAt(m, s.x, s.y, s.nextDir) then s.nextDir else s.dir
  }

  /** The pixels moved in one update of dt seconds from (x, y). */
  function StepLength(m: MapView, x: real, y: real, dt: real): real
    requires Shaped(m.tiles)
  {
    var t := ToTile(x, y);
    var mult := if IsSpeedPad(m, t.col, t.row) then SPEED_PAD_MULTIPLIER else 1.0;
    PACMAN_SPEED * mult * dt
  }

  /** Where a move ends before the warp check: shifted, then wrapped. */
  function Moved(p: Position, dir: Direction, d: real): Position
  {
    var q := Shift(p.x, p.y, dir, d);
    Position(WrapX(q.x), q.y)
  }

  /** The warp check on landing at `q`: a warp end other than the remembered one
      sends Pac-Man to the centre of its partner, which is remembered; landing on
      any other tile that is not the remembered one forgets it. */
  function Warped(pairs: seq<WarpPair>, q: Position, lastWarp: TilePos): (Position, TilePos)
  {
    var cur := ToTile(q.x, q.y);
    if cur == lastWarp then (q, lastWarp)
    else match WarpDestination(pairs, cur)
      case Some(d) => (ToPixel(d.col, d.row), d)
      case None => (q, NO_WARP)
  }

  /** One `update(dt, map)`, dt in seconds. The mouth animation is not part of the state. */
  function Step(s: PacState, dt: real, m: MapView): PacState
    requires Shaped(m.tiles)
  {
    if !s.alive then s.(deathTimer := s.deathTimer + dt)
    else
      var dir := Turned(s, m);
      var p := if dir != s.dir then Snap(s.x, s.y, dir) else Position(s.x, s.y);
      if !CanMoveAt(m, p.x, p.y, dir) then s.(x := p.x, y := p.y, dir := dir)
      else
        var q := Moved(p, dir, StepLength(m, p.x, p.y, dt));
        var (r, lw) := Warped(m.warpPairs, q, s.lastWarp);
        s.(x := r.x, y := r.y, dir := dir, trail := PushTrail(s.trail, r, MAX_TRAIL), lastWarp := lw)
  }

  // ---- what one step promises ------------------------------------------------------

  /** A dead Pac-Man only counts the death animation's time. */
  lemma DeadOnlyTicks(s: PacState, dt: real, m: MapView)
    requires Shaped(m.tiles) && !s.alive
    ensures var s' := Step(s, dt, m);
      s'.deathTimer == s.deathTimer + dt && s' == s.(deathTimer := s'.deathTimer)
  {
  }

  /** The buffered direction is taken exactly when it differs from the current one
      and the tile ahead in it is open; on taking it, the coordinate across the new
      direction is centred in its tile. The buffer itself is never cleared. */
  lemma {:induction false} TurnMeaning(s: PacState, dt: real, m: MapView)
    requires Shaped(m.tiles) && s.alive
    ensures var s' := Step(s, dt, m);
      && s'.nextDir == s.nextDir
      && (s'.dir == s.nextDir <==> s.nextDir == s.dir || CanMoveAt(m, s.x, s.y, s.nextDir))
      && (s'.dir != s.nextDir ==> s'.dir == s.dir)
  {
  }

  /** Blocked in the (possibly new) direction, Pac-Man does not move beyond the snap:
      trail, warp memory and timer stay as they were. */
  lemma BlockedStaysPut(s: PacState, dt: real, m: MapView)
    requires Shaped(m.tiles) && s.alive
    requires var dir := Turned(s, m);
      var p := if dir != s.dir then Snap(s.x, s.y, dir) else Position(s.x, s.y);
      !CanMoveAt(m, p.x, p.y, dir)
    ensures var s' := Step(s, dt, m);
      && s'.trail == s.trail && s'.lastWarp == s.lastWarp && s'.deathTimer == s.deathTimer
      && (s'.dir == s.dir ==> s'.x == s.x && s'.y == s.y)
  {
  }

  /** Without a turn, a wrap or a warp, a move covers exactly the step length
      along the axis of travel, in its direction, and keeps the other coordinate. */
  lemma {:induction false} MoveLength(s: PacState, dt: real, m: MapView)
    requires Shaped(m.tiles) && s.alive && Turned(s, m) == s.dir
    requires CanMoveAt(m, s.x, s.y, s.dir)
    requires var q := Shift(s.x, s.y, s.dir, StepLength(m, s.x, s.y, dt));
      0.0 <= q.x < BOARD_W && ToTile(q.x, q.y) == s.lastWarp
    ensures var s' := Step(s, dt, m);
      var d := StepLength(m, s.x, s.y, dt);
      && (s.dir == Up ==> s'.x == s.x && s'.y == s.y - d)
      && (s.dir == Down ==> s'.x == s.x && s'.y == s.y + d)
      && (s.dir == Left ==> s'.x == s.x - d && s'.y == s.y)
      && (s.dir == Right ==> s'.x == s.x + d && s'.y == s.y)
      && (s.dir == NoDir ==> s'.x == s.x && s'.y == s.y)
  {
  }

  /** The step length is the base speed, or half as much again on a speed pad, times
      the elapsed time. */
  lemma StepLengthMeaning(m: MapView, x: real, y: real, dt: real)
    requires Shaped(m.tiles)
    ensures var t := ToTile(x, y);
      StepLength(m, x, y, dt) == if InWindow(t.col, t.row) && m.tiles[t.row][t.col] == SpeedPad
                                 then 120.0 * dt else 80.0 * dt
  {
  }

  /** Every warp end lies on the board. */
  predicate EndsOnBoard(pairs: seq<WarpPair>)
  {
    forall i :: 0 <= i < |pairs| ==> InWindow(pairs[i].a.col, pairs[i].a.row) && InWindow(pairs[i].b.col, pairs[i].b.row)
  }

  lemma {:induction false} DestinationOnBoard(pairs: seq<WarpPair>, p: TilePos)
    requires EndsOnBoard(pairs)
    ensures WarpDestination(pairs, p).Some? ==> InWindow(WarpDestination(pairs, p).value.col, WarpDestination(pairs, p).value.row)
  {
    if pairs != [] {
      DestinationOnBoard(pairs[1..], p);
    }
  }

  /** Centring a coordinate on the board keeps it on the board. */
  lemma CentreOnBoard(x: real)
    requires 0.0 <= x < BOARD_W
    ensures 0.0 <= Centre(TileIndex(x)) < BOARD_W
  {
    assert 0 <= TileIndex(x) < COLS;
  }

  /** Starting on the board and moving less than one board width, Pac-Man's x stays
      within [0, BOARD_W): the snap centres inside the board, the wrap folds back
      what the move pushed off either edge, and a warp lands on a tile centre. */
  lemma {:induction false} StaysOnBoard(s: PacState, dt: real, m: MapView)
    requires Shaped(m.tiles) && s.alive && EndsOnBoard(m.warpPairs)
    requires 0.0 <= s.x < BOARD_W && 0.0 <= dt && 1.5 * PACMAN_SPEED * dt <= BOARD_W
    ensures 0.0 <= Step(s, dt, m).x < BOARD_W
  {
    var dir := Turned(s, m);
    var p := if dir != s.dir then Snap(s.x, s.y, dir) else Position(s.x, s.y);
    CentreOnBoard(s.x);
    assert 0.0 <= p.x < BOARD_W;
    if CanMoveAt(m, p.x, p.y, dir) {
      var d := StepLength(m, p.x, p.y, dt);
      StepLengthMeaning(m, p.x, p.y, dt);
      LandsOnBoard(m.warpPairs, p, dir, d, s.lastWarp);
      assert Step(s, dt, m).x == Warped(m.warpPairs, Moved(p, dir, d), s.lastWarp).0.x;
    }
  }

  /** A move of at most one board width from a point on the board, wrapped and
      then warped, ends on the board. */
  lemma {:induction false} LandsOnBoard(pairs: seq<WarpPair>, p: Position, dir: Direction, d: real, lastWarp: TilePos)
    requires EndsOnBoard(pairs) && 0.0 <= p.x < BOARD_W && 0.0 <= d <= BOARD_W
    ensures 0.0 <= Warped(pairs, Moved(p, dir, d), lastWarp).0.x < BOARD_W
  {
    assert -BOARD_W <= Shift(p.x, p.y, dir, d).x < 2.0 * BOARD_W;
    var q := Moved(p, dir, d);
    DestinationOnBoard(pairs, ToTile(q.x, q.y));
  }

  /** Landing on a warp end other than the remembered one teleports to the centre of
      its partner and remembers the partner; landing back on the remembered tile
      (the partner, right after a teleport) does not teleport again. */
  lemma {:induction false} WarpMeaning(pairs: seq<WarpPair>, q: Position, lastWarp: TilePos)
    ensures var cur := ToTile(q.x, q.y);
      var (r, lw) := Warped(pairs, q, lastWarp);
      && (cur == lastWarp ==> r == q && lw == lastWarp)
      && (cur != lastWarp && WarpDestination(pairs, cur).Some? ==>
            lw == WarpDestination(pairs, cur).value && ToTile(r.x, r.y) == lw && r == ToPixel(lw.col, lw.row))
      && (cur != lastWarp && WarpDestination(pairs, cur).None? ==> r == q && lw == NO_WARP)
  {
    var cur := ToTile(q.x, q.y);
    if cur != lastWarp && WarpDestination(pairs, cur).Some? {
      var d := WarpDestination(pairs, cur).value;
      TileRoundTrip(d.col, d.row, q.x, q.y);
    }
  }

  /** The trail never holds more than MAX_TRAIL points, and after a move its last
      point is where Pac-Man now is. */
  lemma TrailBounded(s: PacState, dt: real, m: MapView)
    requires Shaped(m.tiles) && |s.trail| <= MAX_TRAIL
    ensures var s' := Step(s, dt, m);
      && |s'.trail| <= MAX_TRAIL
      && (s'.trail != s.trail ==> s'.trail[|s'.trail| - 1] == Position(s'.x, s'.y))
  {
  }

  // ---- the entity ----------------------------------------------------------------------

  class PacMan {
    var x: real
    var y: real
    var dir: Direction
    var nextDir: Direction
    var alive: bool
    var deathTimer: real
    var trail: seq<Position>
    var spawnX: real
    var spawnY: real
    var lastWarpCol: int
    var lastWarpRow: int

    function State(): PacState
      reads this
    {
      PacState(x, y, dir, nextDir, alive, deathTimer, trail, TilePos(lastWarpCol, lastWarpRow))
    }

    /** The default spawn is the centre of tile (14, 22), and Pac-Man starts there,
        facing left, alive, with nothing remembered. */
    constructor()
      ensures spawnX == Centre(14) && spawnY == Centre(22)
      ensures State() == PacState(Centre(14), Centre(22), Left, Left, true, 0.0, [], NO_WARP)
    {
      spawnX := Centre(14);
      spawnY := Centre(22);
      x := Centre(14);
      y := Centre(22);
      dir := Left;
      nextDir := Left;
      alive := true;
      deathTimer := 0.0;
      trail := [];
      lastWarpCol := -1;
      lastWarpRow := -1;
    }

    /** `setSpawn`: the spawn becomes the centre of (col, row); nothing else moves. */
    method SetSpawn(col: int, row: int)
      modifies this
      ensures spawnX == Centre(col) && spawnY == Centre(row)
      ensures TileIndex(spawnX) == col && TileIndex(spawnY) == row
      ensures State() == old(State())
    {
      spawnX := Centre(col);
      spawnY := Centre(row);
      TileIndexOfCentre(col);
      TileIndexOfCentre(row);
    }

    /** `reset`: back at the spawn, facing left, alive, with an empty trail and
        nothing remembered. */
    method Reset()
      modifies this
      ensures State() == PacState(spawnX, spawnY, Left, Left, true, 0.0, [], NO_WARP)
      ensures spawnX == old(spawnX) && spawnY == old(spawnY)
    {
      x := spawnX;
      y := spawnY;
      dir := Left;
      nextDir := Left;
      alive := true;
      deathTimer := 0.0;
      trail := [];
      lastWarpCol := -1;
      lastWarpRow := -1;
    }

    /** `update(dt, map)`: exactly one Step on the loaded map. */
    method Update(dt: real, tileMap: TileMap)
      requires Shaped(tileMap.tiles)
      modifies this
      ensures State() == Step(old(State()), dt, tileMap.View())
      ensures spawnX == old(spawnX) && spawnY == old(spawnY)
    {
      var m := tileMap.View();
      if !alive {
        deathTimer := deathTimer + dt;
        return;
      }

      Turn(m);
      if !CanMoveAt(m, x, y, dir) {
        return;
      }
      MoveOn(dt, tileMap);
    }

    /** The turn of `update`: the buffered direction is taken, with a snap to the
        grid, when it differs and the way is open. */
    method Turn(m: MapView)
      requires Shaped(m.tiles)
      modifies this
      ensures var s := old(State()); var d := Turned(s, m);
        State() == s.(x := x, y := y, dir := d)
        && Position(x, y) == if d != s.dir then Snap(s.x, s.y, d) else Position(s.x, s.y)
      ensures spawnX == old(spawnX) && spawnY == old(spawnY)
    {
      if nextDir != dir {
        if CanMoveAt(m, x, y, nextDir) {
          dir := nextDir;
          SnapToGrid();
        }
      }
    }

    /** The move of `update` once the way ahead is open: the shift, the wrap, the
        warp check and the trail. */
    method MoveOn(dt: real, tileMap: TileMap)
      requires Shaped(tileMap.tiles)
      modifies this
      ensures var s := old(State());
        var q := Moved(Position(s.x, s.y), s.dir, StepLength(tileMap.View(), s.x, s.y, dt));
        var w := Warped(tileMap.warpPairs, q, s.lastWarp);
        State() == s.(x := w.0.x, y := w.0.y, trail := PushTrail(s.trail, w.0, MAX_TRAIL), lastWarp := w.1)
      ensures spawnX == old(spawnX) && spawnY == old(spawnY)
    {
      Advance(dt, tileMap.View());
      WarpCheck(tileMap);
      trail := trail + [Position(x, y)];
      if |trail| > MAX_TRAIL {
        trail := trail[1..];
      }
    }

    /** The move of `update`: the speed-pad multiplier, the shift, the tunnel wrap. */
    method Advance(dt: real, m: MapView)
      requires Shaped(m.tiles)
      modifies this
      ensures Position(x, y) == Moved(Position(old(x), old(y)), dir, StepLength(m, old(x), old(y), dt))
      ensures State() == old(State()).(x := x, y := y)
      ensures spawnX == old(spawnX) && spawnY == old(spawnY)
    {
      var tile := ToTile(x, y);
      var speedMult := if IsSpeedPad(m, tile.col, tile.row) then SPEED_PAD_MULTIPLIER else 1.0;
      var dist := PACMAN_SPEED * speedMult * dt;

      match dir {
        case Up => y := y - dist;
        case Down => y := y + dist;
        case Left => x := x - dist;
        case Right => x := x + dist;
        case NoDir =>
      }

      if x < 0.0 {
        x := x + BOARD_W;
      }
      if x >= BOARD_W {
        x := x - BOARD_W;
      }
    }

    /** The warp check of `update`, with its anti-bounce memory. */
    method WarpCheck(tileMap: TileMap)
      modifies this
      ensures (Position(x, y), TilePos(lastWarpCol, lastWarpRow))
              == Warped(tileMap.warpPairs, Position(old(x), old(y)), old(TilePos(lastWarpCol, lastWarpRow)))
      ensures State() == old(State()).(x := x, y := y, lastWarp := TilePos(lastWarpCol, lastWarpRow))
      ensures spawnX == old(spawnX) && spawnY == old(spawnY)
    {
      var curTile := ToTile(x, y);
      if curTile.col != lastWarpCol || curTile.row != lastWarpRow {
        var dest := tileMap.GetWarpDestination(curTile.col, curTile.row);
        if dest.Some? {
          x := Centre(dest.value.col);
          y := Centre(dest.value.row);
          lastWarpCol := dest.value.col;
          lastWarpRow := dest.value.row;
        } else {
          lastWarpCol := -1;
          lastWarpRow := -1;
        }
      }
    }

    /** `snapToGrid`, on the current direction. */
    method SnapToGrid()
      modifies this
      ensures Position(x, y) == Snap(old(x), old(y), dir)
      ensures State() == old(State()).(x := x, y := y)
      ensures spawnX == old(spawnX) && spawnY == old(spawnY)
    {
      if dir == Up || dir == Down {
        x := Centre(TileIndex(x));
      } else {
        y := Centre(TileIndex(y));
      }
    }
  }
}
