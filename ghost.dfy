/** A ghost: its release from the house, the scatter/chase schedule and the
    frightened interlude, the choice of direction at each new tile centre, the
    four chase personalities, and the move with its wrap, warp and return to
    the house after being eaten. Timers count milliseconds; `dt` is in seconds. */
module GhostEntity {
  import opened Types
  import opened Grid
  import opened TileMaps
  import opened PacManEntity

  const MAX_GHOST_TRAIL: nat := 6

  /** `oppositeDir`: NoDir is its own opposite. */
  function OppositeDir(d: Direction): (o: Direction)
    ensures o == NoDir <==> d == NoDir
    ensures Vertical(o) <==> Vertical(d)
  {
    match d
    case Up => Down
    case Down => Up
    case Left => Right
    case Right => Left
    case NoDir => NoDir
  }

  /** Reversing twice restores the direction, and a real direction is never its
      own opposite. */
  lemma OppositeInvolution(d: Direction)
    ensures OppositeDir(OppositeDir(d)) == d
    ensures d != NoDir ==> OppositeDir(d) != d
  {
  }

  // ---- configuration -----------------------------------------------------------------

  /** What a ghost is told about itself; only `configure` changes it. */
  datatype GhostConfig = GhostConfig(
    name: GhostName,
    start: TilePos,
    startDir: Direction,
    releaseDelay: real,
    releaseDir: Direction,
    entrance: TilePos,
    scatterTarget: TilePos)

  /** `GHOST_CONFIGS[index]`, with the default house entrance (14, 11). */
  function DefaultConfig(index: int): (cfg: GhostConfig)
    requires 0 <= index < 4
    ensures cfg.entrance == TilePos(14, 11)
    ensures cfg.releaseDelay == 0.0 <==> index == 0
  {
    if index == 0 then GhostConfig(Blinky, TilePos(14, 11), Left, 0.0, Left, TilePos(14, 11), TilePos(25, 0))
    else if index == 1 then GhostConfig(Pinky, TilePos(14, 14), Down, 1500.0, Right, TilePos(14, 11), TilePos(2, 0))
    else if index == 2 then GhostConfig(Inky, TilePos(12, 14), Up, 4000.0, Left, TilePos(14, 11), TilePos(27, 30))
    else GhostConfig(Clyde, TilePos(16, 14), Up, 6500.0, Right, TilePos(14, 11), TilePos(0, 30))
  }

  // ---- the mode clock --------------------------------------------------------------------

  /** The fields `updateMode`, `frighten` and `eat` work on. */
  datatype ModeClock = ModeClock(
    mode: GhostMode,
    previousMode: GhostMode,
    frightTimer: real,
    isFlashing: bool,
    modeIndex: nat,
    modeTimer: real,
    inScatter: bool)

  const INITIAL_CLOCK: ModeClock := ModeClock(Scatter, Scatter, 0.0, false, 0, 0.0, true)

  /** The mode of the current phase of the schedule. */
  function PhaseMode(inScatter: bool): GhostMode
  {
    if inScatter then Scatter else Chase
  }

  /** The length of the current phase: the phase's table read at modeIndex, clamped
      to the last entry. */
  function PhaseLimit(inScatter: bool, modeIndex: nat): Limit
  {
    var durations := if inScatter then SCATTER_DURATIONS else CHASE_DURATIONS;
    durations[if modeIndex < 3 then modeIndex else 3]
  }

  predicate Reached(t: real, l: Limit)
  {
    l.Finite? && t >= l.ms
  }

  /** `updateMode(dt)`: the new clock, and whether a phase change happened (which
      reverses the ghost and clears its decision tile). */
  function ModeStep(c: ModeClock, dt: real): (ModeClock, bool)
  {
    if c.mode == Frightened then
      var t := c.frightTimer + dt * 1000.0;
      if t >= FRIGHTENED_DURATION then (c.(mode := c.previousMode, frightTimer := 0.0, isFlashing := false), false)
      else (c.(frightTimer := t, isFlashing := t >= FRIGHTENED_FLASH_AT), false)
    else if c.mode == Eaten then (c, false)
    else
      var t := c.modeTimer + dt * 1000.0;
      if Reached(t, PhaseLimit(c.inScatter, c.modeIndex)) then
        var inScatter := !c.inScatter;
        var mode := PhaseMode(inScatter);
        (c.(modeTimer := 0.0, inScatter := inScatter,
            modeIndex := if inScatter then c.modeIndex else c.modeIndex + 1,
            mode := mode, previousMode := mode), true)
      else (c.(modeTimer := t), false)
  }

  /** The frightened interlude: the fright timer runs, flashing from 6000 ms on, and
      at 8000 ms the mode saved on frightening comes back; the schedule is paused. */
  lemma FrightenedStep(c: ModeClock, dt: real)
    requires c.mode == Frightened
    ensures var (c', switched) := ModeStep(c, dt);
      var t := c.frightTimer + dt * 1000.0;
      && !switched
      && c'.modeIndex == c.modeIndex && c'.modeTimer == c.modeTimer && c'.inScatter == c.inScatter
      && c'.previousMode == c.previousMode
      && (t >= FRIGHTENED_DURATION ==> c'.mode == c.previousMode && c'.frightTimer == 0.0 && !c'.isFlashing)
      && (t < FRIGHTENED_DURATION ==> c'.mode == Frightened && c'.frightTimer == t
                                      && (c'.isFlashing <==> t >= FRIGHTENED_FLASH_AT))
  {
  }

  /** An eaten ghost's clock stands still. */
  lemma EatenStep(c: ModeClock, dt: real)
    requires c.mode == Eaten
    ensures ModeStep(c, dt) == (c, false)
  {
  }

  /** In scatter or chase, the phase timer runs and the phase flips exactly when it
      reaches the phase's limit; entering a chase phase advances the index. */
  lemma {:induction false} ScheduleStep(c: ModeClock, dt: real)
    requires c.mode == Scatter || c.mode == Chase
    ensures var (c', switched) := ModeStep(c, dt);
      var t := c.modeTimer + dt * 1000.0;
      && (switched <==> Reached(t, PhaseLimit(c.inScatter, c.modeIndex)))
      && (switched ==> && c'.inScatter == !c.inScatter && c'.modeTimer == 0.0
                       && c'.mode == PhaseMode(c'.inScatter) && c'.previousMode == c'.mode
                       && c'.modeIndex == (if c.inScatter then c.modeIndex + 1 else c.modeIndex))
      && (!switched ==> c' == c.(modeTimer := t))
      && c'.frightTimer == c.frightTimer && c'.isFlashing == c.isFlashing
  {
  }

  /** The bookkeeping that ties the mode to the schedule: the saved mode is always
      the phase's mode, a scatter or chase mode is the phase's mode, and a chase
      phase is never the schedule's first entry. */
  predicate Coherent(c: ModeClock)
  {
    && c.previousMode == PhaseMode(c.inScatter)
    && (c.mode == Scatter || c.mode == Chase ==> c.mode == PhaseMode(c.inScatter))
    && (!c.inScatter ==> c.modeIndex >= 1)
  }

  lemma ModeStepKeepsCoherent(c: ModeClock, dt: real)
    requires Coherent(c)
    ensures Coherent(ModeStep(c, dt).0)
  {
  }

  /** The first chase phase reads CHASE_DURATIONS[1], and once the index reaches 3 a
      chase phase never ends: the schedule settles in chase for good. */
  lemma {:induction false} ChaseForever(c: ModeClock, dt: real)
    requires Coherent(c) && c.mode == Chase && c.modeIndex >= 3
    ensures ModeStep(c, dt).0.mode == Chase && !ModeStep(c, dt).1
  {
    assert !c.inScatter;
    assert PhaseLimit(c.inScatter, c.modeIndex) == Unbounded;
  }

  /** `frighten`, corrected: an eaten ghost is left alone; otherwise it turns
      frightened with a fresh timer, saving the mode to come back to, except that
      a ghost already frightened keeps the mode it saved the first time. */
  function Frighten(c: ModeClock): (c': ModeClock)
    ensures c.mode == Eaten ==> c' == c
    ensures c.mode != Eaten ==> c'.mode == Frightened && c'.frightTimer == 0.0 && !c'.isFlashing
    ensures c'.previousMode != Frightened || c.previousMode == Frightened
  {
    if c.mode == Eaten then c
    else c.(mode := Frightened,
            previousMode := if c.mode == Frightened then c.previousMode else c.mode,
            frightTimer := 0.0, isFlashing := false)
  }

  /** `frighten` as the source writes it, and as the ghosts of this model run it: an
      eaten ghost is left alone; any other turns frightened with a fresh timer, and
      the saved mode is whatever the mode was, Frightened included. */
  function FrightenAsWritten(c: ModeClock): (c': ModeClock)
    ensures c.mode == Eaten ==> c' == c
    ensures c.mode != Eaten ==>
      && c'.mode == Frightened && c'.previousMode == c.mode && c'.frightTimer == 0.0 && !c'.isFlashing
      && c'.modeIndex == c.modeIndex && c'.modeTimer == c.modeTimer && c'.inScatter == c.inScatter
    ensures Coherent(c) && c.mode != Frightened ==> Coherent(c')
  {
    if c.mode == Eaten then c
    else c.(mode := Frightened, previousMode := c.mode, frightTimer := 0.0, isFlashing := false)
  }

  /** A second power pellet while the ghosts are still blue (the source frightens
      every ghost on each pellet) saves Frightened as the mode to come back to ... */
  lemma AsWrittenSecondPellet()
    ensures var c := FrightenAsWritten(FrightenAsWritten(INITIAL_CLOCK));
      c.mode == Frightened && c.previousMode == Frightened
  {
  }

  /** ... and from then on the fright never ends: every step leaves the ghost
      frightened with Frightened saved, however much time passes, until it is eaten. */
  lemma AsWrittenFrightNeverEnds(c: ModeClock, dt: real)
    requires c.mode == Frightened && c.previousMode == Frightened
    ensures ModeStep(c, dt).0.mode == Frightened && ModeStep(c, dt).0.previousMode == Frightened
  {
  }

  /** With the corrected `frighten`, the bookkeeping holds ... */
  lemma FrightenKeepsCoherent(c: ModeClock)
    requires Coherent(c)
    ensures Coherent(Frighten(c))
  {
  }

  /** ... so a fright always ends, after FRIGHTENED_DURATION, in the phase's mode. */
  lemma {:induction false} FrightEnds(c: ModeClock, dt: real)
    requires Coherent(c) && c.mode == Frightened
    requires c.frightTimer + dt * 1000.0 >= FRIGHTENED_DURATION
    ensures ModeStep(c, dt).0.mode == PhaseMode(c.inScatter)
    ensures ModeStep(c, dt).0.mode != Frightened
  {
    FrightenedStep(c, dt);
  }

  /** `eat`: eaten, with the fright timer cleared; the saved mode is kept. */
  function EatClock(c: ModeClock): (c': ModeClock)
    ensures c'.mode == Eaten && c'.frightTimer == 0.0
    ensures c'.previousMode == c.previousMode && c'.inScatter == c.inScatter
    ensures c'.modeIndex == c.modeIndex && c'.modeTimer == c.modeTimer
  {
    c.(mode := Eaten, frightTimer := 0.0)
  }

  lemma EatKeepsCoherent(c: ModeClock)
    requires Coherent(c)
    ensures Coherent(EatClock(c))
  {
  }

  // ---- choosing a direction -------------------------------------------------------------

  /** The order in which `chooseDirection` tries the directions. */
  const DIRS: seq<Direction> := [Up, Left, Down, Right]
  /** How many directions a decision tries (named, so that the verifier does not unroll
      the whole choice wherever a decision occurs). */
  const DIR_COUNT: nat := |DIRS|

  /** The tile next to `t` in direction d. */
  function Neighbour(t: TilePos, d: Direction): TilePos
  {
    TilePos(t.col + (if d == Left then -1 else if d == Right then 1 else 0),
            t.row + (if d == Up then -1 else if d == Down then 1 else 0))
  }

  function SqDist(a: TilePos, b: TilePos): int
  {
    (a.col - b.col) * (a.col - b.col) + (a.row - b.row) * (a.row - b.row)
  }

  /** What one decision looks at: the map, the ghost's tile and direction, whether it
      is eaten, whether it flees (frightened), and the tile it aims at or flees from. */
  datatype Decision = Decision(m: MapView, tile: TilePos, dir: Direction, isEaten: bool, flee: bool, aim: TilePos)

  /** d may be chosen: it does not reverse the ghost and its neighbour tile is walkable. */
  predicate Candidate(q: Decision, d: Direction)
    requires Shaped(q.m.tiles)
  {
    var n := Neighbour(q.tile, d);
    d != OppositeDir(q.dir) && IsWalkable(q.m, n.col, n.row, true, q.isEaten)
  }

  function Score(q: Decision, d: Direction): int
  {
    SqDist(Neighbour(q.tile, d), q.aim)
  }

  /** A candidate replaces the best so far: the first one always does, later ones
      only by being strictly farther (fleeing) or strictly nearer (otherwise). */
  predicate Improves(flee: bool, dist: int, best: Option<int>)
  {
    best.None? || (if flee then dist > best.value else dist < best.value)
  }

  /** The loop's (bestDir, bestDist) after trying the first n directions of DIRS;
      None is the source's null and Infinity. */
  function Pick(q: Decision, n: nat): (Option<Direction>, Option<int>)
    requires Shaped(q.m.tiles) && n <= |DIRS|
  {
    if n == 0 then (None, None)
    else
      var (bd, bs) := Pick(q, n - 1);
      var d := DIRS[n - 1];
      if Candidate(q, d) && Improves(q.flee, Score(q, d), bs) then (Some(d), Some(Score(q, d))) else (bd, bs)
  }

  /** `chooseDirection`: the best pick, or the reverse when there is no candidate. */
  function ChooseDir(q: Decision): Direction
    requires Shaped(q.m.tiles)
  {
    var (bd, _) := Pick(q, DIR_COUNT);
    if bd.Some? then bd.value else OppositeDir(q.dir)
  }

  /** d is at least as good as e for the decision: nearer or equal (farther or equal
      when fleeing). */
  predicate AtLeastAsGood(q: Decision, d: Direction, e: Direction)
  {
    if q.flee then Score(q, d) >= Score(q, e) else Score(q, d) <= Score(q, e)
  }

  /** The position of a direction in DIRS (4 for NoDir, which is not in it). */
  function IndexOf(d: Direction): (k: nat)
    ensures k < |DIRS| ==> DIRS[k] == d
    ensures d != NoDir ==> k < |DIRS|
  {
    match d
    case Up => 0
    case Left => 1
    case Down => 2
    case Right => 3
    case NoDir => 4
  }

  /** The loop's invariant: the best so far is the first candidate among the first n
      directions that no candidate among them beats, with its score; None exactly when
      none of them is a candidate. */
  lemma {:induction false} PickMeaning(q: Decision, n: nat)
    requires Shaped(q.m.tiles) && n <= |DIRS|
    ensures var (bd, bs) := Pick(q, n);
      && (bd.None? <==> forall i :: 0 <= i < n ==> !Candidate(q, DIRS[i]))
      && (bd.None? ==> bs.None?)
      && (bd.Some? ==>
            var k := IndexOf(bd.value);
            && bs == Some(Score(q, bd.value))
            && k < n && Candidate(q, bd.value)
            && (forall i :: 0 <= i < n && Candidate(q, DIRS[i]) ==> AtLeastAsGood(q, bd.value, DIRS[i]))
            && (forall i :: 0 <= i < k && Candidate(q, DIRS[i]) ==> !AtLeastAsGood(q, DIRS[i], bd.value)))
  {
    if n > 0 {
      PickMeaning(q, n - 1);
      var (bd, bs) := Pick(q, n - 1);
      var d := DIRS[n - 1];
      if Candidate(q, d) && Improves(q.flee, Score(q, d), bs) {
        assert Pick(q, n) == (Some(d), Some(Score(q, d)));
        assert IndexOf(d) == n - 1;
        assert forall i :: 0 <= i < n - 1 && Candidate(q, DIRS[i]) ==> !AtLeastAsGood(q, DIRS[i], d);
      } else {
        assert Pick(q, n) == (bd, bs);
      }
    }
  }

  /** What a decision promises: the ghost reverses only when no other way is open;
      otherwise it takes an open, non-reversing direction that minimises the squared
      distance to its target (maximises it from Pac-Man when frightened), ties going
      to the earliest of Up, Left, Down, Right. */
  lemma {:induction false} ChooseDirMeaning(q: Decision)
    requires Shaped(q.m.tiles)
    ensures var r := ChooseDir(q);
      && ((forall i :: 0 <= i < |DIRS| ==> !Candidate(q, DIRS[i])) ==> r == OppositeDir(q.dir))
      && ((exists i :: 0 <= i < |DIRS| && Candidate(q, DIRS[i])) ==>
            && r != OppositeDir(q.dir)
            && Candidate(q, r)
            && (forall i :: 0 <= i < |DIRS| && Candidate(q, DIRS[i]) ==> AtLeastAsGood(q, r, DIRS[i]))
            && (forall i :: 0 <= i < IndexOf(r) && Candidate(q, DIRS[i]) ==> !AtLeastAsGood(q, DIRS[i], r)))
  {
    PickMeaning(q, DIR_COUNT);
  }

  /** `chooseDirection`'s loop over DIRS, performing exactly the Pick recursion. */
  method Choose(q: Decision) returns (d: Direction)
    requires Shaped(q.m.tiles)
    ensures d == ChooseDir(q)
  {
    var opposite := OppositeDir(q.dir);
    var bestDir: Option<Direction> := None;
    var bestDist: Option<int> := None;
    for i := 0 to DIR_COUNT
      invariant (bestDir, bestDist) == Pick(q, i)
    {
      var e := DIRS[i];
      if e == opposite {
        continue;
      }
      var n := Neighbour(q.tile, e);
      if !IsWalkable(q.m, n.col, n.row, true, q.isEaten) {
        continue;
      }
      var dist := SqDist(n, q.aim);
      if q.flee {
        if bestDist.None? || dist > bestDist.value {
          bestDist := Some(dist);
          bestDir := Some(e);
        }
      } else {
        if bestDist.None? || dist < bestDist.value {
          bestDist := Some(dist);
          bestDir := Some(e);
        }
      }
    }
    d := if bestDir.Some? then bestDir.value else opposite;
  }

  // ---- targets ---------------------------------------------------------------------------

  /** The tile k tiles ahead of p in direction d, with the source's quirk that "ahead"
      when facing up is also k tiles to the left when `upLeft` holds. */
  function Ahead(p: TilePos, d: Direction, k: int, upLeft: bool): TilePos
  {
    match d
    case Up => TilePos(if upLeft then p.col - k else p.col, p.row - k)
    case Down => TilePos(p.col, p.row + k)
    case Left => TilePos(p.col - k, p.row)
    case Right => TilePos(p.col + k, p.row)
    case NoDir => p
  }

  /** `getTarget`: in scatter the ghost's corner, when eaten the house entrance;
      otherwise (chase, and frightened too, where the decision ignores it) its
      personality's target, from Pac-Man's tile and facing, its own tile, and
      Blinky's tile if it is given. */
  function Target(cfg: GhostConfig, mode: GhostMode, own: TilePos, pacTile: TilePos, pacDir: Direction,
                  blinky: Option<TilePos>): (t: TilePos)
    ensures mode == Scatter ==> t == cfg.scatterTarget
    ensures mode == Eaten ==> t == cfg.entrance
    ensures (mode == Chase || mode == Frightened) ==>
      match cfg.name
      case Blinky => t == pacTile
      case Pinky => t == Ahead(pacTile, pacDir, 4, true)
      case Inky =>
        var a := Ahead(pacTile, pacDir, 2, false);
        if blinky.Some? then t.col - a.col == a.col - blinky.value.col && t.row - a.row == a.row - blinky.value.row
        else t == a
      case Clyde => t == if SqDist(pacTile, own) > 64 then pacTile else cfg.scatterTarget
  {
    if mode == Scatter then cfg.scatterTarget
    else if mode == Eaten then cfg.entrance
    else match cfg.name
      case Blinky => pacTile
      case Pinky => Ahead(pacTile, pacDir, 4, true)
      case Inky =>
        var a := Ahead(pacTile, pacDir, 2, false);
        if blinky.Some? then TilePos(2 * a.col - blinky.value.col, 2 * a.row - blinky.value.row) else a
      case Clyde => if SqDist(pacTile, own) > 64 then pacTile else cfg.scatterTarget
  }

  /** Clyde chases only from more than eight tiles away: within that radius (closer
      or at exactly eight tiles) it heads for its corner. */
  lemma ClydeShyWithinEight(cfg: GhostConfig, own: TilePos, pacTile: TilePos, pacDir: Direction, blinky: Option<TilePos>)
    requires cfg.name == Clyde
    ensures Target(cfg, Chase, own, pacTile, pacDir, blinky) == pacTile || SqDist(pacTile, own) <= 64
    ensures SqDist(pacTile, own) <= 64 ==> Target(cfg, Chase, own, pacTile, pacDir, blinky) == cfg.scatterTarget
  {
  }

  // ---- one update --------------------------------------------------------------------------

  /** Everything `update` reads or writes besides the configuration. */
  datatype GhostState = GhostState(
    x: real, y: real,
    dir: Direction,
    clock: ModeClock,
    speed: real,
    released: bool,
    releaseTimer: real,
    lastDecision: TilePos,
    lastWarp: TilePos,
    trail: seq<Position>)

  /** The speed before the speed-pad multiplier. */
  function BaseSpeed(mode: GhostMode): (v: real)
    ensures mode == Frightened ==> v == GHOST_FRIGHTENED_SPEED
    ensures mode == Eaten ==> v == GHOST_EATEN_SPEED
    ensures mode == Scatter || mode == Chase ==> v == GHOST_SPEED
  {
    match mode
    case Frightened => GHOST_FRIGHTENED_SPEED
    case Eaten => GHOST_EATEN_SPEED
    case _ => GHOST_SPEED
  }

  /** Within two pixels of a tile centre along one axis. */
  predicate Near(v: real, c: real)
  {
    -2.0 < v - c < 2.0
  }

  /** `canMoveDir`: the tile PROBE pixels ahead (wrapped horizontally) is walkable
      for a ghost. */
  function GhostCanMove(m: MapView, x: real, y: real, dir: Direction, isEaten: bool): (ok: bool)
    requires Shaped(m.tiles)
    ensures var p := Shift(x, y, dir, PROBE);
            var t := ToTile(WrapX(p.x), p.y);
            ok <==> InWindow(t.col, t.row) && m.tiles[t.row][t.col] != Wall
  {
    var p := Shift(x, y, dir, PROBE);
    var t := ToTile(WrapX(p.x), p.y);
    IsWalkable(m, t.col, t.row, true, isEaten)
  }

  /** Where Pac-Man may go, a ghost may go too. */
  lemma GhostGoesWherePacManGoes(m: MapView, x: real, y: real, dir: Direction, isEaten: bool)
    requires Shaped(m.tiles)
    ensures CanMoveAt(m, x, y, dir) ==> GhostCanMove(m, x, y, dir, isEaten)
  {
  }

  /** Leaving the house: at the entrance's centre, heading the release direction,
      free to decide at once. */
  function Released(cfg: GhostConfig, s: GhostState): GhostState
  {
    s.(released := true, x := Centre(cfg.entrance.col), y := Centre(cfg.entrance.row),
       dir := cfg.releaseDir, lastDecision := NO_WARP)
  }

  /** Release bookkeeping and trail, which every stage of an active update but the
      last leaves alone. */
  predicate KeepsBookkeeping(s: GhostState, s': GhostState)
  {
    s'.released == s.released && s'.releaseTimer == s.releaseTimer && s'.trail == s.trail
  }

  /** The mode update, and the reversal that comes with a phase change. */
  function AfterMode(s: GhostState, dt: real): (r: GhostState)
    ensures KeepsBookkeeping(s, r) && r.x == s.x && r.y == s.y
    ensures Coherent(s.clock) ==> Coherent(r.clock)
  {
    var (c, switched) := ModeStep(s.clock, dt);
    if switched then s.(clock := c, dir := OppositeDir(s.dir), lastDecision := NO_WARP)
    else s.(clock := c)
  }

  /** The decision: near the centre of a tile other than the last decision tile, the
      ghost centres itself, records the tile and chooses a direction. */
  function Decide(cfg: GhostConfig, s: GhostState, m: MapView, pac: Position, pacDir: Direction,
                  blinky: Option<TilePos>): (r: GhostState)
    requires Shaped(m.tiles)
    ensures KeepsBookkeeping(s, r) && r.clock == s.clock && r.speed == s.speed
  {
    var tile := ToTile(s.x, s.y);
    if Near(s.x, Centre(tile.col)) && Near(s.y, Centre(tile.row)) && tile != s.lastDecision then
      var mode := s.clock.mode;
      var pacTile := ToTile(pac.x, pac.y);
      var aim := if mode == Frightened then pacTile else Target(cfg, mode, tile, pacTile, pacDir, blinky);
      s.(x := Centre(tile.col), y := Centre(tile.row), lastDecision := tile,
         dir := ChooseDir(Decision(m, tile, s.dir, mode == Eaten, mode == Frightened, aim)))
    else s
  }

  /** The move at the current speed, or, when blocked, a snap to the centre of `tile`
      (the tile before the decision) that lets the ghost decide again there. */
  function MoveOrBlock(s: GhostState, m: MapView, dt: real, tile: TilePos, isEaten: bool): (r: GhostState)
    requires Shaped(m.tiles)
    ensures KeepsBookkeeping(s, r) && r.clock == s.clock && r.dir == s.dir
  {
    if GhostCanMove(m, s.x, s.y, s.dir, isEaten) then
      var p := Shift(s.x, s.y, s.dir, s.speed * dt);
      s.(x := p.x, y := p.y)
    else s.(x := Centre(tile.col), y := Centre(tile.row), lastDecision := TilePos(-1, s.lastDecision.row))
  }

  /** The warp check; a teleport also clears the decision tile. */
  function GhostWarp(s: GhostState, pairs: seq<WarpPair>): (r: GhostState)
    ensures KeepsBookkeeping(s, r) && r.clock == s.clock && r.dir == s.dir
    ensures r.x == s.x || WarpDestination(pairs, ToTile(s.x, s.y)).Some?
  {
    var cur := ToTile(s.x, s.y);
    if cur == s.lastWarp then s
    else match WarpDestination(pairs, cur)
      case Some(d) => s.(x := Centre(d.col), y := Centre(d.row), lastWarp := d, lastDecision := NO_WARP)
      case None => s.(lastWarp := NO_WARP)
  }

  /** An eaten ghost within one column of the entrance, on its row, takes up the
      schedule's current mode again. */
  function ReturnHome(cfg: GhostConfig, s: GhostState): (r: GhostState)
    ensures KeepsBookkeeping(s, r) && r.x == s.x && r.y == s.y && r.dir == s.dir
    ensures Coherent(s.clock) ==> Coherent(r.clock)
  {
    var t := ToTile(s.x, s.y);
    if s.clock.mode == Eaten && t.row == cfg.entrance.row && -1 <= t.col - cfg.entrance.col <= 1 then
      var mode := PhaseMode(s.clock.inScatter);
      s.(clock := s.clock.(mode := mode, previousMode := mode), lastDecision := NO_WARP)
    else s
  }

  /** The part of `update` a released ghost performs. It leaves the release state
      alone and keeps the clock coherent; the trail grows by the new position and
      keeps at most MAX_GHOST_TRAIL points. */
  function Active(cfg: GhostConfig, s: GhostState, dt: real, m: MapView, pac: Position, pacDir: Direction,
                  blinky: Option<TilePos>): (r: GhostState)
    requires Shaped(m.tiles)
    ensures r.released == s.released && r.releaseTimer == s.releaseTimer
    ensures Coherent(s.clock) ==> Coherent(r.clock)
    ensures |s.trail| <= MAX_GHOST_TRAIL ==> |r.trail| <= MAX_GHOST_TRAIL
    ensures |r.trail| > 0 && r.trail[|r.trail| - 1] == Position(r.x, r.y)
  {
    var s1 := AfterMode(s, dt);
    var tile := ToTile(s1.x, s1.y);
    var speed := BaseSpeed(s1.clock.mode) * (if IsSpeedPad(m, tile.col, tile.row) then SPEED_PAD_MULTIPLIER else 1.0);
    Travel(cfg, Decide(cfg, s1.(speed := speed), m, pac, pacDir, blinky), m, dt, tile, s1.clock.mode == Eaten)
  }

  /** The second half of an active update, once the ghost has decided: the move or
      the snap back to `tile`, the wrap and the warp, the return home, and the
      trail. */
  function Travel(cfg: GhostConfig, s: GhostState, m: MapView, dt: real, tile: TilePos, isEaten: bool): (r: GhostState)
    requires Shaped(m.tiles)
    ensures r.released == s.released && r.releaseTimer == s.releaseTimer
    ensures Coherent(s.clock) ==> Coherent(r.clock)
    ensures |s.trail| <= MAX_GHOST_TRAIL ==> |r.trail| <= MAX_GHOST_TRAIL
    ensures |r.trail| > 0 && r.trail[|r.trail| - 1] == Position(r.x, r.y)
  {
    var s3 := MoveOrBlock(s, m, dt, tile, isEaten);
    var s4 := ReturnHome(cfg, GhostWarp(s3.(x := WrapX(s3.x)), m.warpPairs));
    s4.(trail := PushTrail(s4.trail, Position(s4.x, s4.y), MAX_GHOST_TRAIL))
  }

  /** One `update(dt, map, pacman, blinky)`. `wave` stands for the sine of the bob
      inside the house (the source's Math.sin of the release timer). A ghost is
      released once its release timer reaches its delay and stays released; the
      clock stays coherent and the trail bounded. */
  function GhostStep(cfg: GhostConfig, s: GhostState, dt: real, m: MapView, pac: Position, pacDir: Direction,
                blinky: Option<TilePos>, wave: real): (r: GhostState)
    requires Shaped(m.tiles)
    ensures r.released <==> s.released || s.releaseTimer + dt * 1000.0 >= cfg.releaseDelay
    ensures Coherent(s.clock) ==> Coherent(r.clock)
    ensures |s.trail| <= MAX_GHOST_TRAIL ==> |r.trail| <= MAX_GHOST_TRAIL
  {
    var rt := s.releaseTimer + dt * 1000.0;
    if !s.released && rt < cfg.releaseDelay then s.(releaseTimer := rt, y := Centre(cfg.start.row) + wave * 3.0)
    else Active(cfg, Awake(cfg, s, dt), dt, m, pac, pacDir, blinky)
  }

  /** The ghost an active update starts from: as it is when already released,
      otherwise just released with its timer advanced. */
  function Awake(cfg: GhostConfig, s: GhostState, dt: real): GhostState
  {
    if s.released then s else Released(cfg, s.(releaseTimer := s.releaseTimer + dt * 1000.0))
  }

  // ---- what one update promises ----------------------------------------------------------

  /** Inside the house before its delay is up, the ghost only counts time and bobs:
      at most three pixels from its spawn row's centre for a sine in [-1, 1]. */
  lemma WaitingInHouse(cfg: GhostConfig, s: GhostState, dt: real, m: MapView, pac: Position, pacDir: Direction,
                       blinky: Option<TilePos>, wave: real)
    requires Shaped(m.tiles) && !s.released && s.releaseTimer + dt * 1000.0 < cfg.releaseDelay
    requires -1.0 <= wave <= 1.0
    ensures var s' := GhostStep(cfg, s, dt, m, pac, pacDir, blinky, wave);
      && !s'.released && s'.releaseTimer == s.releaseTimer + dt * 1000.0
      && s' == s.(releaseTimer := s'.releaseTimer, y := s'.y)
      && -3.0 <= s'.y - Centre(cfg.start.row) <= 3.0
  {
  }

  /** An eaten ghost that reaches the entrance (its row, within one column) becomes
      the schedule's scatter or chase ghost again and may decide at once. */
  lemma {:induction false} ReturnHomeMeaning(cfg: GhostConfig, s: GhostState)
    requires Coherent(s.clock) && s.clock.mode == Eaten
    ensures var t := ToTile(s.x, s.y);
      var s' := ReturnHome(cfg, s);
      (t.row == cfg.entrance.row && -1 <= t.col - cfg.entrance.col <= 1) <==> s'.clock.mode != Eaten
    ensures ReturnHome(cfg, s).clock.mode != Eaten ==>
      && ReturnHome(cfg, s).clock.mode == PhaseMode(s.clock.inScatter)
      && ReturnHome(cfg, s).clock.mode != Frightened
      && ReturnHome(cfg, s).lastDecision == NO_WARP
  {
  }

  /** At most one decision per tile: a ghost whose last decision was at its current
      tile keeps going; a decision centres the ghost and records the tile. */
  lemma {:induction false} DecideOncePerTile(cfg: GhostConfig, s: GhostState, m: MapView, pac: Position,
                                             pacDir: Direction, blinky: Option<TilePos>)
    requires Shaped(m.tiles)
    ensures var t := ToTile(s.x, s.y);
      var s' := Decide(cfg, s, m, pac, pacDir, blinky);
      && (t == s.lastDecision ==> s' == s)
      && (s' != s ==> s'.lastDecision == t && s'.x == Centre(t.col) && s'.y == Centre(t.row)
                      && ToTile(s'.x, s'.y) == t)
  {
    var t := ToTile(s.x, s.y);
    TileRoundTrip(t.col, t.row, s.x, s.y);
  }

  /** A blocked ghost is put back on the centre of its tile with its decision tile
      forgotten, so it decides again there. */
  lemma BlockedReturnsToCentre(s: GhostState, m: MapView, dt: real, tile: TilePos, isEaten: bool)
    requires Shaped(m.tiles) && !GhostCanMove(m, s.x, s.y, s.dir, isEaten)
    ensures var s' := MoveOrBlock(s, m, dt, tile, isEaten);
      s'.x == Centre(tile.col) && s'.y == Centre(tile.row) && s'.lastDecision.col == -1
      && s'.dir == s.dir && s'.clock == s.clock
  {
  }

  // ---- the ghost object ------------------------------------------------------------------

  /** A ghost at its spawn (the constructor and `reset`): centred on its start tile,
      heading its start direction, at the start of the schedule, released at once
      exactly when its delay is zero, with nothing remembered. */
  function AtSpawn(cfg: GhostConfig, speed: real): (s: GhostState)
    ensures ToTile(s.x, s.y) == cfg.start && s.dir == cfg.startDir
    ensures Coherent(s.clock) && s.clock.mode == Scatter && s.clock.modeIndex == 0
    ensures s.released <==> cfg.releaseDelay == 0.0
    ensures s.releaseTimer == 0.0 && s.trail == []
  {
    TileIndexOfCentre(cfg.start.col);
    TileIndexOfCentre(cfg.start.row);
    GhostState(Centre(cfg.start.col), Centre(cfg.start.row), cfg.startDir, INITIAL_CLOCK, speed,
               cfg.releaseDelay == 0.0, 0.0, NO_WARP, NO_WARP, [])
  }

  /** `frighten` on the whole ghost, with the clock update as the source writes it:
      an eaten ghost is left alone; any other turns frightened, saving its current
      mode (Frightened on a second pellet), turns round and may decide again at
      once, without moving. */
  function FrightenGhost(s: GhostState): (r: GhostState)
    ensures s.clock.mode == Eaten ==> r == s
    ensures s.clock.mode != Eaten ==>
      && r.clock.mode == Frightened && r.clock.frightTimer == 0.0 && !r.clock.isFlashing
      && r.clock.previousMode == s.clock.mode
      && OppositeDir(r.dir) == s.dir
    ensures r.x == s.x && r.y == s.y && r.released == s.released && r.trail == s.trail
    ensures Coherent(s.clock) && s.clock.mode != Frightened ==> Coherent(r.clock)
  {
    OppositeInvolution(s.dir);
    if s.clock.mode == Eaten then s
    else s.(clock := FrightenAsWritten(s.clock), dir := OppositeDir(s.dir), lastDecision := NO_WARP)
  }

  /** A power pellet eaten while a ghost is still blue leaves that ghost with
      Frightened saved, so its fright does not end until it is eaten. */
  lemma {:induction false} SecondPelletLocksFright(s: GhostState, dt: real)
    requires s.clock.mode == Frightened
    ensures FrightenGhost(s).clock.previousMode == Frightened
    ensures ModeStep(FrightenGhost(s).clock, dt).0.mode == Frightened
  {
    AsWrittenFrightNeverEnds(FrightenGhost(s).clock, dt);
  }

  /** `eat` on the whole ghost: the clock as EatClock says and a fresh decision at
      the current tile; the ghost does not move. */
  function EatGhost(s: GhostState): (r: GhostState)
    ensures r.clock.mode == Eaten && r.clock.frightTimer == 0.0
    ensures r.x == s.x && r.y == s.y && r.dir == s.dir && r.released == s.released && r.trail == s.trail
    ensures Coherent(s.clock) ==> Coherent(r.clock)
  {
    s.(clock := EatClock(s.clock), lastDecision := NO_WARP)
  }

  /** A ghost object. The fields only `configure` writes (start tile and
      direction, release delay and direction, house entrance, scatter corner, with
      the name) are held together as `cfg`; the mode-cycling fields (mode,
      previousMode, frightTimer, isFlashing, modeIndex, modeTimer, inScatter) as
      `clock`; and each col/row pair the source keeps (last decision tile, last warp
      tile) as one TilePos. */
  class Ghost {
    var cfg: GhostConfig
    var x: real
    var y: real
    var dir: Direction
    var clock: ModeClock
    var speed: real
    var released: bool
    var releaseTimer: real
    var lastDecision: TilePos
    var lastWarp: TilePos
    var trail: seq<Position>

    function State(): GhostState
      reads this
    {
      GhostState(x, y, dir, clock, speed, released, releaseTimer, lastDecision, lastWarp, trail)
    }

    /** `new Ghost(index)`: the index-th default configuration, at its spawn. */
    constructor(index: int)
      requires 0 <= index < 4
      ensures cfg == DefaultConfig(index)
      ensures State() == AtSpawn(cfg, GHOST_SPEED)
    {
      var c := DefaultConfig(index);
      cfg := c;
      dir := c.startDir;
      clock := INITIAL_CLOCK;
      speed := GHOST_SPEED;
      releaseTimer := 0.0;
      lastDecision := NO_WARP;
      lastWarp := NO_WARP;
      trail := [];
      x := Centre(c.start.col);
      y := Centre(c.start.row);
      released := c.releaseDelay == 0.0;
    }

    /** `configure`: the board's spawn, entrance and scatter corner replace the
        configuration; the name and the ghost's state stay. */
    method Configure(spawn: GhostSpawnConfig, entrance: TilePos, scatter: TilePos)
      modifies this
      ensures cfg == GhostConfig(old(cfg.name), TilePos(spawn.startCol, spawn.startRow), spawn.startDir,
                                 spawn.releaseDelay, spawn.releaseDir, entrance, scatter)
      ensures State() == old(State())
    {
      cfg := GhostConfig(cfg.name, TilePos(spawn.startCol, spawn.startRow), spawn.startDir,
                         spawn.releaseDelay, spawn.releaseDir, entrance, scatter);
    }

    /** `reset`: back at the spawn of the current configuration; only the speed of
        the last update is kept. */
    method Reset()
      modifies this
      ensures State() == AtSpawn(cfg, old(speed))
      ensures cfg == old(cfg)
    {
      x := Centre(cfg.start.col);
      y := Centre(cfg.start.row);
      dir := cfg.startDir;
      ResetTimers();
    }

    /** The rest of `reset`: the schedule, the release and the memories. */
    method ResetTimers()
      modifies this
      ensures State() == old(State()).(clock := INITIAL_CLOCK, released := cfg.releaseDelay == 0.0, releaseTimer := 0.0,
                                       trail := [], lastDecision := NO_WARP, lastWarp := NO_WARP)
      ensures cfg == old(cfg)
    {
      clock := INITIAL_CLOCK;
      released := cfg.releaseDelay == 0.0;
      releaseTimer := 0.0;
      trail := [];
      lastDecision := NO_WARP;
      lastWarp := NO_WARP;
    }

    /** `frighten`: the current mode is saved, even when it is Frightened. */
    method Frighten()
      modifies this
      ensures State() == FrightenGhost(old(State()))
      ensures cfg == old(cfg)
    {
      if clock.mode == Eaten {
        return;
      }
      clock := clock.(mode := Frightened, previousMode := clock.mode, frightTimer := 0.0, isFlashing := false);
      dir := OppositeDir(dir);
      lastDecision := NO_WARP;
    }

    /** `reverseDirection`: turn round and decide again at the current tile. */
    method ReverseDirection()
      modifies this
      ensures State() == old(State()).(dir := OppositeDir(old(dir)), lastDecision := NO_WARP)
      ensures cfg == old(cfg)
    {
      dir := OppositeDir(dir);
      lastDecision := NO_WARP;
    }

    /** `eat`: the clock as EatClock says, and a fresh decision at the current tile. */
    method Eat()
      modifies this
      ensures State() == EatGhost(old(State()))
      ensures cfg == old(cfg)
    {
      clock := clock.(mode := Eaten, frightTimer := 0.0);
      lastDecision := NO_WARP;
    }

    /** `getTile`: the tile whose 16-pixel square holds the ghost's position. */
    function GetTile(): (t: TilePos)
      reads this
      ensures (t.col * 16) as real <= x < ((t.col + 1) * 16) as real
      ensures (t.row * 16) as real <= y < ((t.row + 1) * 16) as real
    {
      ToTile(x, y)
    }

    /** `update(dt, map, pacman, blinky)`: exactly one GhostStep. `blinky` is null for
        Blinky itself, as the game passes it; `wave` is the sine of the bob. */
    method Update(dt: real, tileMap: TileMap, pacman: PacMan, blinky: Ghost?, wave: real)
      requires Shaped(tileMap.tiles) && blinky != this
      modifies this
      ensures State() == GhostStep(cfg, old(State()), dt, tileMap.View(), Position(old(pacman.x), old(pacman.y)),
                                   old(pacman.dir), if blinky == null then None else Some(old(blinky.GetTile())), wave)
      ensures cfg == old(cfg)
    {
      var pac := Position(pacman.x, pacman.y);
      var pacDir := pacman.dir;
      var blinkyTile := if blinky == null then None else Some(blinky.GetTile());
      StepWith(dt, tileMap, pac, pacDir, blinkyTile, wave);
    }

    /** `update` once Pac-Man's position and direction and Blinky's tile are read. */
    method StepWith(dt: real, tileMap: TileMap, pac: Position, pacDir: Direction, blinkyTile: Option<TilePos>,
                    wave: real)
      requires Shaped(tileMap.tiles)
      modifies this
      ensures State() == GhostStep(cfg, old(State()), dt, tileMap.View(), pac, pacDir, blinkyTile, wave)
      ensures cfg == old(cfg)
    {
      ghost var s0 := State();
      if !released {
        var waiting := TickRelease(dt, wave);
        if waiting {
          return;
        }
      }
      assert State() == Awake(cfg, s0, dt);
      ActiveUpdate(dt, tileMap, pac, pacDir, blinkyTile);
    }

    /** The release check of `update` for a ghost still in the house: the timer runs;
        before the delay the ghost bobs, after it the ghost is released. */
    method TickRelease(dt: real, wave: real) returns (waiting: bool)
      modifies this
      ensures var rt := old(releaseTimer) + dt * 1000.0;
        && (waiting <==> rt < cfg.releaseDelay)
        && (waiting ==> State() == old(State()).(releaseTimer := rt, y := Centre(cfg.start.row) + wave * 3.0))
        && (!waiting ==> State() == Released(cfg, old(State()).(releaseTimer := rt)))
      ensures cfg == old(cfg)
    {
      releaseTimer := releaseTimer + dt * 1000.0;
      waiting := releaseTimer < cfg.releaseDelay;
      if waiting {
        y := Centre(cfg.start.row) + wave * 3.0;
      } else {
        Release();
      }
    }

    /** The release: to the entrance's centre, heading the release direction. */
    method Release()
      modifies this
      ensures State() == Released(cfg, old(State()))
      ensures cfg == old(cfg)
    {
      released := true;
      x := Centre(cfg.entrance.col);
      y := Centre(cfg.entrance.row);
      dir := cfg.releaseDir;
      lastDecision := NO_WARP;
    }

    /** The part of `update` after the release check. */
    method ActiveUpdate(dt: real, tileMap: TileMap, pac: Position, pacDir: Direction, blinkyTile: Option<TilePos>)
      requires Shaped(tileMap.tiles)
      modifies this
      ensures State() == Active(cfg, old(State()), dt, tileMap.View(), pac, pacDir, blinkyTile)
      ensures cfg == old(cfg)
    {
      var m := tileMap.View();
      UpdateMode(dt);
      var curTile := ToTile(x, y);
      var isEaten := clock.mode == Eaten;
      SetSpeed(m);
      DecideAt(m, pac, pacDir, blinkyTile);
      TravelUpdate(tileMap, dt, curTile, isEaten);
    }

    /** The part of `update` after the decision, as Travel says. */
    method TravelUpdate(tileMap: TileMap, dt: real, tile: TilePos, isEaten: bool)
      requires Shaped(tileMap.tiles)
      modifies this
      ensures State() == Travel(cfg, old(State()), tileMap.View(), dt, tile, isEaten)
      ensures cfg == old(cfg)
    {
      MoveOrSnap(tileMap.View(), dt, tile, isEaten);
      WrapAndWarp(tileMap);
      ReturnCheck();
      RecordTrail();
    }

    /** The speed of `update`: the mode's base speed, times the pad multiplier on a
        speed pad. */
    method SetSpeed(m: MapView)
      requires Shaped(m.tiles)
      modifies this
      ensures var t := ToTile(x, y);
        State() == old(State()).(speed := BaseSpeed(clock.mode)
                                          * (if IsSpeedPad(m, t.col, t.row) then SPEED_PAD_MULTIPLIER else 1.0))
      ensures cfg == old(cfg)
    {
      var curTile := ToTile(x, y);
      var baseSpeed := match clock.mode
        case Frightened => GHOST_FRIGHTENED_SPEED
        case Eaten => GHOST_EATEN_SPEED
        case _ => GHOST_SPEED;
      var speedMult := if IsSpeedPad(m, curTile.col, curTile.row) then SPEED_PAD_MULTIPLIER else 1.0;
      speed := baseSpeed * speedMult;
    }

    /** The trail of `update`: the position is appended and the oldest dropped past
        MAX_GHOST_TRAIL. */
    method RecordTrail()
      modifies this
      ensures State() == old(State()).(trail := PushTrail(old(trail), Position(x, y), MAX_GHOST_TRAIL))
      ensures cfg == old(cfg)
    {
      trail := trail + [Position(x, y)];
      if |trail| > MAX_GHOST_TRAIL {
        trail := trail[1..];
      }
    }

    /** `updateMode(dt)`. */
    method UpdateMode(dt: real)
      modifies this
      ensures State() == AfterMode(old(State()), dt)
      ensures cfg == old(cfg)
    {
      if clock.mode == Frightened {
        var frightTimer := clock.frightTimer + dt * 1000.0;
        if frightTimer >= FRIGHTENED_DURATION {
          clock := clock.(mode := clock.previousMode, frightTimer := 0.0, isFlashing := false);
        } else {
          clock := clock.(frightTimer := frightTimer, isFlashing := frightTimer >= FRIGHTENED_FLASH_AT);
        }
        return;
      }
      if clock.mode == Eaten {
        return;
      }
      var modeTimer := clock.modeTimer + dt * 1000.0;
      var durations := if clock.inScatter then SCATTER_DURATIONS else CHASE_DURATIONS;
      var limit := durations[if clock.modeIndex < |durations| - 1 then clock.modeIndex else |durations| - 1];
      if limit.Finite? && modeTimer >= limit.ms {
        var inScatter := !clock.inScatter;
        var modeIndex := if inScatter then clock.modeIndex else clock.modeIndex + 1;
        var mode := if inScatter then Scatter else Chase;
        clock := clock.(modeTimer := 0.0, inScatter := inScatter, modeIndex := modeIndex,
                        mode := mode, previousMode := mode);
        dir := OppositeDir(dir);
        lastDecision := NO_WARP;
      } else {
        clock := clock.(modeTimer := modeTimer);
      }
    }

    /** The decision of `update`, with `chooseDirection` and its target. */
    method DecideAt(m: MapView, pac: Position, pacDir: Direction, blinkyTile: Option<TilePos>)
      requires Shaped(m.tiles)
      modifies this
      ensures State() == Decide(cfg, old(State()), m, pac, pacDir, blinkyTile)
      ensures cfg == old(cfg)
    {
      var tile := TilePos(TileIndex(x), TileIndex(y));
      var nearCenter := -2.0 < x - Centre(tile.col) < 2.0 && -2.0 < y - Centre(tile.row) < 2.0;
      if nearCenter && tile != lastDecision {
        var mode := clock.mode;
        var pacTile := ToTile(pac.x, pac.y);
        var aim := if mode == Frightened then pacTile
                   else Target(cfg, mode, tile, pacTile, pacDir, blinkyTile);
        var d := Choose(Decision(m, tile, dir, mode == Eaten, mode == Frightened, aim));
        SettleAt(tile, d);
      }
    }

    /** A decision taken: centred on `tile`, remembered there, heading `d`. */
    method SettleAt(tile: TilePos, d: Direction)
      modifies this
      ensures State() == old(State()).(x := Centre(tile.col), y := Centre(tile.row), lastDecision := tile, dir := d)
      ensures cfg == old(cfg)
    {
      x := Centre(tile.col);
      y := Centre(tile.row);
      lastDecision := tile;
      dir := d;
    }

    /** The move of `update`, or the snap to the centre of `tile` when blocked. */
    method MoveOrSnap(m: MapView, dt: real, tile: TilePos, isEaten: bool)
      requires Shaped(m.tiles)
      modifies this
      ensures State() == MoveOrBlock(old(State()), m, dt, tile, isEaten)
      ensures cfg == old(cfg)
    {
      if GhostCanMove(m, x, y, dir, isEaten) {
        var dist := speed * dt;
        match dir {
          case Up => y := y - dist;
          case Down => y := y + dist;
          case Left => x := x - dist;
          case Right => x := x + dist;
          case NoDir =>
        }
      } else {
        x := Centre(tile.col);
        y := Centre(tile.row);
        lastDecision := TilePos(-1, lastDecision.row);
      }
    }

    /** The tunnel wrap and the warp check of `update`. */
    method WrapAndWarp(tileMap: TileMap)
      modifies this
      ensures State() == GhostWarp(old(State()).(x := WrapX(old(x))), tileMap.warpPairs)
      ensures cfg == old(cfg)
    {
      if x < 0.0 {
        x := x + BOARD_W;
      }
      if x >= BOARD_W {
        x := x - BOARD_W;
      }
      var afterTile := ToTile(x, y);
      if afterTile != lastWarp {
        var dest := tileMap.GetWarpDestination(afterTile.col, afterTile.row);
        if dest.Some? {
          x := Centre(dest.value.col);
          y := Centre(dest.value.row);
          lastWarp := dest.value;
          lastDecision := NO_WARP;
        } else {
          lastWarp := NO_WARP;
        }
      }
    }

    /** The return of an eaten ghost that reaches the entrance. */
    method ReturnCheck()
      modifies this
      ensures State() == ReturnHome(cfg, old(State()))
      ensures cfg == old(cfg)
    {
      if clock.mode == Eaten {
        var tile := ToTile(x, y);
        if tile.row == cfg.entrance.row && -1 <= tile.col - cfg.entrance.col <= 1 {
          var mode := if clock.inScatter then Scatter else Chase;
          clock := clock.(mode := mode, previousMode := mode);
          lastDecision := NO_WARP;
        }
      }
    }
  }

  /** `createGhosts`: Blinky, Pinky, Inky and Clyde, each a new ghost with its
      default configuration at its spawn. */
  method CreateGhosts() returns (gs: seq<Ghost>)
    ensures |gs| == 4
    ensures forall i, j :: 0 <= i < j < |gs| ==> gs[i] != gs[j]
    ensures forall i :: 0 <= i < |gs| ==> fresh(gs[i]) && gs[i].cfg == DefaultConfig(i)
    ensures forall i :: 0 <= i < |gs| ==> gs[i].State() == AtSpawn(DefaultConfig(i), GHOST_SPEED)
  {
    gs := [];
    for i := 0 to 4
      invariant |gs| == i
      invariant forall j, k :: 0 <= j < k < i ==> gs[j] != gs[k]
      invariant forall j :: 0 <= j < i ==> fresh(gs[j]) && gs[j].cfg == DefaultConfig(j)
      invariant forall j :: 0 <= j < i ==> gs[j].State() == AtSpawn(DefaultConfig(j), GHOST_SPEED)
    {
      var g := new Ghost(i);
      gs := gs + [g];
    }
  }
}
