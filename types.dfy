/** Constants and plain data shapes of the game: the grid geometry, speeds,
    durations, scores, and the value records that flow between components. */
module Types {

  // ---- grid geometry --------------------------------------------------------

  const TILE: nat := 16
  const COLS: nat := 28
  const ROWS: nat := 31
  /** Width of the board in pixels (COLS * TILE), the tunnel-wrap period. */
  const BOARD_W: real := 448.0

  // ---- speeds, in pixels per second ------------------------------------------

  const PACMAN_SPEED: real := 80.0
  const GHOST_SPEED: real := 75.0
  const GHOST_FRIGHTENED_SPEED: real := 40.0
  const GHOST_EATEN_SPEED: real := 160.0
  const SPEED_PAD_MULTIPLIER: real := 1.5

  // ---- durations, in milliseconds --------------------------------------------

  const FRIGHTENED_DURATION: real := 8000.0
  const FRIGHTENED_FLASH_AT: real := 6000.0

  /** A phase length of the scatter/chase schedule; the last chase phase never ends. */
  datatype Limit = Finite(ms: real) | Unbounded

  const SCATTER_DURATIONS: seq<Limit> := [Finite(7000.0), Finite(7000.0), Finite(5000.0), Finite(5000.0)]
  const CHASE_DURATIONS: seq<Limit> := [Finite(20000.0), Finite(20000.0), Finite(20000.0), Unbounded]

  const READY_DURATION: real := 2000.0
  const DEAD_DURATION: real := 1500.0
  const LEVEL_CLEAR_DURATION: real := 2000.0
  const GATE_TOGGLE_INTERVAL: real := 15000.0
  const GATE_TELEGRAPH_DURATION: real := 3000.0
  const GHOST_EAT_FREEZE: real := 500.0
  const FRUIT_DURATION: real := 10000.0

  // ---- scoring ----------------------------------------------------------------

  const SCORE_DOT: int := 10
  const SCORE_POWER: int := 50
  const SCORE_GHOST_BASE: int := 200
  const EXTRA_LIFE_AT: int := 10000
  const FRUIT_DOT_THRESHOLDS: seq<int> := [70, 170]
  /** Points of the eight fruit kinds (Cherry .. Key); names and colours are presentation. */
  const FRUIT_POINTS: seq<int> := [100, 300, 500, 700, 1000, 2000, 3000, 5000]
  const HIGH_SCORE_MAX: nat := 5

  // ---- enumerations -------------------------------------------------------------

  datatype GamePhase = Menu | Ready | Playing | Paused | Dead | LevelClear | GameOver | EnterName | LevelSelect

  /** `NoDir` is the source's Direction.NONE. */
  datatype Direction = Up | Down | Left | Right | NoDir

  datatype Tile = Empty | Wall | Dot | Power | Gate | Tunnel | GhostHouse | SpeedPad | WarpTunnel

  datatype GhostMode = Scatter | Chase | Frightened | Eaten

  datatype GhostName = Blinky | Pinky | Inky | Clyde

  // ---- records ----------------------------------------------------------------------

  datatype Option<T> = None | Some(value: T)

  datatype Position = Position(x: real, y: real)

  datatype TilePos = TilePos(col: int, row: int)

  datatype HighScoreEntry = HighScoreEntry(name: string, score: int)

  /** Two warp endpoints sharing the digit `id`; `a` comes before `b` in row-major order. */
  datatype WarpPair = WarpPair(id: char, a: TilePos, b: TilePos)

  datatype GhostSpawnConfig = GhostSpawnConfig(
    name: GhostName,
    startCol: int,
    startRow: int,
    startDir: Direction,
    releaseDelay: real,
    releaseDir: Direction)

  datatype BoardData = BoardData(
    tiles: seq<seq<Tile>>,
    pacmanSpawn: TilePos,
    ghostHouseEntrance: TilePos,
    ghostSpawns: seq<GhostSpawnConfig>,
    fruitSpawn: TilePos,
    scatterTargets: seq<TilePos>,
    warpPairs: seq<WarpPair>,
    hasSpeedPads: bool,
    dotCount: int)

  datatype BonusFruit = BonusFruit(col: int, row: int, typeIndex: int, timer: real, eaten: bool)

  /** Centre pixel of a tile along one axis (col * TILE + TILE / 2). */
  function Centre(i: int): real
  {
    (i * 16) as real + 8.0
  }

  /** Tile index of a pixel coordinate along one axis (Math.floor(v / TILE)). */
  function TileIndex(v: real): int
  {
    (v / 16.0).Floor
  }

  /** The pixel centre of a tile lies in that tile: TileIndex undoes Centre. */
  lemma {:induction false} TileIndexOfCentre(i: int)
    ensures TileIndex(Centre(i)) == i
  {
    var v := Centre(i);
    assert v / 16.0 == i as real + 0.5;
  }
}
