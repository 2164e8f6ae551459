# Pac-Man core in Dafny

This project models the deterministic core of a browser Pac-Man game written in TypeScript. It follows the level pipeline and one frame of play:

- **Board loading.** A 31-row, 28-column ASCII board definition is parsed into tiles, spawns, warp pairs and scatter corners (`board_parser.dfy`). The board is then validated (`board_validator.dfy`). It must be 31 × 28, with Pac-Man's spawn on a present cell that is not a WALL, at least 6 ghost-house tiles and a gate. Every dot must be reachable by a breadth-first search that wraps at the columns, and the dot count must not be zero. Unreachable warp endpoints and a low dot count give warnings only.
- **Levels.** The level manager keeps one slot per definition and hands out the board for a level, falling back to the first usable board (`level_manager.dfy`).
- **The tile map.** It holds the live grid, the dot counter, the timed gates and tile-to-pixel conversion (`tilemap.dfy`).
- **The actors.** Pac-Man moves with a buffered direction, tunnels and the death animation (`pacman.dfy`). Each ghost has a release delay, its own scatter/chase clock over the shared duration tables (paused while that ghost is frightened, eaten or waiting in the house), fright, being eaten and its four targeting personalities (`ghost.dfy`).
- **The coordinator.** Every frame the game applies the freeze, pause, restart and gate keys. It then moves the actors, eats dots and power pellets, spawns and times the bonus fruit, resolves ghost contacts with the combo score, and awards the extra life. It also handles level clear, losing a life, and the top-five high-score table with name entry (`game.dfy`).
- **Keyboard input.** Key events become the buffered direction, one-shot flags and the two text prompts (`input.dfy`).

Shared constants and value types are in `types.dfy`. Counting over the 31×28 window is in `grid.dfy`.

Objects whose fields the game updates in place are classes: the tile map, Pac-Man, each ghost, the input handler, the level manager and the game. Each mutating method is proved against a pure transition function of a value snapshot (`State()`, `Snapshot()`), and the properties are proved about those functions. Positions and timers are real numbers. `Math.floor` is `.Floor`, and JavaScript's truncating `%` is written out where a negative operand can occur.

## Model

| member | source | states |
|---|---|---|
| BoardParser.CharToTile | src/world/board-parser.ts:10-26 | gives each tile kind exactly its symbols; EMPTY takes 'P', ' ' and every unknown character; '1'..'9' are warp tunnels |
| BoardParser.LinesOfJoin | src/world/board-parser.ts:29 | splitting on newlines and dropping empty lines returns the non-empty lines an author joined |
| BoardParserFacts.ParseSeesAuthoredLines | src/world/board-parser.ts:29 | a board text written as newline-joined rows is read back as exactly those rows |
| BoardParser.FirstBadRow | src/world/board-parser.ts:46-51 | returns the first row whose width is not 28, with all rows before it of width 28; None means every row has width 28 |
| BoardParser.FirstBadRowKept | src/world/board-parser.ts:46-51 | once a too-short or too-long row is found, scanning further rows reports the same row |
| BoardParser.SpawnUpToMeaning | src/world/board-parser.ts:57-59 | the recorded Pac-Man spawn is a scanned 'P', and every other scanned 'P' comes before it: the last 'P' wins |
| BoardParser.SeenUpToMeaning | src/world/board-parser.ts:67-71 | the hasSpeedPads / hasGhostHouse flag is set exactly when some scanned cell holds the symbol |
| BoardParser.WarpIdsMeaning | src/world/board-parser.ts:61-65 | the warp map's keys are the warp digits seen so far, each once, in first-seen order |
| BoardParser.EndsMeaning | src/world/board-parser.ts:61-65 | a digit's endpoint list holds exactly the scanned cells with that digit, in row-major order |
| BoardParser.UnseenHasNoEnds | src/world/board-parser.ts:62 | a digit not yet seen has no endpoints (the `?? []` default) |
| BoardParser.HouseBoxBounds | src/world/board-parser.ts:70-76 | every scanned 'H' cell lies inside the min/max box, and without any 'H' the box keeps its initial values |
| BoardParser.HouseBoxAttained | src/world/board-parser.ts:70-76 | each side of the box touches an 'H' cell, so the box is the tight bounding box |
| BoardParser.GateRowMeaning | src/world/board-parser.ts:78-81 | gateRow is -1 exactly when no '-' was scanned; otherwise it holds a gate and no gate lies below it |
| BoardParser.DotAtTiles | src/world/board-parser.ts:68 | a cell counts toward dotCount exactly when its symbol maps to DOT or POWER |
| BoardParser.ScanCell | src/world/board-parser.ts:52-82 | one cell of the column loop moves every accumulator from its meaning at (r, c) to its meaning at (r, c + 1) and yields the cell's tile |
| BoardParser.RecordWarp | src/world/board-parser.ts:61-65 | appending a warp cell keeps the map equal to the endpoint lists of the scanned prefix |
| BoardParser.ScanRow | src/world/board-parser.ts:52-82 | the column loop over one row yields the row's tiles and advances the accumulators to the start of the next row |
| BoardParser.ScanRows | src/world/board-parser.ts:46-83 | the row loop stops at the first row of the wrong width; otherwise it returns the whole tile grid and the accumulators of the full window |
| BoardParser.RoundDivMeaning | src/world/board-parser.ts:99 | the integer rounding used for Math.round(s / n) rounds half up: q - 1/2 <= s/n < q + 1/2 |
| BoardParser.GateRowHasGate | src/world/board-parser.ts:90-99 | the recorded gate row contains at least one GATE tile, so the average divides by a positive count |
| BoardParser.GateCentreCol | src/world/board-parser.ts:90-100 | the gate loop returns the rounded mean column of the GATE tiles of the gate row |
| BoardParser.CollectPairs | src/world/board-parser.ts:169-175 | the warp-pair loop keeps, in key order, the digits with exactly two endpoints |
| BoardParser.AssembleBoard | src/world/board-parser.ts:89-187 | the code after the scan derives the entrance, ghost spawns, fruit spawn and warp pairs as the board definition requires |
| BoardParser.ParseBoard | src/world/board-parser.ts:28-188 | the imperative parse returns exactly the board or error that the functional parse gives |
| BoardParserFacts.ParseOutcome | src/world/board-parser.ts:29-32 | the parse fails on a line count other than 31, then on the first row whose width is not 28, then on a missing 'P'; it succeeds exactly when the text is 31 x 28 and contains a 'P' |
| BoardParserFacts.ParsedIsBuilt | src/world/board-parser.ts:177-187 | a successful parse is the board built from the scan of the text's lines |
| BoardParserFacts.GridOf | src/world/board-parser.ts:34-68 | the grid is 31 x 28, each tile is its symbol's tile, and dotCount is the number of DOT and POWER tiles |
| BoardParserFacts.SpawnOf | src/world/board-parser.ts:57-59 | the spawn is the last 'P' in row-major order and sits on an EMPTY tile |
| BoardParserFacts.EndsAreAllCells | src/world/board-parser.ts:61-65 | after the scan, a digit's list holds every cell of that digit, sorted |
| BoardParserFacts.PairsForMeaning | src/world/board-parser.ts:169-175 | a pair is built for a key exactly when the key has two endpoints, and the pair ids are distinct |
| BoardParserFacts.WarpPairsOf | src/world/board-parser.ts:169-175 | the warp pairs are exactly the digits that occur twice, with the earlier cell as `a`, one pair per digit |
| BoardParserFacts.EntranceOfMeaning | src/world/board-parser.ts:102-105 | with a gate, the entrance is the tile above the rounded mean gate column of the last gate row; without a gate it is (14, 11) |
| BoardParserFacts.HouseBoxIsTight | src/world/board-parser.ts:70-76 | the box the scan keeps is the tight bounding box of the 'H' cells |
| BoardParserFacts.GhostSpawnsOfMeaning | src/world/board-parser.ts:107-154 | with a house and a gate, there are four spawns, Blinky to Clyde, with delays 0 / 1500 / 4000 / 6500 ms; Blinky is on the entrance and Pinky at the house centre; otherwise there are none |
| BoardParserFacts.FruitSpawnOfMeaning | src/world/board-parser.ts:156-159 | the fruit spawn is two rows below the house, at the house's centre column, or (14, 17) without a house |
| BoardParserFacts.BuiltLayoutRules | src/world/board-parser.ts:34-87 | the built board satisfies the grid, last-'P' spawn, warp-pair and speed-pad rules |
| BoardParserFacts.BuiltHouseRules | src/world/board-parser.ts:102-167 | the built board satisfies the entrance, ghost-spawn and fruit rules, and its scatter corners are (25,0), (2,0), (27,29) and (0,29) |
| BoardParserFacts.BuiltEntrance | src/world/board-parser.ts:102-105 | the built board's entrance follows the entrance rule |
| BoardParserFacts.BuiltGhostSpawns | src/world/board-parser.ts:107-154 | the built board's ghost spawns follow the spawn rule |
| BoardParserFacts.BuiltFruit | src/world/board-parser.ts:156-159 | the built board's fruit spawn follows the fruit rule |
| BoardParserFacts.ParsedBoard | src/world/board-parser.ts:28-188 | every field of a parsed board follows its rule |
| BoardValidator.Neighbour | src/world/board-validator.ts:112-118 | a probe's column wraps (-1 to 27 and 28 to 0), so every probe lands in a column of the board |
| BoardValidator.ExtendReach | src/world/board-validator.ts:120-130 | an open probe from a reachable cell reaches its neighbour |
| BoardValidator.ReachedIsOpenCell | src/world/board-validator.ts:120-127 | every cell reached in one or more steps lies on the board and is not WALL, GATE or GHOST_HOUSE |
| BoardValidator.ClosedHoldsPath | src/world/board-validator.ts:104-135 | a set holding the start and closed under open probes contains the end of every walk |
| BoardValidator.ReachSetMeaning | src/world/board-validator.ts:104-135 | the reachable set holds the start, is closed under the four wrapped probes, holds only passable board cells besides the start, and is exactly the set of cells a walk reaches |
| BoardValidator.BfsReachable | src/world/board-validator.ts:104-135 | the queue-and-visited-set search returns exactly the cells reachable from the start |
| BoardValidator.Expand | src/world/board-validator.ts:112-131 | the probe loop for the dequeued cell visits and enqueues each open, unvisited neighbour, so that afterwards every open neighbour is visited and the queue has no duplicates |
| BoardValidator.ColErrorsMeaning | src/world/board-validator.ts:18-22 | one error per row whose width is not 28, quoting the row and its width |
| BoardValidator.ShapeErrorsMeaning | src/world/board-validator.ts:14-22 | the dimension errors are the row-count error and the per-row width errors, and there are none exactly when the grid is 31 x 28 |
| BoardValidator.WarpWarningsMeaning | src/world/board-validator.ts:72-80 | an endpoint warning is issued exactly for a pair endpoint outside the reachable set, quoting its id and cell |
| BoardValidator.StructureErrorsMeaning | src/world/board-validator.ts:14-51 | the pre-search errors are exactly the dimension, spawn-on-wall-or-missing, fewer-than-6-house-tiles and no-gate conditions |
| BoardValidator.ReportErrors | src/world/board-validator.ts:10-89 | every error is reported exactly when its condition holds, with the numbers it quotes |
| BoardValidator.ReportValid | src/world/board-validator.ts:89 | a board is valid exactly when: it is 31 x 28; the spawn is on a present non-WALL cell; it has at least 6 house tiles and a gate; every DOT and POWER tile is reached; and the dot count is non-zero |
| BoardValidator.ReportWarnings | src/world/board-validator.ts:72-87 | the only warnings are for unreachable warp endpoints, one per endpoint, and for a non-zero dot count below 50 |
| BoardValidator.WarpsNeverInvalidate | src/world/board-validator.ts:72-80 | the warp pairs affect warnings only, never validity |
| BoardValidator.ValidBoardDotsReachable | src/world/board-validator.ts:53-70 | on a valid board every DOT and POWER tile can be walked to from the spawn |
| BoardValidator.CountCells | src/world/board-validator.ts:32-37 | the nested counting loop returns the number of board cells of the counted kind (GHOST_HOUSE, GATE, or unreached dots) |
| BoardValidator.CheckShape | src/world/board-validator.ts:14-22 | the dimension checks return the dimension errors, in order |
| BoardValidator.CheckWarps | src/world/board-validator.ts:73-80 | the warp loop returns the endpoint warnings pair by pair, A before B |
| BoardValidator.CheckStructure | src/world/board-validator.ts:14-51 | the checks before the search return the pre-search errors, in order |
| BoardValidator.CheckReach | src/world/board-validator.ts:56-87 | the checks after the search append the unreached-dots and no-dots errors and produce the warnings |
| BoardValidator.ValidateBoard | src/world/board-validator.ts:10-102 | validateBoard returns the report for the cells reachable from the spawn |
| Grid.CountZero | src/world/board-validator.ts:43-51 | a board-window count is zero exactly when no cell of the window is of the counted kind |
| Grid.CountExt | src/world/tilemap.ts:29-38 | a count depends only on the 31 x 28 window that the nested row/column loops walk |
| Grid.EatOneDot | src/world/tilemap.ts:78-83 | overwriting one DOT/POWER cell with EMPTY removes exactly one dot from the count |
| TileMaps.Copied | src/world/tilemap.ts:28-38 | the rebuilt grid is always 31 x 28 |
| TileMaps.CopiedMeaning | src/world/tilemap.ts:32 | the copy keeps every tile the board has in the window and fills missing cells with EMPTY; a 31 x 28 board is copied unchanged |
| TileMaps.CopiedDots | src/world/tilemap.ts:34-39 | the copy has as many DOT/POWER tiles as the board |
| TileMaps.GetTile | src/world/tilemap.ts:50-53 | off-grid lookups are WALL, on-grid lookups read the grid |
| TileMaps.IsWalkable | src/world/tilemap.ts:55-64 | a tile is walkable exactly when it is not WALL and, if it is GATE or GHOST_HOUSE, the walker is a ghost; nothing off the grid is walkable |
| TileMaps.GhostWalksWherePacManWalks | src/world/tilemap.ts:55-64 | a ghost can walk wherever Pac-Man can, and a ghost's walkability ignores the eaten flag |
| TileMaps.IsSpeedPad | src/world/tilemap.ts:66-68 | true exactly on an on-grid SPEED_PAD tile |
| TileMaps.WarpDestinationMeaning | src/world/tilemap.ts:70-76 | a destination exists exactly when some pair has the tile as an end, and it is the partner in the first such pair |
| TileMaps.WarpRoundTrip | src/world/tilemap.ts:70-76 | with distinct ends, warping twice returns to the start and never lands where it began |
| TileMaps.ToPixel | src/world/tilemap.ts:102-104 | the pixel returned lies inside the tile it came from |
| TileMaps.ToTile | src/world/tilemap.ts:106-111 | the pixel lies inside the 16-pixel tile returned |
| TileMaps.TileRoundTrip | src/world/tilemap.ts:102-111 | toTile undoes toPixel, and toPixel of toTile is within half a tile of the pixel |
| TileMaps.GateRem | src/world/tilemap.ts:92 | the JavaScript remainder takes the sign of the dividend and stays within one interval |
| TileMaps.GateStepMeaning | src/world/tilemap.ts:88-100 | for a timer and step within [0, 15000): the timer stays in range; the gate flips exactly when the sum reaches 15000; it flashes exactly in the last 3000 ms of a period; the telegraph timer grows by dt |
| TileMaps.GateRun | src/world/tilemap.ts:88-100 | over any run of such steps the gate is a 15000 ms clock: the flips count the elapsed whole periods, the timer holds the rest, and the gate is back where it started after an even number of flips |
| TileMaps.TileMap.constructor | src/world/tilemap.ts:4-17 | a new map is empty with no board, an open gate and zeroed timers |
| TileMaps.TileMap.LoadBoard | src/world/tilemap.ts:19-23 | after a load, the map remembers the board and its warp pairs and holds a fresh rebuild of it |
| TileMaps.TileMap.Rebuild | src/world/tilemap.ts:25-44 | a rebuild copies the board, sets remaining and total dots to its dot count and resets the gate to open; without a board nothing changes |
| TileMaps.TileMap.CopyTiles | src/world/tilemap.ts:28-38 | the nested copy loop yields the copied grid and counts its dots |
| TileMaps.TileMap.FillRow | src/world/tilemap.ts:30-37 | one pass of the outer loop appends one copied row and adds its dots |
| TileMaps.TileMap.Reset | src/world/tilemap.ts:46-48 | reset rebuilds from the remembered board |
| TileMaps.TileMap.EatDot | src/world/tilemap.ts:78-86 | eating a DOT/POWER tile empties it, lowers the remaining count by one and returns the old kind; any other tile returns EMPTY and changes nothing; the dot counter always equals the DOT/POWER tiles left |
| TileMaps.TileMap.GetWarpDestination | src/world/tilemap.ts:70-76 | the pair loop returns the first pair's partner, or none |
| TileMaps.TileMap.UpdateGate | src/world/tilemap.ts:88-100 | the gate fields advance by one gate step and nothing else changes |
| LevelManagement.Slots | src/world/level-manager.ts:9-25 | one slot per definition, in order, each holding what loading that definition gives |
| LevelManagement.TruncRem | src/world/level-manager.ts:29 | JavaScript's `%` keeps the sign of the dividend: a negative level gives a slot index in (-n, 0] |
| LevelManagement.FirstValidMeaning | src/world/level-manager.ts:33-36 | the fallback is absent only when no slot is usable; otherwise it is the earliest usable slot |
| LevelManagement.BoardForLevelMeaning | src/world/level-manager.ts:27-40 | from level 1 on, a level gets its own slot (level - 1) mod n when that slot holds a board, and the first usable board otherwise; it fails (the throw) exactly when no slot is usable |
| LevelManagement.NonPositiveLevel | src/world/level-manager.ts:29-36 | a level of zero or below, or an empty list, always gets the first usable board |
| LevelManagement.LevelsCycle | src/world/level-manager.ts:28-29 | levels repeat with period equal to the number of slots |
| LevelManagement.ServedFromSomeSlot | src/world/level-manager.ts:27-40 | every board handed out is the content of some slot |
| LevelManagement.SlotMeaning | src/world/level-manager.ts:11-23 | a slot holds a board exactly when the definition parses and the board validates, and then it holds the parsed board |
| LevelManagement.SlotsHaveCorners | src/world/board-parser.ts:161-167 | every board in a slot has the four scatter corners the ghosts index |
| LevelManagement.LoadSlot | src/world/level-manager.ts:11-23 | one pass of the constructor loop parses, validates, and keeps the board only when both succeed |
| LevelManagement.LevelManager.constructor | src/world/level-manager.ts:9-25 | the slots are the definitions' load results, in order |
| LevelManagement.LevelManager.GetBoardForLevel | src/world/level-manager.ts:27-40 | returns the level's board as specified, never fails while some slot is usable, and always returns a slot's board |
| PacManEntity.Shift | src/entities/pacman.ts:86-91 | a move of d pixels changes only the coordinate along the direction, by d with the direction's sign; NONE stays put |
| PacManEntity.WrapX | src/entities/pacman.ts:94-95 | the tunnel wrap changes x by at most one board width and brings any x within one board width of the board back onto it |
| PacManEntity.CanMoveAt | src/entities/pacman.ts:117-136 | Pac-Man may move exactly when the tile 9 pixels ahead (wrapped horizontally) is on the board and not WALL, GATE or GHOST_HOUSE |
| PacManEntity.Snap | src/entities/pacman.ts:138-145 | the snap centres the coordinate across the direction of travel and keeps the other |
| PacManEntity.PushTrail | src/entities/pacman.ts:112-114 | the trail gains the new point at its end and drops at most its oldest point, so it never exceeds 8 points |
| PacManEntity.DeadOnlyTicks | src/entities/pacman.ts:55-58 | a dead Pac-Man only advances its death timer by dt |
| PacManEntity.TurnMeaning | src/entities/pacman.ts:70-76 | the buffered direction is taken exactly when it differs and the way ahead in it is open; the buffer is never cleared |
| PacManEntity.BlockedStaysPut | src/entities/pacman.ts:79 | blocked ahead, Pac-Man keeps his trail, warp memory and timer, and without a turn he keeps his position |
| PacManEntity.MoveLength | src/entities/pacman.ts:82-91 | without a turn, wrap or warp, a move covers exactly the step length along the direction of travel |
| PacManEntity.StepLengthMeaning | src/entities/pacman.ts:82-84 | the step length is 80 px/s times dt, or 120 px/s on a speed pad |
| PacManEntity.DestinationOnBoard | src/entities/pacman.ts:100-105 | if every warp end is on the board, every warp destination is too |
| PacManEntity.StaysOnBoard | src/entities/pacman.ts:54-115 | starting on the board and moving at most one board width, Pac-Man's x stays in [0, 448) after any update |
| PacManEntity.LandsOnBoard | src/entities/pacman.ts:86-110 | a move of at most one board width, wrapped and then warped, ends on the board |
| PacManEntity.WarpMeaning | src/entities/pacman.ts:97-110 | landing on a warp end other than the remembered tile teleports to the partner's centre and remembers the partner; landing on the remembered tile does nothing; any other tile forgets the memory |
| PacManEntity.TrailBounded | src/entities/pacman.ts:112-114 | the trail never exceeds 8 points, and a changed trail ends at Pac-Man's new position |
| PacManEntity.PacMan.constructor | src/entities/pacman.ts:28-34 | the default spawn is the centre of tile (14, 22); Pac-Man starts there facing left, alive, with nothing remembered |
| PacManEntity.PacMan.SetSpawn | src/entities/pacman.ts:36-39 | the spawn becomes the centre of (col, row), which lies in that tile; the live state is untouched |
| PacManEntity.PacMan.Reset | src/entities/pacman.ts:41-52 | Pac-Man is back at the spawn facing left, alive, with an empty trail and no warp memory |
| PacManEntity.PacMan.Update | src/entities/pacman.ts:54-115 | one update performs exactly one Step of the state on the loaded map |
| PacManEntity.PacMan.Turn | src/entities/pacman.ts:70-76 | the turn takes the buffered direction and snaps, or leaves the state alone |
| PacManEntity.PacMan.MoveOn | src/entities/pacman.ts:81-114 | the move, wrap, warp check and trail push, as the step function describes them |
| PacManEntity.PacMan.Advance | src/entities/pacman.ts:81-95 | the position becomes the wrapped shift by the step length; nothing else changes |
| PacManEntity.PacMan.WarpCheck | src/entities/pacman.ts:97-110 | the position and warp memory become what the warp check specifies |
| PacManEntity.PacMan.SnapToGrid | src/entities/pacman.ts:138-145 | the position is snapped for the current direction |
| GhostEntity.OppositeDir | src/entities/ghost.ts:170-178 | the opposite of NONE is NONE and of nothing else; reversing keeps the axis |
| GhostEntity.OppositeInvolution | src/entities/ghost.ts:170-178 | reversing twice restores the direction, and a real direction is never its own opposite |
| GhostEntity.DefaultConfig | src/entities/ghost.ts:23-60 | every default configuration uses the entrance (14, 11), and only Blinky has a zero release delay |
| GhostEntity.FrightenedStep | src/entities/ghost.ts:310-319 | while frightened, the fright timer runs and flashes from 6000 ms; at 8000 ms the saved mode returns with the timer cleared; the schedule is paused |
| GhostEntity.EatenStep | src/entities/ghost.ts:321 | an eaten ghost's mode clock stands still |
| GhostEntity.ScheduleStep | src/entities/ghost.ts:323-336 | in scatter or chase, the phase flips exactly when its timer reaches the phase's limit (the table entry at modeIndex, clamped to the last); the flip resets the timer, advances the index on entering chase, and sets mode and saved mode to the new phase |
| GhostEntity.ModeStepKeepsCoherent | src/entities/ghost.ts:309-337 | a mode update keeps the saved mode equal to the phase's mode, and a scatter/chase mode equal to the phase |
| GhostEntity.ChaseForever | src/entities/ghost.ts:324-327 | once modeIndex reaches 3, a chase phase never ends (the Infinity entry) |
| GhostEntity.Frighten | src/entities/ghost.ts:158-168 | frighten as evidently intended (the corrected half of the finding below, not what the ghosts run): an eaten ghost is untouched; any other turns frightened with a fresh timer; the saved mode never becomes FRIGHTENED unless it already was |
| GhostEntity.AsWrittenSecondPellet | src/entities/ghost.ts:158-168 | as written, a second frighten while still frightened saves FRIGHTENED as the mode to return to |
| GhostEntity.FrightenAsWritten | src/entities/ghost.ts:158-168 | frighten as the source writes it, which the ghosts run: an eaten ghost is untouched; any other turns frightened with a fresh timer, not flashing, saving its current mode (FRIGHTENED included) and keeping its schedule; from a consistent non-frightened clock the bookkeeping stays consistent |
| GhostEntity.AsWrittenFrightNeverEnds | src/entities/ghost.ts:310-318 | as written, a frightened ghost whose saved mode is FRIGHTENED stays frightened through every later mode update |
| GhostEntity.FrightenKeepsCoherent | src/entities/ghost.ts:158-168 | the corrected frighten keeps the mode bookkeeping consistent |
| GhostEntity.FrightEnds | src/entities/ghost.ts:310-318 | with the corrected frighten, a fright always ends after 8000 ms in the current phase's mode |
| GhostEntity.EatClock | src/entities/ghost.ts:186-191 | eat sets EATEN and clears the fright timer, keeping the schedule and the saved mode |
| GhostEntity.EatKeepsCoherent | src/entities/ghost.ts:186-191 | eating keeps the mode bookkeeping consistent |
| GhostEntity.IndexOf | src/entities/ghost.ts:364 | every real direction has its place in the try order UP, LEFT, DOWN, RIGHT |
| GhostEntity.PickMeaning | src/entities/ghost.ts:367-397 | after trying the first n directions, the best so far is a non-reversing walkable candidate, at least as good as every candidate tried (nearest to the target, or farthest from Pac-Man when frightened), and strictly better than every earlier one; none is chosen only when there is no candidate |
| GhostEntity.ChooseDirMeaning | src/entities/ghost.ts:359-404 | the ghost reverses only when no other way is open; otherwise it takes the first best non-reversing walkable direction in the try order |
| GhostEntity.Choose | src/entities/ghost.ts:359-404 | the decision loop over the four directions returns the direction the decision specifies |
| GhostEntity.Target | src/entities/ghost.ts:406-460 | scatter aims at the corner and eaten at the entrance. Otherwise Blinky aims at Pac-Man's tile, Pinky 4 ahead (4 up and 4 left when Pac-Man faces up), Inky at Blinky's tile mirrored through the tile 2 ahead, and Clyde at Pac-Man beyond 8 tiles or at his corner within |
| GhostEntity.ClydeShyWithinEight | src/entities/ghost.ts:453-458 | Clyde chases Pac-Man only from more than eight tiles away, and retreats to his corner within that radius |
| GhostEntity.BaseSpeed | src/entities/ghost.ts:217-227 | frightened ghosts move at 40 px/s, eaten at 160 px/s, the others at 75 px/s |
| GhostEntity.GhostCanMove | src/entities/ghost.ts:339-357 | a ghost may move exactly when the tile 9 pixels ahead (wrapped horizontally) is on the board and not a WALL |
| GhostEntity.GhostGoesWherePacManGoes | src/entities/ghost.ts:339-357 | wherever Pac-Man may move, a ghost may move too |
| GhostEntity.AfterMode | src/entities/ghost.ts:213-214 | the mode update moves nothing, keeps the release state and trail, and keeps the bookkeeping consistent |
| GhostEntity.Decide | src/entities/ghost.ts:236-253 | the decision changes only position, direction and decision tile |
| GhostEntity.MoveOrBlock | src/entities/ghost.ts:255-269 | the move changes neither mode nor direction |
| GhostEntity.GhostWarp | src/entities/ghost.ts:275-290 | the warp check keeps mode and direction, and changes x only on a warp tile |
| GhostEntity.ReturnHome | src/entities/ghost.ts:292-302 | the return check moves nothing and keeps the bookkeeping consistent |
| GhostEntity.Active | src/entities/ghost.ts:213-306 | a released ghost's update keeps the release state and bookkeeping, keeps the trail within 6 points, and ends the trail at the new position |
| GhostEntity.Travel | src/entities/ghost.ts:255-306 | the move/warp/return/trail part keeps the release state and bookkeeping, and ends the trail at the new position |
| GhostEntity.GhostStep | src/entities/ghost.ts:193-307 | after an update the ghost is released exactly when it already was or its release timer reached the delay; the bookkeeping stays consistent and the trail stays within 6 points |
| GhostEntity.WaitingInHouse | src/entities/ghost.ts:195-210 | before its delay is up, a ghost in the house only advances its release timer and bobs within 3 pixels of its start row |
| GhostEntity.ReturnHomeMeaning | src/entities/ghost.ts:292-302 | an eaten ghost stops being eaten exactly when it is on the entrance row within one column of it, and then takes the phase's mode and a fresh decision |
| GhostEntity.DecideOncePerTile | src/entities/ghost.ts:242-253 | a ghost decides at most once per tile: at its last decision tile nothing changes, and a decision centres it on its tile and remembers that tile |
| GhostEntity.BlockedReturnsToCentre | src/entities/ghost.ts:264-269 | a blocked ghost is put back on the centre of its tile with its decision column cleared (set to -1) |
| GhostEntity.AtSpawn | src/entities/ghost.ts:130-156 | a ghost at its spawn is on its start tile facing its start direction, in the first scatter phase, released exactly when its delay is 0, with an empty trail |
| GhostEntity.FrightenGhost | src/entities/ghost.ts:158-168 | on the whole ghost, as written: an eaten ghost is untouched; any other turns frightened with a fresh timer, saves its current mode (FRIGHTENED on a second pellet) and reverses, staying in place |
| GhostEntity.SecondPelletLocksFright | src/entities/ghost.ts:158-168 | a ghost frightened again while still frightened saves FRIGHTENED, and its next mode update leaves it frightened |
| GhostEntity.EatGhost | src/entities/ghost.ts:186-191 | on the whole ghost: EATEN with the fright timer cleared, in place, same direction |
| GhostEntity.Ghost.constructor | src/entities/ghost.ts:102-118 | a new ghost has the index-th default configuration and stands at its spawn |
| GhostEntity.Ghost.Configure | src/entities/ghost.ts:120-128 | the board's spawn, entrance and corner replace the configuration; the live state is untouched |
| GhostEntity.Ghost.Reset | src/entities/ghost.ts:137-156 | the ghost is back at its spawn for the current configuration |
| GhostEntity.Ghost.ResetTimers | src/entities/ghost.ts:142-155 | the schedule, release and memories are reset |
| GhostEntity.Ghost.Frighten | src/entities/ghost.ts:158-168 | the ghost state becomes FrightenGhost of the old state: the current mode is saved even when it is FRIGHTENED |
| GhostEntity.Ghost.ReverseDirection | src/entities/ghost.ts:180-184 | the ghost turns round and will decide again at its tile |
| GhostEntity.Ghost.Eat | src/entities/ghost.ts:186-191 | the ghost state becomes EatGhost of the old state |
| GhostEntity.Ghost.GetTile | src/entities/ghost.ts:462-467 | the ghost's position lies in the 16-pixel square of the returned tile |
| GhostEntity.Ghost.Update | src/entities/ghost.ts:193-307 | one update performs exactly one GhostStep, using Pac-Man's position and direction and Blinky's tile as they were |
| GhostEntity.Ghost.StepWith | src/entities/ghost.ts:193-307 | the update, once its inputs are read, is exactly one GhostStep |
| GhostEntity.Ghost.TickRelease | src/entities/ghost.ts:195-210 | the release timer runs; the ghost bobs while waiting, and leaves the house exactly when the delay is reached |
| GhostEntity.Ghost.Release | src/entities/ghost.ts:197-204 | the ghost moves to the entrance's centre heading its release direction |
| GhostEntity.Ghost.ActiveUpdate | src/entities/ghost.ts:213-306 | the part after the release check performs exactly the active update |
| GhostEntity.Ghost.TravelUpdate | src/entities/ghost.ts:255-306 | the part after the decision performs exactly the travel step |
| GhostEntity.Ghost.SetSpeed | src/entities/ghost.ts:216-232 | the speed becomes the mode's base speed, times 1.5 on a speed pad |
| GhostEntity.Ghost.RecordTrail | src/entities/ghost.ts:304-306 | the position is appended to the trail, which keeps at most 6 points |
| GhostEntity.Ghost.UpdateMode | src/entities/ghost.ts:309-337 | the clock advances as the mode step says, reversing the ghost on a phase change |
| GhostEntity.Ghost.DecideAt | src/entities/ghost.ts:236-253 | the decision performs exactly the decide step |
| GhostEntity.Ghost.SettleAt | src/entities/ghost.ts:247-252 | a decision taken: centred on the tile, remembered there, heading the chosen direction |
| GhostEntity.Ghost.MoveOrSnap | src/entities/ghost.ts:255-269 | the move, or the snap when blocked, performs exactly the move step |
| GhostEntity.Ghost.WrapAndWarp | src/entities/ghost.ts:271-290 | the tunnel wrap and then the warp check |
| GhostEntity.Ghost.ReturnCheck | src/entities/ghost.ts:292-302 | the return of an eaten ghost that reaches the entrance |
| GhostEntity.CreateGhosts | src/entities/ghost.ts:470-472 | four distinct new ghosts, Blinky to Clyde, each with its default configuration at its spawn |
| Input.KeyString | src/input/input.ts:27 | every key the handler distinguishes is reported as a single character or as a capitalised key name |
| Input.Classify | src/input/input.ts:54 | a key string is a character key exactly when its JavaScript length (UTF-16 code units) is one, so a character beyond the Basic Multilingual Plane is not |
| Input.ClassifyKeyString | src/input/input.ts:27-111 | classifying the string of a key gives back the key |
| Input.DigitKeyMeaning | src/input/input.ts:39 | the string comparison `'0' <= key <= '9'` accepts exactly the single digit characters, never a key name |
| Input.KeyDirection | src/input/input.ts:61-85 | exactly the arrows and W/A/S/D (either case) buffer a direction, never NONE |
| Input.DropLast | src/input/input.ts:37 | slice(0, -1) drops the last character, and leaves an empty buffer empty |
| Input.LevelSelectKey | src/input/input.ts:29-43 | in level select, Enter submits and Escape/x/X cancel; the buffer stays at most 3 digits |
| Input.NameKey | src/input/input.ts:47-58 | in name entry, Enter submits and the name never exceeds 10 characters |
| Input.FlagKey | src/input/input.ts:86-110 | each one-shot flag is raised exactly by its key (P, R, M, G, X in either case; Enter or space) and never lowered by a key |
| Input.PlayKey | src/input/input.ts:61-111 | normal play changes only the buffered direction and the flags |
| Input.KeyPressedKeepsBounded | src/input/input.ts:27-112 | no key press takes the level buffer beyond 3 digits or the name beyond 10 characters |
| Input.LevelSelectTakesPrecedence | src/input/input.ts:29-44 | while level select is open, a key touches only the level prompt |
| Input.TextModeTakesPrecedence | src/input/input.ts:47-59 | while name entry is open (and level select is not), a key touches only the name prompt |
| Input.NormalPlayKeys | src/input/input.ts:61-111 | in normal play a key sets the buffered direction when it names one, and raises exactly its own flag |
| Input.TypeThenBackspace | src/input/input.ts:51-56 | in name entry with room left, typing a character and then Backspace restores the state |
| Input.DigitThenBackspace | src/input/input.ts:36-41 | in level select with room left, typing a digit and then Backspace restores the state |
| Input.InputHandler.constructor | src/input/input.ts:3-25 | a new handler has no direction, no flags and both prompts closed and empty |
| Input.InputHandler.OnKey | src/input/input.ts:27-112 | a key press performs exactly the key transition and keeps the buffers within bounds |
| Input.InputHandler.LevelSelectInput | src/input/input.ts:29-44 | the level-select branch updates only the level prompt |
| Input.InputHandler.NameInput | src/input/input.ts:47-59 | the name-entry branch updates only the name prompt |
| Input.InputHandler.PlayInput | src/input/input.ts:61-111 | the normal-play branch performs the play transition |
| Input.InputHandler.StartTextInput | src/input/input.ts:114-118 | name entry opens with an empty name, not submitted |
| Input.InputHandler.StopTextInput | src/input/input.ts:120-123 | name entry closes and is no longer submitted; the typed name is kept |
| Input.InputHandler.ConsumePause | src/input/input.ts:125-129 | returns the pause flag and clears it; nothing else changes |
| Input.InputHandler.ConsumeRestart | src/input/input.ts:131-135 | returns the restart flag and clears it |
| Input.InputHandler.ConsumeMute | src/input/input.ts:137-141 | returns the mute flag and clears it |
| Input.InputHandler.ConsumeGate | src/input/input.ts:143-147 | returns the gate flag and clears it |
| Input.InputHandler.ConsumeEnter | src/input/input.ts:149-153 | returns the enter flag and clears it |
| Input.InputHandler.ConsumeLevelSelect | src/input/input.ts:155-159 | returns the level-select flag and clears it |
| Input.InputHandler.StartLevelSelect | src/input/input.ts:161-166 | level select opens with an empty buffer and no outcome |
| Input.InputHandler.StopLevelSelect | src/input/input.ts:168-172 | level select closes and both outcomes are cleared; the buffer is kept |
| Engine.Rank | src/engine/game.ts:449-451 | the rank of a score is the number of entries at least as high; every entry before it scores at least as much and the entry at it scores less |
| Engine.InsertKeepsSorted | src/engine/game.ts:449-451 | inserting an entry at its rank keeps a highest-first table highest-first |
| Engine.InsertKeepsEntries | src/engine/game.ts:449-451 | inserting adds exactly the new entry: the table grows by one and is the old multiset plus the entry |
| Engine.InsertPlaces | src/engine/game.ts:449-451 | the new entry lands at its rank and the entries before it are unchanged |
| Engine.SortDesc | src/engine/game.ts:450 | sorting by score yields a highest-first permutation of the entries |
| Engine.SortDescOfSorted | src/engine/game.ts:450 | sorting a table that is already highest-first leaves it unchanged |
| Engine.RankOfLowest | src/engine/game.ts:449-451 | a score no higher than any entry ranks after all of them |
| Engine.Submit | src/engine/game.ts:449-453 | after adding an entry the table is highest-first and holds at most five entries |
| Engine.TopScoreMeaning | src/engine/game.ts:91-95 | a positive score is the top score exactly when it would rank first |
| Engine.HighScoreMeaning | src/engine/game.ts:97-101 | for a sorted table of at most five, a positive score is a high score exactly when it would rank among the first five |
| Engine.SubmitIsInsert | src/engine/game.ts:449-453 | for a sorted table, push-sort-truncate equals inserting at the rank and keeping the first five |
| Engine.SubmitAccepted | src/engine/game.ts:444-453 | a high score enters the table at its rank, the entries above it stay, and a top score becomes the first entry |
| Engine.SubmitRejected | src/engine/game.ts:449-453 | a positive score that is not a high score leaves the table unchanged |
| Engine.TrimStart | src/engine/game.ts:446 | the result is a suffix of the input, everything removed is white space, and it does not start with white space |
| Engine.TrimEnd | src/engine/game.ts:446 | the result is a prefix of the input, everything removed is white space, and it does not end with white space |
| Engine.TrimIdempotent | src/engine/game.ts:446 | trimming twice is trimming once |
| Engine.EntryName | src/engine/game.ts:446 | the name stored is the trimmed buffer, or "AAA" when that is empty; it is never empty and never starts or ends with white space |
| Engine.AteTile | src/engine/game.ts:248-266 | eating never lowers the score, lives and the extra-life flag are untouched, and a power pellet restarts the ghost combo |
| Engine.FruitTypeIndex | src/engine/game.ts:336 | the fruit type of a level is an index into the fruit table, clamped to its last entry |
| Engine.SpawnFruit | src/engine/game.ts:333-346 | a fruit appears at the fruit spawn, with the level's type and a fresh timer, exactly when the next of the 70 / 170 dot thresholds has been reached; otherwise nothing changes |
| Engine.CountDot | src/engine/game.ts:248-266 | counting a dot or power pellet keeps the fruit's type inside the fruit table |
| Engine.FruitThresholds | src/engine/game.ts:333-346 | from the start of a level, after n dots exactly 0, 1 or 2 fruits have spawned according to n against 70 and 170 |
| Engine.FruitTick | src/engine/game.ts:348-381 | the fruit timer leaves the dot bookkeeping alone; either nothing is scored, or the present fruit is eaten for its table points and removed |
| Engine.Contacts | src/engine/game.ts:271-306 | the contact loop returns one ghost state per ghost |
| Engine.ContactsNext | src/engine/game.ts:271-306 | the loop over the first i + 1 ghosts is the loop over the first i followed by one contact step |
| Engine.ContactsKill | src/engine/game.ts:271-306 | Pac-Man dies in the loop exactly when some ghost is near him and is neither frightened nor eaten (and released) |
| Engine.ContactsEat | src/engine/game.ts:271-306 | exactly the near, released, frightened ghosts are eaten; every other ghost is unchanged |
| Engine.ContactsScore | src/engine/game.ts:276-290 | the combo grows by the number of ghosts eaten, the score by 200 * 2^k for each, the 500 ms freeze starts when one was eaten, and lives are untouched |
| Engine.UnreleasedNeverCollide | src/engine/game.ts:274 | a ghost still in the house can neither be eaten nor kill Pac-Man, and the contact step leaves it alone |
| Engine.ExtraLife | src/engine/game.ts:318-322 | one life is added exactly when the score first reaches 10000; the flag records it |
| Engine.ExtraLifeOnce | src/engine/game.ts:318-322 | over any run of scoring frames the extra life is awarded at most once, exactly when the total reaches 10000 |
| Engine.MoveAll | src/engine/game.ts:234-237 | each ghost takes one step in order, every ghost but Blinky seeing Blinky's tile after Blinky has moved |
| Engine.EatenAt | src/engine/game.ts:246-247 | what Pac-Man eats is a dot, a power pellet or nothing |
| Engine.FrightenAll | src/engine/game.ts:262-264 | every ghost, in order, gets `frighten` as the source writes it |
| Engine.EatStage | src/engine/game.ts:246-266 | eating keeps the level and keeps the fruit type inside the fruit table |
| Engine.BeforeContacts | src/engine/game.ts:225-269 | before collisions a frame never changes the phase, the freeze, the lives or the extra-life flag |
| Engine.MoveStage | src/engine/game.ts:225-240 | moving the actors and the gate leaves the game's fields alone and keeps the frame playable |
| Engine.PlayEats | src/engine/game.ts:246-266 | a dot scores 10 and a power pellet 50 plus `frighten` as written on every ghost and a combo reset; either removes one dot and counts towards a fruit; an empty tile changes nothing |
| Engine.ContactOutcome | src/engine/game.ts:271-330 | after collisions Pac-Man is dead exactly when a deadly ghost touched him; eaten ghosts, combo, ghost score and freeze are as the loop says; the level clears exactly when he survives with no dots left; the extra life applies only when he survives |
| Engine.ResetAll | src/engine/game.ts:426 | every ghost goes back to its spawn with its current speed |
| Engine.DeathTick | src/engine/game.ts:409-412 | the death animation does not move the ghosts |
| Engine.DeathOutcome | src/engine/game.ts:409-429 | before 1500 ms only Pac-Man's death animation runs; after it a life is lost, the game ends exactly on the last life, name entry opens exactly for a positive score that ranks in the top five, and otherwise the actors respawn and READY restarts |
| Engine.Entered | src/engine/game.ts:444-453 | the table after a name is entered is highest-first and holds at most five entries |
| Engine.Restart | src/engine/game.ts:184-198 | a new game has level 1, score 0, 3 lives, no fruit and no freeze, keeps the table and the combo, and is READY when level 1 loads |
| Engine.States | src/engine/game.ts:234-237 | one snapshot per ghost, in order |
| Engine.Configs | src/engine/game.ts:117-122 | one configuration per ghost, in order |
| Engine.Game.constructor | src/engine/game.ts:65-75 | a new game is on the menu at level 1 with score 0, 3 lives, the stored table, an empty map, fresh input and the default ghosts |
| Engine.Game.LoadLevel | src/engine/game.ts:103-127 | a level loads exactly when its board exists; the map, Pac-Man's spawn and the ghosts then come from it and only the fruit spawn of the fields changes; otherwise nothing changes |
| Engine.Game.Install | src/engine/game.ts:106-122 | the map, Pac-Man's spawn, the fruit spawn and the ghost configurations come from the board |
| Engine.Game.ResetActors | src/engine/game.ts:125-126 | Pac-Man and every ghost are back at their spawns |
| Engine.Game.ConfigureGhosts | src/engine/game.ts:117-122 | each ghost with a spawn on the board takes its spawn, the entrance and its scatter corner; others keep theirs; names and states stay |
| Engine.Game.ResetGhosts | src/engine/game.ts:126 | every ghost is back at its spawn, configuration kept |
| Engine.Game.ToggleGateInput | src/engine/game.ts:225-227 | a pending gate key flips the gates and is consumed |
| Engine.Game.StepPacman | src/engine/game.ts:229-233 | Pac-Man takes the buffered direction and one step |
| Engine.Game.StepGhosts | src/engine/game.ts:234-237 | the ghosts move as MoveAll says |
| Engine.Game.UpdateGhosts | src/engine/game.ts:234-237 | the loop leaves each ghost in its MoveAll state and keeps every configuration |
| Engine.Game.SteppedAll | src/engine/game.ts:234-237 | a loop that has stepped every ghost has reached MoveAll |
| Engine.Game.MoveNext | src/engine/game.ts:234-237 | one more ghost has stepped |
| Engine.Game.UpdateAt | src/engine/game.ts:236 | exactly one ghost takes its step; every other ghost and every configuration is untouched |
| Engine.Game.StepGate | src/engine/game.ts:240 | the gate clock advances by the frame time |
| Engine.Game.EatAtPacman | src/engine/game.ts:246-266 | the frame's eating is EatStage |
| Engine.Game.ScoreEaten | src/engine/game.ts:248-266 | the tally and fruit counters advance for the eaten tile, and a power pellet applies `frighten` as written to every ghost |
| Engine.Game.ScorePower | src/engine/game.ts:257-266 | a power pellet scores, counts and applies `frighten` as written to every ghost |
| Engine.Game.CheckFruitSpawn | src/engine/game.ts:333-346 | the fruit bookkeeping becomes SpawnFruit of the old one |
| Engine.Game.FrightenGhosts | src/engine/game.ts:262-264 | every ghost gets `frighten` as written, configurations kept |
| Engine.Game.FrightenNext | src/engine/game.ts:262-264 | one more ghost gets `frighten` as written |
| Engine.Game.UpdateFruit | src/engine/game.ts:348-381 | tally and fruit become FruitTick's; nothing else changes |
| Engine.Game.ContactGhosts | src/engine/game.ts:271-306 | the collision stage is ContactStage and it reports a kill exactly when one happened |
| Engine.Game.Collide | src/engine/game.ts:271-306 | tally, freeze, kill flag and ghosts become the contact loop's result |
| Engine.Game.ContactLoop | src/engine/game.ts:272-306 | the loop reaches the contact loop's result for every ghost, configurations kept |
| Engine.Game.ContactNext | src/engine/game.ts:272-306 | one more ghost has been checked |
| Engine.Game.TouchAt | src/engine/game.ts:273-305 | exactly one ghost takes its contact step |
| Engine.Game.Touch | src/engine/game.ts:273-305 | the ghost and the contact record take one contact step |
| Engine.Game.PacmanDie | src/engine/game.ts:392-398 | the game turns DEAD with a zero timer and Pac-Man stops living |
| Engine.Game.EndOfFrame | src/engine/game.ts:318-330 | the extra life and the level-clear check apply |
| Engine.Game.Advance | src/engine/game.ts:225-240 | gate key, Pac-Man, ghosts and gate move as MoveStage says |
| Engine.Game.Resolve | src/engine/game.ts:246-330 | eating, fruit and collisions follow in the source's order |
| Engine.Game.Settle | src/engine/game.ts:271-330 | collisions and the end of the frame follow AfterContacts |
| Engine.Game.PlayFrame | src/engine/game.ts:225-330 | an unfrozen, unpaused frame is Play |
| Engine.Game.StartGame | src/engine/game.ts:184-198 | the fields become Restart's and level 1 is installed when its board exists |
| Engine.Game.EnterLevel | src/engine/game.ts:103-127 | a level is installed and READY restarts exactly when its board exists |
| Engine.Game.UpdateReady | src/engine/game.ts:200-205 | the timer advances by dt * 1000 and play starts once it reaches 2000 ms |
| Engine.Game.UpdatePlaying | src/engine/game.ts:207-331 | a frozen frame only runs the freeze down; a pending pause pauses; a pending restart restarts; otherwise the frame is Play |
| Engine.Game.PauseIfPending | src/engine/game.ts:215-218 | a pending pause is consumed and pauses the game; otherwise nothing changes |
| Engine.Game.RestartIfPending | src/engine/game.ts:220-223 | a pending restart is consumed and starts a new game; otherwise nothing changes |
| Engine.Game.UpdateDead | src/engine/game.ts:409-429 | the frame is DeadFrame |
| Engine.Game.TickDeath | src/engine/game.ts:410-412 | the death timer and Pac-Man's animation advance |
| Engine.Game.LoseLife | src/engine/game.ts:413-427 | once the death time is over a life is lost and the game goes on or ends |
| Engine.Game.EndGame | src/engine/game.ts:414-421 | on the last life, a high score opens name entry with an empty buffer and anything else goes to GAME OVER |
| Engine.Game.NextTry | src/engine/game.ts:422-427 | with lives left, READY restarts and Pac-Man and the ghosts respawn |
| Engine.Game.Respawn | src/engine/game.ts:424-426 | Pac-Man and every ghost go back to their spawns |
| Engine.Game.UpdateLevelClear | src/engine/game.ts:431-442 | before 2000 ms only the timer runs; then the level goes up by one, the dot and fruit counters reset, score and lives stay, and the next board is installed with READY when it exists |
| Engine.Game.UpdateEnterName | src/engine/game.ts:444-460 | nothing happens until the name is submitted; then the entry is added, the banner shows for 3000 ms exactly for a top score, name entry closes and the game is over |
| Engine.Game.SubmitName | src/engine/game.ts:445-459 | the entry with the trimmed name is added, the banner follows a top score, and the prompt closes |
| Engine.Game.RecordEntry | src/engine/game.ts:449-458 | the table becomes Submit of the entry, the banner follows a top score and the game is over |
| Engine.Game.AddHighScore | src/engine/game.ts:449-453 | the table becomes Submit of the entry; nothing else changes |

## Left out

- Rendering, the HUD, the canvas and every `draw` method (src/engine/game.ts:504-574) are not modelled: they do not change the game state.
- Audio is not modelled: the waka timer, background pulse, frightened sound, tempo ramp and every sound effect (src/engine/game.ts:243, 309-316). None of it feeds back into the game state.
- Persistence of the high-score table in localStorage is not modelled. The stored table is a constructor parameter, and saving is left out.
- Floating score texts (src/engine/game.ts:383-390) are not modelled: they are display only.
- Pac-Man's mouth animation (src/entities/pacman.ts:60-68) is not modelled: it is display only.
- The update dispatcher and the menu, paused, level-select and game-over phases (src/engine/game.ts:129-176, 400-407, 462-502) are not modelled: they only route keys to the phases the model does cover.
- `getBoardName` (src/world/level-manager.ts:42-45) is not modelled: it returns the display name of a board, and board names are display only. `boardCount` is the accessor `BoardCount`, which has no contract of its own.
- The validator's board-name parameter and its console logging are not modelled. Its messages are returned as data.
- The ghost's `color` field is not modelled: it is used only for drawing.
- The bob of a ghost waiting in the house, `Math.sin(releaseTimer * 0.005)` (src/entities/ghost.ts:208), is a `wave` parameter in [-1, 1] of each ghost step, since trigonometry is outside the model.
- Distances are compared as squared distances: `Math.sqrt(d) < k` is `d < k*k` for the non-negative values involved.
- Floating-point arithmetic is modelled as exact real arithmetic, so rounding effects of IEEE doubles are not captured.
- The browser's key event, its `preventDefault` call and the window listener are not modelled. `Input.InputHandler.OnKey` takes an already classified key.
- Engine.Game.LoadLevel returns `false` where the source throws because no board is usable. StartGame and UpdateLevelClear then leave the phase unchanged instead of propagating an exception.
- Engine.SortDesc models the engine's comparison sort as a stable insertion sort. The order of entries with equal scores after the sort is therefore not claimed to match the engine.
- The fallback `board.scatterTargets[i] ?? board.scatterTargets[0]` (src/engine/game.ts:119) is never taken, because every parsed board has four scatter corners (LevelManagement.SlotsHaveCorners). Engine.ScatterFor keeps the fallback anyway.
- Engine.Game.ContactLoop keeps the score, combo, freeze timer and kill flag in a local `Contact` record and writes them back after the loop. The source writes its fields directly inside the loop, which is the same sequence of values.
- Engine.Restart keeps the ghost combo, as `startGame` does (src/engine/game.ts:184-198).
- LevelManagement.LevelManager.GetBoardForLevel: the model does not prove that every board handed out validates. It proves the weaker fact that the board is the content of some slot, and that every slot holds only a validated board (LevelManagement.SlotMeaning).
- BoardParser.FirstBadRow: widths are counted in Unicode characters, where the source's `line.length` counts UTF-16 code units. A row holding a character beyond the Basic Multilingual Plane is therefore one narrower in the model than in the source, which would also read that character's two code units as two EMPTY cells.
- BoardParserFacts.ParseOutcome: the 31 x 28 shape test inherits the same difference. The two agree on every board written in the Basic Multilingual Plane, which includes every board symbol.
- Several related fields of the game and the input handler are grouped into records (`Tally`, `Fruits`, flags, prompts). This keeps field updates small and does not change their values.

## Findings

| source | as written | input that shows it | evidently intended | confidence | as-written member | corrected member |
|---|---|---|---|---|---|---|
| src/entities/ghost.ts:158-168 | `frighten()` saves the current mode in `previousMode` even when the ghost is already FRIGHTENED, so the mode that fright ends in (src/entities/ghost.ts:310-318) is FRIGHTENED again | two power pellets eaten less than 8000 ms apart, e.g. `FrightenAsWritten(FrightenAsWritten(INITIAL_CLOCK))`: after the fright times out the ghost stays frightened until it is eaten | a second pellet restarts the fright timer but keeps the scatter or chase mode saved by the first, so fright always ends after 8000 ms | not executed | GhostEntity.FrightenAsWritten (what the ghosts and the game run, through GhostEntity.FrightenGhost), GhostEntity.AsWrittenSecondPellet, GhostEntity.AsWrittenFrightNeverEnds, GhostEntity.SecondPelletLocksFright | GhostEntity.Frighten, GhostEntity.FrightEnds, GhostEntity.FrightenKeepsCoherent (proved beside the model, which keeps the source's behaviour) |
